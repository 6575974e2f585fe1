# telegram-vercel handlers in Dafny

A model of the three serverless handlers of a Telegram bot relay:

- the **webhook** (`handler`), which takes Telegram updates, checks the
  shared secret, drops repeated (chat, text) pairs seen within 5 seconds,
  asks an AI endpoint for a reply (or echoes the text behind a brain emoji
  when none is configured), sends the reply to the chat, logs to a
  spreadsheet relay, and acknowledges with 200 whatever went wrong in the
  AI/Telegram/log path (only building the dedup key can throw past
  authentication; see below);
- the **AI proxy** (`ai`), which forwards `text ?? prompt` to the AI
  endpoint, or answers from a two-rule fallback (a greeting for `/start`,
  otherwise a robot-emoji echo), and passes a failing upstream status back;
- the **relay** (`relay`), a token-protected ingress that calls the
  internal AI endpoint, optionally pushes the reply to Telegram, and
  returns the AI answer, with failures surfacing as 500.

Each handler is a function from the request, the environment variables
and the results of its upstream `fetch` calls to a `Response`: status,
body, and the list of requests issued on the way, in order. That list is
what makes "nothing is sent before authentication" or "exactly one log
event" statable. The webhook's process-wide dedup map is a class,
`Dedup.RecentCache`, whose `Check` and `Sweep` methods update it in place
(the sweep is a loop over the keys of a snapshot); `Webhook.Handler` runs
the handler against such an object and is proved equal to the pure
`Webhook.Respond`, which returns the new map beside the response.

Modules: `Js` (JavaScript values, truthiness, `??`, optional property
access, `String(v)`, `trim`, `toLowerCase`), `Http` (requests, headers,
environment, fetch results, issued calls, responses), `Dedup`, `Webhook`,
`Ai`, `Relay`.

Some behaviour of the code worth knowing: every non-POST request to the
webhook gets 200 `Telegram Webhook OK`, while the AI proxy and the relay
answer 405; the AI proxy returns an ok upstream's JSON body as it is; the
relay returns the AI endpoint's body with 200 whatever status that
endpoint answered.

`String(v)`, `${v}` and `Number(v)` throw a TypeError for a parsed JSON
object with an own `toString` property (the property hides the inherited
method and is not callable), and for an array holding such an object;
`Js.Convertible` says when the conversion succeeds. In the AI proxy and the
relay the TypeError is caught and answered with 500. In the webhook the
dedup key (api/webhook.ts:62) is built before the `try`, so such a chat id
or text lets the exception escape the handler, which then answers nothing;
`Http.Response` has an `Escaped` case for this.

## Model

| member | source | states |
|---|---|---|
| `Js.NatToDecimal` | api/webhook.ts:62 | the decimal rendering of a number is a non-empty digit string with a leading zero only for 0 |
| `Js.IntToDecimalRoundTrip` | api/webhook.ts:62 | reading back the decimal rendering of any integer gives that integer |
| `Js.IntToDecimalInjective` | api/webhook.ts:62 | distinct integers render as distinct strings |
| `Js.ToString` | api/ai.ts:14-18 | applies only to a convertible value, since `String(v)` throws for any other; a string renders as itself, a number as a decimal string that reads back as that number, an object as `[object Object]`, and only the empty string or an array renders as "" |
| `Js.TrimStart` | api/ai.ts:14 | the result is a suffix of the input, only white space was dropped, and it does not start with white space |
| `Js.TrimEnd` | api/ai.ts:14 | the result is a prefix of the input, only white space was dropped, and it does not end with white space |
| `Js.Lower` | api/ai.ts:14 | lower-casing keeps the length, leaves no ASCII capital, turns each capital into the same letter in lower case and changes nothing else |
| `Js.LowerIdempotent` | api/ai.ts:14 | lower-casing twice is lower-casing once |
| `Dedup.Swept` | api/webhook.ts:68 | after the sweep every entry is at most WINDOW_MS old, exactly the entries with `now - t > WINDOW_MS` are gone, and survivors keep their timestamps |
| `Dedup.Admit` | api/webhook.ts:66-68 | an accepted key maps to `now`, every entry is within the window, other survivors are unchanged, and no unexpired entry is lost |
| `Dedup.BoundaryEntrySurvivesButIsNotDuplicate` | api/webhook.ts:65-68 | an entry exactly WINDOW_MS old survives the sweep yet no longer marks its key as a duplicate |
| `Dedup.AbsentKeyIsDuplicateIffEarly` | api/webhook.ts:64-65 | an unknown key defaults to 0, so it is a duplicate exactly when `now < WINDOW_MS` |
| `Dedup.RepeatWithinWindowIsDuplicate` | api/webhook.ts:64-66 | a key accepted at `t` is a duplicate at any time in `[t, t + WINDOW_MS)` |
| `Dedup.RepeatAfterWindowIsAccepted` | api/webhook.ts:64-66 | a key accepted at `t` is accepted again from `t + WINDOW_MS` on |
| `Dedup.SweepsCompose` | api/webhook.ts:68 | a sweep at `t1` followed by one at a later `t2` equals the sweep at `t2` |
| `Dedup.RecentCache.constructor` | api/webhook.ts:4 | the map starts empty |
| `Dedup.RecentCache.Check` | api/webhook.ts:62-68 | reports a duplicate exactly when `now - (last or 0) < WINDOW_MS` and then leaves the map unchanged; otherwise the map becomes the admitted map |
| `Dedup.RecentCache.Sweep` | api/webhook.ts:68 | the loop over a snapshot of the keys leaves exactly the swept map |
| `Webhook.DedupKey` | api/webhook.ts:62 | for a numeric chat id the key `chatId::text` splits back at its first colon into the chat id's rendering and the text's |
| `Webhook.DedupKeyInjective` | api/webhook.ts:62 | for a numeric chat id and string text, distinct (chat, text) pairs get distinct `chatId::text` keys |
| `Webhook.RelayToGas` | api/webhook.ts:33-41 | one POST of the payload when GAS_URL is set, none otherwise, never a failure |
| `Webhook.CallAi` | api/webhook.ts:16-31 | without AI_URL the brain-prefixed echo and no request (a TypeError when the text does not convert); with it exactly one request; a rejection or unreadable body rethrows that exception, a non-ok status throws `AI error: S`, and an ok parsed body is the returned value |
| `Webhook.Reply` | api/webhook.ts:77-99 | the AI/Telegram/log path always answers 200 with `{ok:true}` or `{ok:true, error:'handled'}` |
| `Webhook.Respond` | api/webhook.ts:43-100 | an exception escapes exactly for an authenticated text update whose chat id or text does not convert to a string, with nothing issued and the map unchanged; otherwise the answer is 200 or 401; a 401 issued nothing and left the map unchanged; the map is either unchanged or the update's key admitted at `now` |
| `Webhook.Handler` | api/webhook.ts:43-100 | running the handler against the mutable cache gives the response (or escaped exception) and new map `Respond` describes |
| `Webhook.NonPostAcknowledged` | api/webhook.ts:44 | a non-POST gets 200 `Telegram Webhook OK`, issues nothing and leaves the map unchanged |
| `Webhook.BadSecretRejected` | api/webhook.ts:47-53 | the status is 401 exactly for a POST whose secret header is missing, not a single string, or wrong while TG_SECRET is set; then body `bad secret`, no calls, map unchanged |
| `Webhook.NonTextUpdateLogged` | api/webhook.ts:71-75 | an update lacking a truthy chat id or text leaves the map unchanged, issues one `non_text_update` log (none without GAS_URL) and no AI or Telegram call, and gets 200 `{ok:true}` |
| `Webhook.DuplicateAcknowledged` | api/webhook.ts:61-65 | a duplicate text update gets 200 `{ok:true, dedup:true}` with no calls and the map unchanged |
| `Webhook.AcceptedUpdateRecorded` | api/webhook.ts:66-68 | an accepted text update leaves `recent[key] == now`, every entry within the window, exactly the unexpired others kept, with their timestamps |
| `Webhook.FailuresAcknowledged` | api/webhook.ts:77-99 | the answer is 200; it is `{ok:true, error:'handled'}` exactly when the AI call or the Telegram send threw, and with GAS_URL set exactly one log event is sent, the last request: an `error` log after a failure, otherwise a `telegram_message` log; without GAS_URL none |
| `Webhook.ReplySentToChat` | api/webhook.ts:79-83 | the chat receives `ai.reply` unless null or undefined, else `(no reply)`; without AI_URL the brain-prefixed text; after a non-ok AI status nothing is sent |
| `Webhook.RedeliveryWithinWindowDeduplicated` | api/webhook.ts:60-66 | the same update redelivered less than WINDOW_MS later is acknowledged as a duplicate and issues nothing |
| `Webhook.RedeliveryAfterWindowProcessed` | api/webhook.ts:60-66 | the same update redelivered WINDOW_MS or more later is processed again and recorded at the new time |
| `Webhook.HelloFromChat42` | api/webhook.ts:43-94 | "hello" from chat 42 with nothing configured sends the brain-prefixed echo to chat 42 and answers `{ok:true}` |
| `Webhook.ChatIdWithOwnToStringEscapes` | api/webhook.ts:61-62 | a text update whose chat id is `{"toString": 0}` makes the handler throw before answering, with nothing issued and the map unchanged |
| `Http.AiRequest` | api/ai.ts:22-29 | the AI request goes to AI_URL with the given prompt and user, and carries `Authorization: Bearer <key>` exactly when AI_API_KEY is set |
| `Ai.Respond` | api/ai.ts:3-37 | the proxy always answers (nothing escapes); non-POST gives 405, a missing input 400, both with no request; a request is issued exactly when AI_URL is set and the input is truthy, and it is the AI request for that input and user |
| `Ai.FallbackReply` | api/ai.ts:12-18 | the fallback reply is the greeting exactly when the trimmed, lower-cased input is `/start`, and otherwise the input's rendering, untrimmed, behind the robot prefix |
| `Ai.StartCommandRecognised` | api/ai.ts:14-17 | `" /START\n"` gets the greeting |
| `Ai.OtherInputEchoed` | api/ai.ts:18 | an example: `" hi "` is echoed untrimmed behind the robot prefix |
| `Ai.FallbackWithoutEndpoint` | api/ai.ts:11-20 | without AI_URL nothing is forwarded; an input that converts to a string gets 200 with the fallback reply, one that does not gets 500 with the TypeError's message |
| `Ai.TextTakesPrecedence` | api/ai.ts:7-8 | an empty `text` is not replaced by `prompt` (only null or undefined is), so it gets 400 |
| `Ai.UpstreamStatusPassedThrough` | api/ai.ts:31 | an upstream non-ok status S gives status S and `AI upstream S` |
| `Ai.UpstreamAnswerPassedThrough` | api/ai.ts:32-33 | an ok upstream answer is returned verbatim with 200 |
| `Ai.RequestForwarded` | api/ai.ts:22-29 | one request, prompt = input, user = `chatId` unless null or undefined else `user`, Authorization exactly when AI_API_KEY is set |
| `Ai.FailureIs500` | api/ai.ts:25-35 | a rejected request, or an ok answer whose body cannot be read, gives 500 with that error's message, or `AI error` when it has none |
| `Relay.Respond` | api/relay.ts:12-42 | the relay always answers (nothing escapes) with 200, 400, 401, 405 or 500; 401 exactly for an unauthorized POST; a request is issued exactly for an authorized POST with truthy text, and the first is the internal AI call |
| `Relay.NonPostRefused` | api/relay.ts:13 | a non-POST gets 405 and issues nothing |
| `Relay.TokenCheckedBeforeBody` | api/relay.ts:16-19 | with RELAY_TOKEN set a missing or wrong token, or one that is not a single string, gets 401 whatever the body |
| `Relay.NoTokenNoCheck` | api/relay.ts:17 | without RELAY_TOKEN nothing is ever refused as unauthorized |
| `Relay.MissingTextRefused` | api/relay.ts:21-22 | an authorized POST without truthy text gets 400 `Missing text` and issues nothing |
| `Relay.PushIff` | api/relay.ts:33-36 | a Telegram push happens exactly when the AI answer was read, both `pushToTelegram` and `user` are truthy and `Number(user)` does not throw; it carries `reply`, or `(no reply)` when that is null or undefined |
| `Relay.AnswerPassedThrough` | api/relay.ts:31-38 | a 200 carries the AI answer unchanged as `data`, whatever the upstream status; a read answer, a convertible `user` and a sent push always give 200 |
| `Relay.FailureIs500` | api/relay.ts:25-40 | a rejected AI request, an unreadable AI body, a `user` that `Number` cannot convert, or a rejected push gives 500 with that error's message (or `relay error` when it has none), and after a failed conversion nothing is pushed |

## Left out

- api/gas.ts, the spreadsheet forwarding endpoint: it only checks the method and GAS_URL and forwards the body.
- The `fetch` calls themselves, URL construction (Telegram's bot URL, `${BASE_URL}/api/ai`), request headers other than `Authorization`, and JSON serialisation: each call is recorded as a `Call` value and its result is an input. A payload field whose value is `undefined` stays in the modelled payload, while `JSON.stringify` would drop it.
- `process.env`, `Date.now()` and the Vercel `req`/`res` objects: they are parameters and a returned `Response`.
- Concurrent invocations racing on the shared dedup map, and the map being lost when the platform starts a new instance.
- Numbers are integers: no fractions, NaN or infinities, and `String(n)` never switches to exponent notation.
- `trim` removes only the ASCII white space, NBSP, BOM and the two line separators; `toLowerCase` folds only ASCII letters.
- `Relay.PushIff`: the chat id pushed to is `user` as received, because the value of `Number(user)` is not modelled (only whether it throws).
- What the platform does when an exception escapes the webhook (its answer to Telegram, and Telegram's retries).
- Property reads see only an object's own fields, not inherited ones.

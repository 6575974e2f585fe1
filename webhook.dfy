/** The Telegram webhook (`handler` in api/webhook.ts): authenticate the
    update, drop duplicates, ask the AI for a reply, send it to the chat, log
    to the spreadsheet relay, and acknowledge with 200 whatever went wrong in
    the AI/Telegram/log path, so that Telegram does not retry the delivery.
    Only building the dedup key can throw past authentication, and then no
    answer is sent. */
module Webhook {
  import opened Js
  import opened Http
  import opened Dedup

  const SECRET_HEADER := "x-telegram-bot-api-secret-token"
  const WEBHOOK_OK := "Telegram Webhook OK"
  /** The decoration of the fallback echo (a brain emoji and a space). */
  const BRAIN := "\U{1F9E0} "

  const ACK: JsValue := JObj(map["ok" := JBool(true)])
  const DEDUP_ACK: JsValue := JObj(map["ok" := JBool(true), "dedup" := JBool(true)])
  const HANDLED_ACK: JsValue := JObj(map["ok" := JBool(true), "error" := JStr("handled")])
  const BAD_SECRET: JsValue := ErrorJson(JStr("bad secret"))

  // ---------------------------------------------------------------------
  // The dedup key

  predicate NoColon(s: string) {
    forall i :: 0 <= i < |s| ==> s[i] != ':'
  }

  /** The position of the first colon in `key`, or its length when it has none. */
  function FirstColon(key: string): (i: nat)
    ensures i <= |key| && NoColon(key[..i])
    ensures i < |key| ==> key[i] == ':'
  {
    if key == [] || key[0] == ':' then 0 else 1 + FirstColon(key[1..])
  }

  /** The chat part of a dedup key: what precedes its first colon. */
  function ChatPart(key: string): string {
    key[..FirstColon(key)]
  }

  /** The text part of a dedup key: what follows the first `::`. */
  function TextPart(key: string): string {
    var i := FirstColon(key);
    if i + 2 <= |key| then key[i + 2..] else ""
  }

  /** A key joined from a colon-free chat part splits back into its parts. */
  lemma SplitsBack(c: string, t: string)
    requires NoColon(c)
    ensures ChatPart(c + "::" + t) == c && TextPart(c + "::" + t) == t
  {
    var key := c + "::" + t;
    var i := FirstColon(key);
    assert key[|c|] == ':';
    assert key[..|c|] == c && key[|c| + 2..] == t;
  }

  /** `${chatId}::${text}` (both must convert to a string). For a numeric
      chat id, as Telegram sends it, the key splits back at its first colon
      into the chat id's digits and the text. */
  function DedupKey(chatId: JsValue, text: JsValue): (key: string)
    requires Convertible(chatId) && Convertible(text)
    ensures chatId.JNum? ==> ChatPart(key) == ToString(chatId) && TextPart(key) == ToString(text)
  {
    var c, t := ToString(chatId), ToString(text);
    if chatId.JNum? then
      assert NoColon(c) by {
        assert forall i :: 0 <= i < |c| ==> c[i] == '-' || IsDigit(c[i]);
      }
      SplitsBack(c, t);
      c + "::" + t
    else
      c + "::" + t
  }

  /** For a numeric chat id and a string text, as Telegram sends them,
      distinct (chat, text) pairs never share a dedup entry. */
  lemma DedupKeyInjective(c1: int, t1: string, c2: int, t2: string)
    requires DedupKey(JNum(c1), JStr(t1)) == DedupKey(JNum(c2), JStr(t2))
    ensures c1 == c2 && t1 == t2
  {
    var key := DedupKey(JNum(c1), JStr(t1));
    assert ToString(JNum(c1)) == ChatPart(key) == ToString(JNum(c2));
  }

  // ---------------------------------------------------------------------
  // The upstream helpers

  /** `relayToGAS(payload)`: one POST when GAS_URL is set, none otherwise;
      its failure is swallowed, so it never throws. */
  function RelayToGas(env: Env, payload: JsValue): (calls: seq<Call>)
    ensures |calls| <= 1
    ensures calls != [] <==> Configured(env, "GAS_URL")
    ensures forall c :: c in calls ==> c == GasPost(env["GAS_URL"], payload)
  {
    if Configured(env, "GAS_URL") then [GasPost(env["GAS_URL"], payload)] else []
  }

  /** `callAI` either returns a value or throws; either way it may have
      issued a request. */
  datatype AiResult = AiReturned(value: JsValue, calls: seq<Call>) | AiThrew(err: Exception, calls: seq<Call>)

  /** `new Error(`AI error: ${r.status}`)` */
  function StatusError(status: int): Exception {
    var message := "AI error: " + IntToDecimal(status);
    Exception(JStr(message), "Error: " + message)
  }

  /** `callAI(text, chatId)`: without AI_URL an echo decorated with the
      brain prefix (which throws when `text` does not convert to a string)
      and no request; with it one POST, whose rejection, non-ok status or
      unreadable body becomes an exception, and whose parsed body is the
      result. */
  function CallAi(env: Env, text: JsValue, chatId: JsValue, outcome: Fetch): (r: AiResult)
    ensures !Configured(env, "AI_URL") && Convertible(text) ==>
              r == AiReturned(JObj(map["reply" := JStr(BRAIN + ToString(text))]), [])
    ensures !Configured(env, "AI_URL") && !Convertible(text) ==> r == AiThrew(CANNOT_CONVERT, [])
    ensures Configured(env, "AI_URL") ==> r.calls == [AiRequest(env, text, chatId)]
    ensures Configured(env, "AI_URL") && outcome.Rejected? ==> r.AiThrew? && r.err == outcome.err
    ensures Configured(env, "AI_URL") && outcome.Responded? && !IsOk(outcome.status) ==>
              r == AiThrew(StatusError(outcome.status), r.calls)
    ensures Configured(env, "AI_URL") && outcome.Responded? && IsOk(outcome.status) && outcome.json.Parsed? ==>
              r == AiReturned(outcome.json.value, r.calls)
    ensures Configured(env, "AI_URL") && outcome.Responded? && IsOk(outcome.status) && outcome.json.Unparsable? ==>
              r.AiThrew? && r.err == outcome.json.err
  {
    if !Configured(env, "AI_URL") then
      if !Convertible(text) then AiThrew(CANNOT_CONVERT, [])
      else AiReturned(JObj(map["reply" := JStr(BRAIN + ToString(text))]), [])
    else
      var call := AiRequest(env, text, chatId);
      match outcome
      case Rejected(e) => AiThrew(e, [call])
      case Responded(status, json) =>
        if !IsOk(status) then AiThrew(StatusError(status), [call])
        else
          match json
          case Parsed(v) => AiReturned(v, [call])
          case Unparsable(e) => AiThrew(e, [call])
  }

  // ---------------------------------------------------------------------
  // The update and the log payloads

  /** What `handler` reads from the body. */
  datatype Update = Update(update: JsValue, msg: JsValue, chatId: JsValue, text: JsValue)

  /** `update = req.body || {}`, `msg = update?.message`,
      `chatId = msg?.chat?.id`, `text = msg?.text` */
  function ReadUpdate(body: JsValue): Update {
    var update := OrEmptyObject(body);
    var msg := GetField(update, "message");
    Update(update, msg, GetField(GetField(msg, "chat"), "id"), GetField(msg, "text"))
  }

  /** `chatId && text` */
  predicate IsTextUpdate(u: Update) {
    Truthy(u.chatId) && Truthy(u.text)
  }

  /** Both parts of the dedup key convert to strings, so building it does not throw. */
  predicate KeyConvertible(u: Update) {
    Convertible(u.chatId) && Convertible(u.text)
  }

  function KeyOf(u: Update): string
    requires KeyConvertible(u)
  {
    DedupKey(u.chatId, u.text)
  }

  /** `err?.message || String(err)` */
  function ErrorText(e: Exception): JsValue {
    if Truthy(e.message) then e.message else JStr(e.rendered)
  }

  function NonTextPayload(u: Update): JsValue {
    JObj(map["type" := JStr("non_text_update"), "update" := u.update])
  }

  function MessagePayload(u: Update, reply: JsValue): JsValue {
    JObj(map["type" := JStr("telegram_message"), "chat_id" := u.chatId, "text" := u.text,
             "ai_reply" := reply, "date" := GetField(u.msg, "date")])
  }

  function ErrorPayload(e: Exception, u: Update): JsValue {
    JObj(map["type" := JStr("error"), "message" := ErrorText(e), "text" := u.text, "chat_id" := u.chatId])
  }

  /** The log event type a call to the relay carries, if it is one. */
  function LogType(c: Call): JsValue {
    if c.GasPost? then GetField(c.payload, "type") else JUndefined
  }

  predicate IsAiOrTelegram(c: Call) {
    c.AiPost? || c.InternalAiPost? || c.TelegramPost?
  }

  // ---------------------------------------------------------------------
  // The handler

  /** Lines 44-53: the method check, then the shared-secret check. A
      response here is final and nothing has been issued. */
  function Gate(req: Request, env: Env): Option<Response> {
    if req.verb != "POST" then Some(Response(200, Text(WEBHOOK_OK), []))
    else if Configured(env, "TG_SECRET") && !HeaderIs(req, SECRET_HEADER, env["TG_SECRET"]) then
      Some(Response(401, Json(BAD_SECRET), []))
    else None
  }

  /** The `try`/`catch` of lines 77-99 for a text update: AI, then Telegram,
      then the log; any exception from the first two is logged as an `error`
      event and acknowledged. */
  function Reply(env: Env, u: Update, up: Upstreams): (r: Response)
    ensures r.Response? && r.status == 200
    ensures r.body == Json(ACK) || r.body == Json(HANDLED_ACK)
  {
    match CallAi(env, u.text, u.chatId, up.ai)
    case AiThrew(e, calls) =>
      Response(200, Json(HANDLED_ACK), calls + RelayToGas(env, ErrorPayload(e, u)))
    case AiReturned(v, calls) =>
      var reply := ReplyOrDefault(v);
      var send := TelegramPost(u.chatId, reply);
      if up.telegram.Rejected? then
        Response(200, Json(HANDLED_ACK), calls + [send] + RelayToGas(env, ErrorPayload(up.telegram.err, u)))
      else
        Response(200, Json(ACK), calls + [send] + RelayToGas(env, MessagePayload(u, reply)))
  }

  /** The whole handler as a function of the dedup map before the request;
      it gives the response and the map after it. Building the dedup key
      (line 62) is outside the `try`, so a text update whose chat id or
      text does not convert to a string makes the exception escape. */
  function Respond(recent: map<string, int>, req: Request, env: Env, now: int, up: Upstreams)
    : (r: (Response, map<string, int>))
    ensures var u := ReadUpdate(req.body);
            r.0.Escaped? <==> Gate(req, env).None? && IsTextUpdate(u) && !KeyConvertible(u)
    ensures r.0.Escaped? ==> r == (Escaped(CANNOT_CONVERT, []), recent)
    ensures r.0.Response? ==> r.0.status == 200 || r.0.status == 401
    ensures r.0.Response? && r.0.status == 401 ==> r.0.calls == [] && r.1 == recent
    ensures var u := ReadUpdate(req.body);
            r.1 == recent || (KeyConvertible(u) && r.1 == Admit(recent, KeyOf(u), now))
  {
    var gate := Gate(req, env);
    if gate.Some? then (gate.value, recent)
    else
      var u := ReadUpdate(req.body);
      if !IsTextUpdate(u) then
        (Response(200, Json(ACK), RelayToGas(env, NonTextPayload(u))), recent)
      else if !KeyConvertible(u) then (Escaped(CANNOT_CONVERT, []), recent)
      else
        var key := KeyOf(u);
        if IsDuplicate(recent, key, now) then (Response(200, Json(DEDUP_ACK), []), recent)
        else (Reply(env, u, up), Admit(recent, key, now))
  }

  /** `handler`, with the module-level `recent` map as `cache`, `Date.now()`
      as `now`, and the upstream results as `up`. */
  method Handler(cache: RecentCache, req: Request, env: Env, now: int, up: Upstreams) returns (r: Response)
    modifies cache
    ensures (r, cache.recent) == Respond(old(cache.recent), req, env, now, up)
  {
    if req.verb != "POST" {
      return Response(200, Text(WEBHOOK_OK), []);
    }
    if Configured(env, "TG_SECRET") {
      if !HeaderIs(req, SECRET_HEADER, env["TG_SECRET"]) {
        return Response(401, Json(BAD_SECRET), []);
      }
    }
    var u := ReadUpdate(req.body);
    if IsTextUpdate(u) {
      if !KeyConvertible(u) {
        return Escaped(CANNOT_CONVERT, []);
      }
      var dup := cache.Check(KeyOf(u), now);
      if dup {
        return Response(200, Json(DEDUP_ACK), []);
      }
    }
    if !IsTextUpdate(u) {
      return Response(200, Json(ACK), RelayToGas(env, NonTextPayload(u)));
    }
    r := Reply(env, u, up);
  }

  // ---------------------------------------------------------------------
  // Properties

  /** Any method but POST is acknowledged with a plain-text 200, before
      anything else happens. */
  lemma NonPostAcknowledged(recent: map<string, int>, req: Request, env: Env, now: int, up: Upstreams)
    requires req.verb != "POST"
    ensures Respond(recent, req, env, now, up) == (Response(200, Text(WEBHOOK_OK), []), recent)
  {
  }

  /** With TG_SECRET set, a POST whose secret header is missing, not a
      single string, or different is refused with 401 `bad secret`, leaving the dedup map alone
      and issuing nothing; and that is the only way to get a non-200. */
  lemma BadSecretRejected(recent: map<string, int>, req: Request, env: Env, now: int, up: Upstreams)
    ensures var r := Respond(recent, req, env, now, up);
            r.0.Response? && r.0.status == 401 <==>
              req.verb == "POST" && Configured(env, "TG_SECRET") && !HeaderIs(req, SECRET_HEADER, env["TG_SECRET"])
    ensures var r := Respond(recent, req, env, now, up);
            r.0.Response? && r.0.status == 401 ==> r == (Response(401, Json(BAD_SECRET), []), recent)
  {
  }

  /** An update without a truthy chat id or text is logged once as a
      `non_text_update` (when the relay is configured), never reaches the AI
      or Telegram, leaves the dedup map alone, and is acknowledged. */
  lemma NonTextUpdateLogged(recent: map<string, int>, req: Request, env: Env, now: int, up: Upstreams)
    requires Gate(req, env).None?
    requires !IsTextUpdate(ReadUpdate(req.body))
    ensures var r := Respond(recent, req, env, now, up);
            && r.1 == recent
            && r.0.Response? && r.0.status == 200 && r.0.body == Json(ACK)
            && (forall c :: c in r.0.calls ==> !IsAiOrTelegram(c) && LogType(c) == JStr("non_text_update"))
            && |r.0.calls| == (if Configured(env, "GAS_URL") then 1 else 0)
  {
  }

  /** A text update whose key was accepted less than `WINDOW_MS` ago is
      acknowledged as a duplicate with nothing issued and the map unchanged. */
  lemma DuplicateAcknowledged(recent: map<string, int>, req: Request, env: Env, now: int, up: Upstreams)
    requires Gate(req, env).None?
    requires IsTextUpdate(ReadUpdate(req.body)) && KeyConvertible(ReadUpdate(req.body))
    requires IsDuplicate(recent, KeyOf(ReadUpdate(req.body)), now)
    ensures Respond(recent, req, env, now, up) == (Response(200, Json(DEDUP_ACK), []), recent)
  {
  }

  /** A text update that is not a duplicate records its key at `now`, and
      the sweep leaves only entries within the window, untouched. */
  lemma AcceptedUpdateRecorded(recent: map<string, int>, req: Request, env: Env, now: int, up: Upstreams)
    requires Gate(req, env).None?
    requires IsTextUpdate(ReadUpdate(req.body)) && KeyConvertible(ReadUpdate(req.body))
    requires !IsDuplicate(recent, KeyOf(ReadUpdate(req.body)), now)
    ensures var key := KeyOf(ReadUpdate(req.body));
            var after := Respond(recent, req, env, now, up).1;
            && key in after && after[key] == now
            && (forall k :: k in after ==> now - after[k] <= WINDOW_MS)
            && (forall k :: k in recent && k != key ==> (k in after <==> !Expired(recent[k], now)))
            && (forall k :: k in after && k != key ==> after[k] == recent[k])
  {
  }

  /** Whatever the AI and Telegram do, an accepted text update is
      acknowledged with 200; an exception from either becomes
      `{ok: true, error: 'handled'}` after an `error` log event. With the
      relay configured exactly one log event is sent, and it is the last
      request issued; without it none is. */
  lemma FailuresAcknowledged(env: Env, u: Update, up: Upstreams)
    ensures var r := Reply(env, u, up);
            var failed := CallAi(env, u.text, u.chatId, up.ai).AiThrew? || up.telegram.Rejected?;
            && r.status == 200
            && (r.body == Json(HANDLED_ACK) <==> failed)
            && (failed && Configured(env, "GAS_URL") ==> LogType(r.calls[|r.calls| - 1]) == JStr("error"))
            && (!failed && Configured(env, "GAS_URL") ==> LogType(r.calls[|r.calls| - 1]) == JStr("telegram_message"))
            && (Configured(env, "GAS_URL") <==> r.calls != [] && r.calls[|r.calls| - 1].GasPost?)
            && (forall i :: 0 <= i < |r.calls| - 1 ==> !r.calls[i].GasPost?)
  {
    var r := Reply(env, u, up);
    var ai := CallAi(env, u.text, u.chatId, up.ai);
    assert "error" in HANDLED_ACK.fields && "error" !in ACK.fields;
    if Configured(env, "GAS_URL") {
      if ai.AiThrew? {
        assert r.calls[|r.calls| - 1] == GasPost(env["GAS_URL"], ErrorPayload(ai.err, u));
      } else if up.telegram.Rejected? {
        assert r.calls[|r.calls| - 1] == GasPost(env["GAS_URL"], ErrorPayload(up.telegram.err, u));
      } else {
        assert r.calls[|r.calls| - 1] == GasPost(env["GAS_URL"], MessagePayload(u, ReplyOrDefault(ai.value)));
      }
    }
  }

  /** The text sent to Telegram is the AI's `reply` when it is neither null
      nor undefined, else `(no reply)`; without AI_URL it is the decorated
      echo; and an AI request answered with a non-ok status sends nothing. */
  lemma ReplySentToChat(env: Env, u: Update, up: Upstreams)
    ensures var ai := CallAi(env, u.text, u.chatId, up.ai);
            var r := Reply(env, u, up);
            ai.AiReturned? ==>
              |r.calls| > |ai.calls| &&
              r.calls[|ai.calls|] == TelegramPost(u.chatId,
                if Nullish(GetField(ai.value, "reply")) then JStr(NO_REPLY) else GetField(ai.value, "reply"))
    ensures !Configured(env, "AI_URL") && Convertible(u.text) ==>
              Reply(env, u, up).calls[0] == TelegramPost(u.chatId, JStr(BRAIN + ToString(u.text)))
    ensures Configured(env, "AI_URL") && up.ai.Responded? && !IsOk(up.ai.status) ==>
              forall c :: c in Reply(env, u, up).calls ==> !c.TelegramPost?
  {

  }

  /** The same update delivered twice less than `WINDOW_MS` apart: the
      second delivery is acknowledged as a duplicate and issues nothing. */
  lemma RedeliveryWithinWindowDeduplicated(recent: map<string, int>, req: Request, env: Env,
                                           t: int, later: int, up1: Upstreams, up2: Upstreams)
    requires Gate(req, env).None?
    requires IsTextUpdate(ReadUpdate(req.body)) && KeyConvertible(ReadUpdate(req.body))
    requires !IsDuplicate(recent, KeyOf(ReadUpdate(req.body)), t)
    requires t <= later < t + WINDOW_MS
    ensures var first := Respond(recent, req, env, t, up1);
            Respond(first.1, req, env, later, up2) == (Response(200, Json(DEDUP_ACK), []), first.1)
  {

  }

  /** The same update delivered again `WINDOW_MS` or more later is handled
      afresh: it reaches the AI/Telegram path and is recorded at the new time. */
  lemma RedeliveryAfterWindowProcessed(recent: map<string, int>, req: Request, env: Env,
                                       t: int, later: int, up1: Upstreams, up2: Upstreams)
    requires Gate(req, env).None?
    requires IsTextUpdate(ReadUpdate(req.body)) && KeyConvertible(ReadUpdate(req.body))
    requires !IsDuplicate(recent, KeyOf(ReadUpdate(req.body)), t)
    requires later >= t + WINDOW_MS
    ensures var u := ReadUpdate(req.body);
            var first := Respond(recent, req, env, t, up1);
            var second := Respond(first.1, req, env, later, up2);
            second.0 == Reply(env, u, up2) && second.1[KeyOf(u)] == later
  {

  }

  /** A first "hello" from chat 42, with no AI endpoint and no relay
      configured: the chat receives the decorated echo and the webhook
      answers `{ok: true}`. */
  lemma HelloFromChat42(now: int, up: Upstreams)
    requires now >= WINDOW_MS
    requires up.telegram.Responded?
    ensures var body := JObj(map["message" := JObj(map["chat" := JObj(map["id" := JNum(42)]),
                                                       "text" := JStr("hello")])]);
            var r := Respond(map[], Request("POST", map[], body), map[], now, up);
            r.0 == Response(200, Json(ACK), [TelegramPost(JNum(42), JStr(BRAIN + "hello"))])
  {

  }

  /** A text update whose chat id is an object with an own `toString`
      property (only a forged request can carry one): building the dedup
      key throws outside the `try`, so the handler answers nothing, issues
      nothing and leaves the dedup map alone. */
  lemma ChatIdWithOwnToStringEscapes(recent: map<string, int>, now: int, up: Upstreams)
    ensures var id := JObj(map["toString" := JNum(0)]);
            var body := JObj(map["message" := JObj(map["chat" := JObj(map["id" := id]), "text" := JStr("hi")])]);
            Respond(recent, Request("POST", map[], body), map[], now, up) == (Escaped(CANNOT_CONVERT, []), recent)
  {
  }
}

/** What the three handlers exchange with the outside world: the incoming
    request, the environment, the results of their upstream `fetch` calls
    (supplied as inputs), the requests they issue, and the response. */
module Http {
  import opened Js

  datatype Option<T> = None | Some(value: T)

  /** A request header as the handlers' declared type admits it: absent, a
      string, or a list of strings. Node joins a repeated header other than
      `set-cookie` into one string (`"a, b"`), so the headers read here are
      never `Repeated` in practice; the case stays because the type allows it. */
  datatype Header = Absent | Single(value: string) | Repeated(values: seq<string>)

  /** An incoming request: its method (`req.method`), headers by lower-case name, parsed body. */
  datatype Request = Request(verb: string, headers: map<string, Header>, body: JsValue)

  function HeaderOf(req: Request, name: string): Header {
    if name in req.headers then req.headers[name] else Absent
  }

  /** The header is a single string equal to `expected`
      (`typeof h === 'string' && h === expected`, and `h === expected` alone,
      which no absent header or list satisfies). */
  predicate HeaderIs(req: Request, name: string, expected: string) {
    HeaderOf(req, name) == Single(expected)
  }

  /** `process.env`: the variables that are defined. */
  type Env = map<string, string>

  /** `process.env[name]` is truthy: defined and not empty. */
  predicate Configured(env: Env, name: string) {
    name in env && env[name] != ""
  }

  /** A thrown value: its `message` property and what `String(err)` gives. */
  datatype Exception = Exception(message: JsValue, rendered: string)

  /** What `r.json()` yields: a value, or the exception it rejects with. */
  datatype JsonBody = Parsed(value: JsValue) | Unparsable(err: Exception)

  /** The result of one `fetch`: a response, or the exception it rejects with. */
  datatype Fetch = Responded(status: int, json: JsonBody) | Rejected(err: Exception)

  /** What a handler's AI request and Telegram request would come back with. */
  datatype Upstreams = Upstreams(ai: Fetch, telegram: Fetch)

  /** The TypeError a failed conversion to a primitive throws (see `Convertible`). */
  const CANNOT_CONVERT := Exception(JStr("Cannot convert object to primitive value"),
                                    "TypeError: Cannot convert object to primitive value")

  /** `r.ok` */
  predicate IsOk(status: int) {
    200 <= status <= 299
  }

  /** A request a handler issues to an upstream. */
  datatype Call =
    | AiPost(url: string, prompt: JsValue, user: JsValue, authorization: Option<string>)
    | InternalAiPost(text: JsValue, chatId: JsValue)
    | TelegramPost(chatId: JsValue, text: JsValue)
    | GasPost(url: string, payload: JsValue)

  /** A response body: `res.send(text)` or `res.json(value)`. */
  datatype Body = Text(text: string) | Json(value: JsValue)

  /** What a handler does, with the requests it issued on the way, in order:
      it answers with a status and a body, or an exception escapes it (its
      promise rejects and the handler itself answers nothing). */
  datatype Response =
    | Response(status: int, body: Body, calls: seq<Call>)
    | Escaped(err: Exception, calls: seq<Call>)

  /** The AI upstream request both the webhook and the AI proxy build: the
      `Authorization` header carries `AI_API_KEY` as a bearer token when that
      variable is set. */
  function AiRequest(env: Env, prompt: JsValue, user: JsValue): (c: Call)
    requires Configured(env, "AI_URL")
    ensures c.AiPost? && c.url == env["AI_URL"] && c.prompt == prompt && c.user == user
    ensures c.authorization.Some? <==> Configured(env, "AI_API_KEY")
    ensures c.authorization.Some? ==> c.authorization.value == "Bearer " + env["AI_API_KEY"]
  {
    var auth := if Configured(env, "AI_API_KEY") then Some("Bearer " + env["AI_API_KEY"]) else None;
    AiPost(env["AI_URL"], prompt, user, auth)
  }

  const NO_REPLY := "(no reply)"

  /** `data?.reply ?? '(no reply)'` */
  function ReplyOrDefault(data: JsValue): JsValue {
    Coalesce(GetField(data, "reply"), JStr(NO_REPLY))
  }

  /** A property of `req.body || {}`, read by destructuring. */
  function BodyField(req: Request, name: string): JsValue {
    GetField(OrEmptyObject(req.body), name)
  }

  /** `{ error: message }` */
  function ErrorJson(message: JsValue): JsValue {
    JObj(map["error" := message])
  }

  /** The 405 body of the AI proxy and the relay. */
  const METHOD_NOT_ALLOWED: JsValue := ErrorJson(JStr("Method not allowed"))

  /** `e?.message ?? fallback` */
  function MessageOr(e: Exception, fallback: string): JsValue {
    Coalesce(e.message, JStr(fallback))
  }
}

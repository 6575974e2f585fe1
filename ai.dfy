/** The AI proxy (`ai` in api/ai.ts): take `text` (or `prompt`) from the
    body; without an AI endpoint answer from a tiny rule set, otherwise
    forward the prompt and pass the upstream's answer, or its failing status,
    back to the caller. */
module Ai {
  import opened Js
  import opened Http

  const GREETING := "Yo, bot nyala. Tembak pertanyaan lo."
  /** The decoration of the fallback echo (a robot emoji and a space). */
  const ROBOT := "\U{1F916} "
  const START_COMMAND := "/start"

  const MISSING_INPUT: JsValue := ErrorJson(JStr("Missing text/prompt"))

  /** `text ?? prompt` */
  function Input(req: Request): JsValue {
    Coalesce(BodyField(req, "text"), BodyField(req, "prompt"))
  }

  /** `chatId ?? user`, the user forwarded upstream. */
  function ForwardedUser(req: Request): JsValue {
    Coalesce(BodyField(req, "chatId"), BodyField(req, "user"))
  }

  /** `String(input).trim().toLowerCase() === '/start'` */
  predicate IsStartCommand(input: JsValue)
    requires Convertible(input)
  {
    Lower(Trim(ToString(input))) == START_COMMAND
  }

  /** The rule-based reply used when no AI endpoint is configured: the
      greeting for the start command, otherwise the input, untrimmed, behind
      the robot prefix. */
  function FallbackReply(input: JsValue): (r: string)
    requires Convertible(input)
    ensures r == GREETING <==> IsStartCommand(input)
    ensures !IsStartCommand(input) ==> r == ROBOT + ToString(input)
  {
    if IsStartCommand(input) then GREETING
    else
      var echo := ROBOT + ToString(input);
      assert echo[0] != GREETING[0];
      echo
  }

  /** The catch: `{ error: e?.message ?? 'AI error' }` with 500. */
  function Failure(e: Exception, calls: seq<Call>): Response {
    Response(500, Json(ErrorJson(MessageOr(e, "AI error"))), calls)
  }

  /** `{ reply }` */
  function ReplyJson(reply: string): JsValue {
    JObj(map["reply" := JStr(reply)])
  }

  /** The whole handler, given what the upstream `fetch` comes back with. */
  function Respond(req: Request, env: Env, upstream: Fetch): (r: Response)
    ensures r.Response?
    ensures req.verb != "POST" ==> r == Response(405, Json(METHOD_NOT_ALLOWED), [])
    ensures req.verb == "POST" && !Truthy(Input(req)) ==> r == Response(400, Json(MISSING_INPUT), [])
    ensures r.calls != [] <==> req.verb == "POST" && Truthy(Input(req)) && Configured(env, "AI_URL")
    ensures r.calls != [] ==> r.calls == [AiRequest(env, Input(req), ForwardedUser(req))]
  {
    if req.verb != "POST" then Response(405, Json(METHOD_NOT_ALLOWED), [])
    else
      var input := Input(req);
      if !Truthy(input) then Response(400, Json(MISSING_INPUT), [])
      else if !Configured(env, "AI_URL") then
        if !Convertible(input) then Failure(CANNOT_CONVERT, [])
        else Response(200, Json(ReplyJson(FallbackReply(input))), [])
      else
        var call := AiRequest(env, input, ForwardedUser(req));
        match upstream
        case Rejected(e) => Failure(e, [call])
        case Responded(status, json) =>
          if !IsOk(status) then
            Response(status, Json(ErrorJson(JStr("AI upstream " + IntToDecimal(status)))), [call])
          else
            match json
            case Parsed(v) => Response(200, Json(v), [call])
            case Unparsable(e) => Failure(e, [call])
  }

  // ---------------------------------------------------------------------
  // Properties

  lemma TrimStartOfCommand()
    ensures TrimStart(" /START\n") == "/START\n"
  {
    var raw := " /START\n";
    assert IsSpace(raw[0]) && raw[1..] == "/START\n";
    assert !IsSpace('/');
  }

  lemma TrimEndOfCommand()
    ensures TrimEnd("/START\n") == "/START"
  {
    var inner := "/START\n";
    assert IsSpace(inner[|inner| - 1]) && inner[..|inner| - 1] == "/START";
    assert !IsSpace('T');
  }

  lemma LowerStartCommand()
    ensures Lower("/START") == START_COMMAND
  {
    var folded := Lower("/START");
    assert folded[0] == '/' && folded[1] == 's' && folded[2] == 't';
    assert folded[3] == 'a' && folded[4] == 'r' && folded[5] == 't';
  }

  /** An example: the start command is recognised through surrounding
      white space and in capitals. */
  lemma StartCommandRecognised()
    ensures FallbackReply(JStr(" /START\n")) == GREETING
  {
    TrimStartOfCommand();
    TrimEndOfCommand();
    LowerStartCommand();
    assert IsStartCommand(JStr(" /START\n"));
  }

  /** An example: any other input is echoed exactly as it came, white space
      included. */
  lemma OtherInputEchoed()
    ensures FallbackReply(JStr(" hi ")) == ROBOT + " hi "
  {

  }

  /** Without AI_URL nothing is forwarded: a request whose input converts
      to a string gets 200 and the fallback reply, and one whose input does
      not (an object with an own `toString`) gets 500 with the TypeError's
      message. */
  lemma FallbackWithoutEndpoint(req: Request, env: Env, upstream: Fetch)
    requires req.verb == "POST" && Truthy(Input(req))
    requires !Configured(env, "AI_URL")
    ensures Convertible(Input(req)) ==>
              Respond(req, env, upstream) == Response(200, Json(ReplyJson(FallbackReply(Input(req)))), [])
    ensures !Convertible(Input(req)) ==>
              Respond(req, env, upstream) ==
              Response(500, Json(ErrorJson(JStr("Cannot convert object to primitive value"))), [])
  {
  }

  /** `text` wins over `prompt` unless it is null or undefined, even when it
      is falsy: an empty `text` is a missing input whatever `prompt` says. */
  lemma TextTakesPrecedence(req: Request, env: Env, upstream: Fetch)
    requires req.verb == "POST"
    requires BodyField(req, "text") == JStr("")
    ensures Respond(req, env, upstream) == Response(400, Json(MISSING_INPUT), [])
  {
  }

  /** An upstream answer with a non-ok status S is answered with status S
      and `AI upstream S`. */
  lemma UpstreamStatusPassedThrough(req: Request, env: Env, status: int, json: JsonBody)
    requires req.verb == "POST" && Truthy(Input(req)) && Configured(env, "AI_URL")
    requires !IsOk(status)
    ensures var r := Respond(req, env, Responded(status, json));
            r.status == status && r.body == Json(ErrorJson(JStr("AI upstream " + IntToDecimal(status))))
  {
  }

  /** An ok upstream answer is returned verbatim with 200. */
  lemma UpstreamAnswerPassedThrough(req: Request, env: Env, status: int, v: JsValue)
    requires req.verb == "POST" && Truthy(Input(req)) && Configured(env, "AI_URL")
    requires IsOk(status)
    ensures Respond(req, env, Responded(status, Parsed(v))).status == 200
    ensures Respond(req, env, Responded(status, Parsed(v))).body == Json(v)
  {
  }

  /** The forwarded request carries the input as the prompt, `chatId` (or
      `user` when `chatId` is null or undefined) as the user, and an
      `Authorization` header exactly when AI_API_KEY is set. */
  lemma RequestForwarded(req: Request, env: Env, upstream: Fetch)
    requires req.verb == "POST" && Truthy(Input(req)) && Configured(env, "AI_URL")
    ensures var c := Respond(req, env, upstream).calls;
            |c| == 1 && c[0].AiPost? && c[0].prompt == Input(req)
    ensures var c := Respond(req, env, upstream).calls[0];
            c.user == (if Nullish(BodyField(req, "chatId")) then BodyField(req, "user") else BodyField(req, "chatId"))
    ensures Respond(req, env, upstream).calls[0].authorization.Some? <==> Configured(env, "AI_API_KEY")
  {
  }

  /** A failure on the way (the request, or reading the body of an ok
      answer) is answered with 500 and the error's message, or `AI error`
      when it has none. */
  lemma FailureIs500(req: Request, env: Env, upstream: Fetch)
    requires req.verb == "POST" && Truthy(Input(req)) && Configured(env, "AI_URL")
    requires upstream.Rejected? || (IsOk(upstream.status) && upstream.json.Unparsable?)
    ensures var e := if upstream.Rejected? then upstream.err else upstream.json.err;
            var r := Respond(req, env, upstream);
            r.status == 500 &&
            r.body == Json(ErrorJson(if Nullish(e.message) then JStr("AI error") else e.message))
  {
  }
}

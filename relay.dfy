/** The relay ingress (`relay` in api/relay.ts): a caller holding the relay
    token sends `{ text, user, pushToTelegram }`; the text goes to the
    internal AI endpoint, the reply is optionally pushed to the user's chat,
    and the AI's answer is returned. Unlike the webhook, failures surface
    as 500. */
module Relay {
  import opened Js
  import opened Http

  const TOKEN_HEADER := "x-relay-token"

  const UNAUTHORIZED: JsValue := ErrorJson(JStr("unauthorized"))
  const MISSING_TEXT: JsValue := ErrorJson(JStr("Missing text"))

  /** The token check passes: RELAY_TOKEN is unset, or the header equals it. */
  predicate Authorized(req: Request, env: Env) {
    !Configured(env, "RELAY_TOKEN") || HeaderIs(req, TOKEN_HEADER, env["RELAY_TOKEN"])
  }

  /** `{ ok: true, data }` */
  function SuccessJson(data: JsValue): JsValue {
    JObj(map["ok" := JBool(true), "data" := data])
  }

  /** `e?.message ?? 'relay error'` as the body of a 500. */
  function Failure(e: Exception, calls: seq<Call>): Response {
    Response(500, Json(ErrorJson(MessageOr(e, "relay error"))), calls)
  }

  /** The whole handler, given what the internal AI request and the
      Telegram request come back with. */
  function Respond(req: Request, env: Env, up: Upstreams): (r: Response)
    ensures r.Response?
    ensures r.status in {200, 400, 401, 405, 500}
    ensures r.status == 401 <==> req.verb == "POST" && !Authorized(req, env)
    ensures r.calls != [] <==> req.verb == "POST" && Authorized(req, env) && Truthy(BodyField(req, "text"))
    ensures r.calls != [] ==> r.calls[0] == InternalAiPost(BodyField(req, "text"), BodyField(req, "user"))
    ensures |r.calls| <= 2
  {
    if req.verb != "POST" then Response(405, Json(METHOD_NOT_ALLOWED), [])
    else if !Authorized(req, env) then Response(401, Json(UNAUTHORIZED), [])
    else
      var text, user, push := BodyField(req, "text"), BodyField(req, "user"), BodyField(req, "pushToTelegram");
      if !Truthy(text) then Response(400, Json(MISSING_TEXT), [])
      else
        var call := InternalAiPost(text, user);
        match up.ai
        case Rejected(e) => Failure(e, [call])
        case Responded(_, Unparsable(e)) => Failure(e, [call])
        case Responded(_, Parsed(data)) =>
          if Truthy(push) && Truthy(user) then
            // `Number(user)` converts `user` to a primitive first
            if !Convertible(user) then Failure(CANNOT_CONVERT, [call])
            else
              var send := TelegramPost(user, ReplyOrDefault(data));
              if up.telegram.Rejected? then Failure(up.telegram.err, [call, send])
              else Response(200, Json(SuccessJson(data)), [call, send])
          else Response(200, Json(SuccessJson(data)), [call])
  }

  // ---------------------------------------------------------------------
  // Properties

  /** Any method but POST is refused with 405 and nothing issued. */
  lemma NonPostRefused(req: Request, env: Env, up: Upstreams)
    requires req.verb != "POST"
    ensures Respond(req, env, up) == Response(405, Json(METHOD_NOT_ALLOWED), [])
  {
  }

  /** With RELAY_TOKEN set, a POST whose token header is missing, not a
      single string, or different is refused with 401 whatever its body holds. */
  lemma TokenCheckedBeforeBody(req: Request, env: Env, up: Upstreams, otherBody: JsValue)
    requires req.verb == "POST" && Configured(env, "RELAY_TOKEN")
    requires !HeaderIs(req, TOKEN_HEADER, env["RELAY_TOKEN"])
    ensures Respond(req, env, up) == Response(401, Json(UNAUTHORIZED), [])
    ensures Respond(req.(body := otherBody), env, up) == Response(401, Json(UNAUTHORIZED), [])
  {
  }

  /** Without RELAY_TOKEN no request is ever refused as unauthorized. */
  lemma NoTokenNoCheck(req: Request, env: Env, up: Upstreams)
    requires !Configured(env, "RELAY_TOKEN")
    ensures Respond(req, env, up).status != 401
  {
  }

  /** An authorized POST without a truthy `text` is refused with 400
      `Missing text` and nothing issued. */
  lemma MissingTextRefused(req: Request, env: Env, up: Upstreams)
    requires req.verb == "POST" && Authorized(req, env)
    requires !Truthy(BodyField(req, "text"))
    ensures Respond(req, env, up) == Response(400, Json(MISSING_TEXT), [])
  {
  }

  /** A reply is pushed to Telegram exactly when the AI answer was read,
      both `pushToTelegram` and `user` are truthy, and `Number(user)` does
      not throw; it goes to `user` and
      carries the answer's `reply`, or `(no reply)` when that is null or
      undefined. */
  lemma PushIff(req: Request, env: Env, up: Upstreams)
    requires req.verb == "POST" && Authorized(req, env) && Truthy(BodyField(req, "text"))
    ensures var r := Respond(req, env, up);
            (exists c :: c in r.calls && c.TelegramPost?) <==>
              up.ai.Responded? && up.ai.json.Parsed? &&
              Truthy(BodyField(req, "pushToTelegram")) && Truthy(BodyField(req, "user")) &&
              Convertible(BodyField(req, "user"))
    ensures var r := Respond(req, env, up);
            forall c :: c in r.calls && c.TelegramPost? ==>
              var reply := GetField(up.ai.json.value, "reply");
              c == TelegramPost(BodyField(req, "user"), if Nullish(reply) then JStr(NO_REPLY) else reply)
  {
    var r := Respond(req, env, up);
    if up.ai.Responded? && up.ai.json.Parsed? &&
       Truthy(BodyField(req, "pushToTelegram")) && Truthy(BodyField(req, "user")) &&
       Convertible(BodyField(req, "user")) {
      assert r.calls[1].TelegramPost?;
    }
  }

  /** A 200 carries the AI's answer unchanged as `data`, whatever status
      the internal AI endpoint answered with. */
  lemma AnswerPassedThrough(req: Request, env: Env, up: Upstreams)
    ensures var r := Respond(req, env, up);
            r.status == 200 ==> up.ai.Responded? && up.ai.json.Parsed? &&
                                r.body == Json(SuccessJson(up.ai.json.value))
    ensures req.verb == "POST" && Authorized(req, env) && Truthy(BodyField(req, "text")) &&
            up.ai.Responded? && up.ai.json.Parsed? && up.telegram.Responded? &&
            Convertible(BodyField(req, "user")) ==>
              Respond(req, env, up).status == 200
  {
  }

  /** A failure on the way (the AI request, reading its body, converting
      `user` with `Number`, or the push) is answered with 500 and the
      error's message, or `relay error` when it has none. */
  lemma FailureIs500(req: Request, env: Env, up: Upstreams)
    requires req.verb == "POST" && Authorized(req, env) && Truthy(BodyField(req, "text"))
    ensures var r := Respond(req, env, up);
            var call := InternalAiPost(BodyField(req, "text"), BodyField(req, "user"));
            && (up.ai.Rejected? ==> r == Failure(up.ai.err, [call]))
            && (up.ai.Responded? && up.ai.json.Unparsable? ==> r == Failure(up.ai.json.err, [call]))
    ensures var r := Respond(req, env, up);
            var push, user := BodyField(req, "pushToTelegram"), BodyField(req, "user");
            up.ai.Responded? && up.ai.json.Parsed? && Truthy(push) && Truthy(user) ==>
              && (!Convertible(user) ==> r == Failure(CANNOT_CONVERT, r.calls) && !r.calls[|r.calls| - 1].TelegramPost?)
              && (Convertible(user) && up.telegram.Rejected? ==> r == Failure(up.telegram.err, r.calls))
  {
  }
}

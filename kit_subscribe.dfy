/** netlify/functions/kit-subscribe.js: relays a subscription to the Kit
    forms API after an ordered chain of guards (method, email, server
    configuration, upstream answer), each ending in a fixed status and JSON
    error envelope. */
module KitSubscribe {
  import opened Js
  import opened Subscription

  /** `body.email` as JSON delivers it: missing or null, a string, or some
      other JSON value, of which only its truthiness matters. */
  datatype EmailField = Absent | Text(s: string) | Other(truthy: bool)

  /** `await req.json()`: a parse failure, or an object with its `email`
      field (a body that is not an object reads as `Absent`). */
  datatype Body = Unparseable | Json(email: EmailField)

  /** The HTTP method and the body of the incoming request. */
  datatype Request = Request(verb: string, body: Body)

  /** `KIT_FORM_ID` and `KIT_API_KEY` from the environment. */
  datatype Env = Env(formId: Option<string>, apiKey: Option<string>)

  /** How the call to Kit settled: `fetch` threw, or it answered with its `ok`
      flag and the text of its body (None when reading the text threw). */
  datatype Upstream = FetchThrew | Answered(ok: bool, text: Option<string>)

  /** The POST the handler sends to Kit. */
  datatype KitCall = KitCall(url: string, apiKey: string, email: string)

  /** `{ error, details? }` or `{ ok: true }`. */
  datatype Payload = Failure(error: string, details: Option<string>) | Subscribed

  datatype Response = Response(status: int, contentType: string, payload: Payload)

  /** The call made to Kit, if any, and the response returned to the browser. */
  datatype Exchange = Exchange(call: Option<KitCall>, response: Response)

  const JsonType := "application/json"

  function Fail(status: int, error: string): Response {
    Response(status, JsonType, Failure(error, None))
  }

  const KitFormsPrefix := "https://api.kit.com/v3/forms/"
  const KitSubscribeSuffix := "/subscribe"

  /** The Kit endpoint for a form id: the id sits, unaltered, between the
      forms prefix and `/subscribe`, so it can be read back from the URL. */
  function KitUrl(formId: string): (url: string)
    ensures |url| == |KitFormsPrefix| + |formId| + |KitSubscribeSuffix|
    ensures url[..|KitFormsPrefix|] == KitFormsPrefix
    ensures url[|KitFormsPrefix|..|KitFormsPrefix| + |formId|] == formId
    ensures url[|KitFormsPrefix| + |formId|..] == KitSubscribeSuffix
  {
    KitFormsPrefix + formId + KitSubscribeSuffix
  }

  /** `(body?.email || "").trim()`, or None when this throws: the body did not
      parse, or `email` is a truthy non-string, which has no `trim`. A value
      it yields is always trimmed. */
  function EmailValue(body: Body): (r: Option<string>)
    ensures r.None? <==> body == Unparseable || body == Json(Other(true))
    ensures body.Json? && body.email.Text? ==> r == Some(Trim(body.email.s))
    ensures body == Json(Absent) || body == Json(Other(false)) ==> r == Some("")
    ensures r.Some? ==> Trim(r.value) == r.value
  {
    match body
    case Unparseable => None
    case Json(Absent) => Some(Trim(""))
    case Json(Other(truthy)) => if truthy then None else Some(Trim(""))
    case Json(Text(s)) =>
      TrimIdempotent(s);
      Some(Trim(s))
  }

  /** True when the request passes the method and email guards. */
  predicate AcceptedRequest(req: Request) {
    req.verb == "POST" && EmailValue(req.body).Some? && LooksLikeEmail(EmailValue(req.body).value)
  }

  /** The default-export handler. */
  function Handle(req: Request, env: Env, upstream: Upstream): (x: Exchange)
    ensures x.response.contentType == JsonType
    ensures req.verb != "POST" ==> x == Exchange(None, Fail(405, "Method not allowed"))
    ensures x.response.status == 405 <==> req.verb != "POST"
    ensures req.verb == "POST" && EmailValue(req.body).None? ==> x == Exchange(None, Fail(500, "Server error"))
    ensures x.call.Some? <==> AcceptedRequest(req) && Truthy(env.formId) && Truthy(env.apiKey)
    ensures x.call.Some? ==>
              x.call.value == KitCall(KitUrl(env.formId.value), env.apiKey.value, EmailValue(req.body).value)
    ensures x.response.status == 200 <==> x.call.Some? && upstream.Answered? && upstream.ok
    ensures x.response.status == 200 ==> x.response.payload == Subscribed
    ensures x.response.status == 400 <==>
              req.verb == "POST" && EmailValue(req.body).Some? && !LooksLikeEmail(EmailValue(req.body).value)
    ensures x.response.status == 400 ==> x == Exchange(None, Fail(400, "Invalid email"))
    ensures x.call.Some? && upstream == FetchThrew ==> x.response == Fail(500, "Server error")
    ensures x.call.Some? && upstream == Answered(false, None) ==> x.response == Fail(500, "Server error")
    ensures x.call.Some? && upstream.Answered? && !upstream.ok && upstream.text.Some? ==>
              x.response == Response(500, JsonType, Failure("Kit request failed", upstream.text))
    ensures x.response.status in {200, 400, 405, 500}
  {
    if req.verb != "POST" then
      Exchange(None, Fail(405, "Method not allowed"))
    else
      match EmailValue(req.body)
      case None => Exchange(None, Fail(500, "Server error"))
      case Some(email) =>
        if !LooksLikeEmail(email) then
          Exchange(None, Fail(400, "Invalid email"))
        else if !Truthy(env.formId) || !Truthy(env.apiKey) then
          Exchange(None, Fail(500, "Missing server config"))
        else
          var call := KitCall(KitUrl(env.formId.value), env.apiKey.value, email);
          var response :=
            match upstream
            case FetchThrew => Fail(500, "Server error")
            case Answered(ok, text) =>
              if ok then Response(200, JsonType, Subscribed)
              else if text.Some? then Response(500, JsonType, Failure("Kit request failed", text))
              else Fail(500, "Server error");
          Exchange(Some(call), response)
  }

  /** The configuration is looked at only once the method and the email have
      passed: "Missing server config" is answered exactly when both passed and
      a setting is missing or empty. */
  lemma ConfigCheckedLast(req: Request, env: Env, upstream: Upstream)
    ensures Handle(req, env, upstream).response == Fail(500, "Missing server config") <==>
              AcceptedRequest(req) && !(Truthy(env.formId) && Truthy(env.apiKey))
  {
  }

  /** A failed answer from Kit is reported as "Kit request failed" with Kit's
      own text as details. */
  lemma UpstreamFailureCarriesDetails(req: Request, env: Env, text: string)
    requires AcceptedRequest(req) && Truthy(env.formId) && Truthy(env.apiKey)
    ensures Handle(req, env, Answered(false, Some(text))).response ==
              Response(500, JsonType, Failure("Kit request failed", Some(text)))
  {
  }

  /** An address either subscription form would send (non-empty, with '@')
      always clears the email guard, and Kit receives it trimmed. */
  lemma FormAddressPassesEmailGuard(email: string, env: Env, upstream: Upstream)
    requires LooksLikeEmail(email)
    ensures var x := Handle(Request("POST", Json(Text(email))), env, upstream);
            x.response.status != 400 &&
            (Truthy(env.formId) && Truthy(env.apiKey) ==> x.call.Some? && x.call.value.email == Trim(email))
  {
    CheckAgreesAfterTrim(email);
  }
}

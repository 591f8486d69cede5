/** The worker's `fetch` handler (worker.js:7-27) and `parsePayload`
    (worker.js:30-37): decoding Slack's request and dispatching on its
    `type`. The request body is an input, and so is the `payload` field of
    the body read as a form, since form decoding is not modelled. */
module Router {
  import opened Wrappers
  import opened Json
  import opened JsonParse
  import opened Http
  import opened Submission

  // ---------------------------------------------------------------------
  // parsePayload

  predicate StartsWithBrace(body: string) {
    |body| > 0 && body[0] == '{'
  }

  /** `parsePayload(body)`: a body that starts with '{' is JSON; otherwise
      the form field `payload` is, and a missing or empty field gives an
      empty object. A malformed JSON text throws. */
  function ParsePayload(body: string, formPayload: Option<string>): (r: Result<JsValue>)
    ensures r.Success? ==> IsJson(r.value)
  {
    if StartsWithBrace(body) then Parse(body)
    else match formPayload
      case Some(text) => if text != [] then Parse(text) else Success(Obj([]))
      case None => Success(Obj([]))
  }

  /** A JSON object sent as the body is read back as sent. */
  lemma JsonBodyRoundTrip(ms: seq<Field>, formPayload: Option<string>)
    ensures ParsePayload(Serialize(Obj(ms)), formPayload) == Success(Strip(Obj(ms)))
  {
    ParseSerialize(Obj(ms));
  }

  /** A value sent in the `payload` field of a form body is read back as
      sent. */
  lemma FormPayloadRoundTrip(body: string, v: JsValue)
    requires !StartsWithBrace(body)
    ensures ParsePayload(body, Some(Serialize(v))) == Success(Strip(v))
  {
    ParseSerialize(v);
  }

  /** A form body without a `payload` field, or with an empty one, reads as
      an empty object. */
  lemma MissingPayloadEmpty(body: string, formPayload: Option<string>)
    requires !StartsWithBrace(body) && (formPayload.None? || formPayload.value == [])
    ensures ParsePayload(body, formPayload) == Success(Obj([]))
  {
  }

  // ---------------------------------------------------------------------
  // fetch

  const ActiveText := "Slack-Zoho Ticket Creator Active"

  /** What the handler did: the response, the payload handed to the
      background flow (`ctx.waitUntil`), if any, and the confirmation the
      submission handler posted, if any. */
  datatype Routed = Routed(response: Response, scheduled: Option<JsValue>, posted: Option<SlackPost>)

  /** `new Response(text, { status: 200 })`: a string body without a header
      of the worker's own is typed as plain text. */
  function TextResponse(text: string): (r: Response)
    ensures r.status == 200 && r.body == text && r.contentType == Some(TextPlainContentType)
  {
    Response(200, text, Some(TextPlainContentType))
  }

  /** `new Response(payload.challenge)`: a missing or null challenge gives
      an empty body, anything else its text. */
  function ChallengeBody(challenge: JsValue): (r: string)
    ensures challenge.Str? ==> r == challenge.s
    ensures challenge.Undefined? || challenge.Null? ==> r == []
  {
    if challenge.Undefined? || challenge.Null? then [] else ToJsString(challenge)
  }

  /** `new Response(payload.challenge, { status: 200 })`: a missing or null
      challenge is a null body, which has no Content-Type; any other value is
      converted to its text and typed as plain text. */
  function ChallengeResponse(challenge: JsValue): (r: Response)
    ensures r.status == 200 && r.body == ChallengeBody(challenge)
    ensures r.contentType.None? <==> challenge.Undefined? || challenge.Null?
    ensures r.contentType.Some? ==> r.contentType == Some(TextPlainContentType)
    ensures challenge.Str? ==> r == TextResponse(challenge.s)
  {
    if challenge.Undefined? || challenge.Null? then Response(200, [], None)
    else TextResponse(ChallengeBody(challenge))
  }

  /** The handler's choice on a decoded payload. The view submission's
      inputs are those of `handleModalSubmission`. */
  function Dispatch(payload: JsValue, portalId: string, token: Result<string>, reply: Result<ZohoReply>,
                    postError: Option<string>): (r: Result<Routed>)
    ensures r.Success? ==> r.value.response.status == 200
  {
    match Member(payload, "type")
    case Failure(e) => Failure(e)
    case Success(kind) =>
      if kind == Str("url_verification") then
        Success(Routed(ChallengeResponse(Get(payload, "challenge")), None, None))
      else if kind == Str("shortcut") || kind == Str("message_action") then
        Success(Routed(TextResponse(""), Some(payload), None))
      else if kind == Str("view_submission") then
        match HandleModalSubmission(payload, portalId, token, reply, postError)
        case Failure(e) => Failure(e)
        case Success(o) => Success(Routed(AnswerResponse(o.answer), None, o.post))
      else Success(Routed(TextResponse(ActiveText), None, None))
  }

  /** `fetch(request, env, ctx)`: Failure when the handler throws (a body
      that is not JSON, a null payload, a malformed submission). */
  function Fetch(httpMethod: string, body: string, formPayload: Option<string>, portalId: string,
                 token: Result<string>, reply: Result<ZohoReply>, postError: Option<string>): (r: Result<Routed>)
    ensures r.Success? ==> r.value.response.status == 200
    ensures r.Success? && r.value.scheduled.Some? ==> httpMethod == "POST"
  {
    if httpMethod != "POST" then Success(Routed(TextResponse(ActiveText), None, None))
    else
      match ParsePayload(body, formPayload)
      case Failure(e) => Failure(e)
      case Success(payload) => Dispatch(payload, portalId, token, reply, postError)
  }

  // ---------------------------------------------------------------------
  // Properties

  /** Anything but a POST gets the liveness text and starts nothing. */
  lemma NotPostActive(httpMethod: string, body: string, formPayload: Option<string>, portalId: string,
                      token: Result<string>, reply: Result<ZohoReply>, postError: Option<string>)
    requires httpMethod != "POST"
    ensures Fetch(httpMethod, body, formPayload, portalId, token, reply, postError)
         == Success(Routed(TextResponse(ActiveText), None, None))
  {
  }

  /** Slack's URL check is answered with its challenge. */
  lemma ChallengeEchoed(payload: JsValue, challenge: string, portalId: string,
                        token: Result<string>, reply: Result<ZohoReply>, postError: Option<string>)
    requires Get(payload, "type") == Str("url_verification") && Get(payload, "challenge") == Str(challenge)
    ensures Dispatch(payload, portalId, token, reply, postError)
         == Success(Routed(TextResponse(challenge), None, None))
  {
  }

  /** A URL check without a challenge, or with a null one, is answered with
      a null body: status 200, nothing to read and no Content-Type. */
  lemma MissingChallengeNullBody(payload: JsValue, portalId: string,
                                 token: Result<string>, reply: Result<ZohoReply>, postError: Option<string>)
    requires Get(payload, "type") == Str("url_verification")
    requires Get(payload, "challenge").Undefined? || Get(payload, "challenge").Null?
    ensures Dispatch(payload, portalId, token, reply, postError)
         == Success(Routed(Response(200, [], None), None, None))
  {
  }

  /** A shortcut or message action is acknowledged with an empty body, and
      exactly these hand the payload to the background flow. */
  lemma ShortcutScheduled(payload: JsValue, portalId: string,
                          token: Result<string>, reply: Result<ZohoReply>, postError: Option<string>)
    requires !(payload.Undefined? || payload.Null?)
    ensures var r := Dispatch(payload, portalId, token, reply, postError);
      var kind := Get(payload, "type");
      (kind == Str("shortcut") || kind == Str("message_action") ==>
         r == Success(Routed(TextResponse(""), Some(payload), None)))
      && (r.Success? && r.value.scheduled.Some? ==> kind == Str("shortcut") || kind == Str("message_action"))
  {
  }

  /** A form submission is answered by the submission handler, with its
      failure thrown on. */
  lemma SubmissionAnswered(payload: JsValue, portalId: string,
                           token: Result<string>, reply: Result<ZohoReply>, postError: Option<string>)
    requires Get(payload, "type") == Str("view_submission")
    ensures var h := HandleModalSubmission(payload, portalId, token, reply, postError);
      var r := Dispatch(payload, portalId, token, reply, postError);
      (h.Failure? ==> r == Failure(h.error))
      && (h.Success? ==> r == Success(Routed(AnswerResponse(h.value.answer), None, h.value.post)))
  {
    assert Member(payload, "type") == Success(Str("view_submission"));
    assert |"view_submission"| != |"url_verification"|;
    assert |"view_submission"| != |"shortcut"| && |"view_submission"| != |"message_action"|;
  }

  /** Every other type of event gets the liveness text and starts nothing. */
  lemma OtherTypesActive(payload: JsValue, portalId: string,
                         token: Result<string>, reply: Result<ZohoReply>, postError: Option<string>)
    requires !(payload.Undefined? || payload.Null?)
    requires Get(payload, "type") !in {Str("url_verification"), Str("shortcut"), Str("message_action"), Str("view_submission")}
    ensures Dispatch(payload, portalId, token, reply, postError)
         == Success(Routed(TextResponse(ActiveText), None, None))
  {
  }

  /** A POST whose body cannot be decoded, or decodes to null, throws. */
  lemma UndecodableThrows(body: string, formPayload: Option<string>, portalId: string,
                          token: Result<string>, reply: Result<ZohoReply>, postError: Option<string>)
    requires ParsePayload(body, formPayload).Failure? || ParsePayload(body, formPayload) == Success(Null)
    ensures Fetch("POST", body, formPayload, portalId, token, reply, postError).Failure?
  {
  }
}

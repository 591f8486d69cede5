/** `handleModalSubmission` (worker.js:226-257) and `createZohoTask`
    (worker.js:259-291): reading the submitted form, creating the task and
    choosing the answer to Slack. The Zoho token refresh, the task creation
    request and the Slack message are upstream calls whose outcomes are
    inputs. */
module Submission {
  import opened Wrappers
  import opened Text
  import opened Json
  import opened JsonParse
  import opened Form
  import opened Http

  // ---------------------------------------------------------------------
  // createZohoTask

  /** Zoho's answer to the task creation request: `res.ok` and `res.json()`. */
  datatype ZohoReply = ZohoReply(ok: bool, data: JsValue)

  /** The ticket `createZohoTask` returns. */
  datatype Ticket = Ticket(taskId: JsValue, taskUrl: JsValue)

  const DefaultTaskError := "Failed to create task"

  /** The message of the error thrown for a failed creation:
      `data.error?.message || 'Failed to create task'` as text, or the
      TypeError of reading `error` from a null body. */
  function TaskErrorMessage(data: JsValue): (m: string)
    ensures data.Obj? && !Truthy(Get(Get(data, "error"), "message")) ==> m == DefaultTaskError
  {
    match Member(data, "error")
    case Failure(e) => e
    case Success(error) => ToJsString(Or(Get(error, "message"), Str(DefaultTaskError)))
  }

  const PortalUrl := "https://projects.zoho.com/portal/"

  /** The link built when Zoho's reply carries none: the portal's URL, and
      the task's id at the end. */
  function FallbackTaskUrl(portalId: string, projectId: JsValue, taskId: JsValue): (r: string)
    ensures |r| > |PortalUrl| + |portalId| + |ToJsString(taskId)|
    ensures r[..|PortalUrl| + |portalId|] == PortalUrl + portalId
    ensures r[|r| - |ToJsString(taskId)|..] == ToJsString(taskId)
  {
    var head, mid, id := PortalUrl + portalId, "#taskdetail/" + ToJsString(projectId) + "/", ToJsString(taskId);
    ConcatParts(head, mid, id);
    head + mid + id
  }

  /** The created task: the first of `tasks` when that is truthy, and the
      body itself when there is no such list or it is empty. */
  function TaskOf(data: JsValue): (r: JsValue)
    ensures var tasks := Get(data, "tasks");
      (tasks.Arr? && tasks.items != [] && Truthy(tasks.items[0]) ==> r == tasks.items[0])
      && (tasks.Undefined? || tasks.Null? || (tasks.Arr? && tasks.items == []) ==> r == data)
  {
    Or(First(Get(data, "tasks")), data)
  }

  /** `createZohoTask` given the token refresh (Failure when it throws) and
      the reply to the creation request (Failure when the request or the
      reading of its body throws). */
  function CreateZohoTask(projectId: JsValue, portalId: string, token: Result<string>,
                          reply: Result<ZohoReply>): (r: Result<Ticket>)
    ensures r.Success? <==>
      token.Success? && reply.Success? && reply.value.ok && Member(reply.value.data, "error").Success?
      && !Truthy(Get(reply.value.data, "error"))
    ensures token.Success? && reply.Success? && !reply.value.ok ==>
      r == Failure(TaskErrorMessage(reply.value.data))
  {
    if token.Failure? then Failure(token.error)
    else if reply.Failure? then Failure(reply.error)
    else
      var data := reply.value.data;
      if !reply.value.ok then Failure(TaskErrorMessage(data))
      else
        match Member(data, "error")
        case Failure(e) => Failure(e)
        case Success(error) =>
          if Truthy(error) then Failure(TaskErrorMessage(data))
          else
            var task := TaskOf(data);
            var taskId := Or(Get(task, "id_string"), Get(task, "id"));
            var url := Get(Get(Get(task, "link"), "web"), "url");
            Success(Ticket(taskId, Or(url, Str(FallbackTaskUrl(portalId, projectId, taskId)))))
  }

  /** The task's link is Zoho's `link.web.url` when there is one, and
      otherwise the portal URL built from the project and the task id. */
  lemma TaskUrlChoice(projectId: JsValue, portalId: string, accessToken: string, data: JsValue)
    requires data.Obj? && !Truthy(Get(data, "error"))
    ensures var r := CreateZohoTask(projectId, portalId, Success(accessToken), Success(ZohoReply(true, data)));
      var task := TaskOf(data);
      var taskId := Or(Get(task, "id_string"), Get(task, "id"));
      var url := Get(Get(Get(task, "link"), "web"), "url");
      r.Success? && r.value.taskId == taskId
      && (Truthy(url) ==> r.value.taskUrl == url)
      && (!Truthy(url) ==> r.value.taskUrl == Str(FallbackTaskUrl(portalId, projectId, taskId)))
  {
  }

  /** A reply that reports an error, or is not ok, fails the creation with
      Zoho's message, or 'Failed to create task' when it gives none. */
  lemma TaskErrorReported(projectId: JsValue, portalId: string, accessToken: string, ok: bool, data: JsValue)
    requires data.Obj? && (!ok || Truthy(Get(data, "error")))
    ensures var message := Get(Get(data, "error"), "message");
      CreateZohoTask(projectId, portalId, Success(accessToken), Success(ZohoReply(ok, data)))
      == Failure(if Truthy(message) then ToJsString(message) else DefaultTaskError)
  {
  }

  // ---------------------------------------------------------------------
  // handleModalSubmission

  /** The four submitted values. */
  datatype Fields = Fields(projectId: JsValue, title: JsValue, description: JsValue, priority: JsValue)

  /** `values.project_block.project_input.selected_option.value` and the
      three other reads, in the order worker.js makes them: the first read
      that throws is the error. */
  function ReadFields(values: JsValue): (r: Result<Fields>)
    ensures r.Success? <==>
      Path(values, ["project_block", "project_input", "selected_option", "value"]).Success?
      && Path(values, ["title_block", "title_input", "value"]).Success?
      && Path(values, ["description_block", "description_input", "value"]).Success?
      && Path(values, ["priority_block", "priority_input", "selected_option", "value"]).Success?
    ensures Path(values, ["project_block", "project_input", "selected_option", "value"]).Failure? ==>
      r == Failure(Path(values, ["project_block", "project_input", "selected_option", "value"]).error)
    ensures r.Success? ==>
      r.value.title == Path(values, ["title_block", "title_input", "value"]).value
      && r.value.description == Path(values, ["description_block", "description_input", "value"]).value
  {
    match Path(values, ["project_block", "project_input", "selected_option", "value"])
    case Failure(e) => Failure(e)
    case Success(projectId) =>
      match Path(values, ["title_block", "title_input", "value"])
      case Failure(e) => Failure(e)
      case Success(title) =>
        match Path(values, ["description_block", "description_input", "value"])
        case Failure(e) => Failure(e)
        case Success(description) =>
          match Path(values, ["priority_block", "priority_input", "selected_option", "value"])
          case Failure(e) => Failure(e)
          case Success(priority) => Success(Fields(projectId, title, description, priority))
  }

  /** A text input that is present but holds no `value` (the optional
      description left empty) reads as undefined: only a missing block or
      input throws. */
  lemma TextValueOptional(values: JsValue, block: string, input: string)
    requires Path(values, [block, input]).Success?
    requires !(Path(values, [block, input]).value.Undefined? || Path(values, [block, input]).value.Null?)
    ensures Path(values, [block, input, "value"]) == Success(Get(Path(values, [block, input]).value, "value"))
  {
    PathSnoc(values, [block, input], "value");
    assert [block, input] + ["value"] == [block, input, "value"];
  }

  /** The submission as read before the `try`: the metadata and the fields.
      A failure here is thrown out of the handler. */
  datatype Submitted = Submitted(metadata: JsValue, fields: Fields)

  function ReadSubmission(payload: JsValue): (r: Result<Submitted>)
    ensures r.Success? <==>
      Path(payload, ["view", "state", "values"]).Success?
      && DecodeMetadata(Get(Get(payload, "view"), "private_metadata")).Success?
      && ReadFields(Path(payload, ["view", "state", "values"]).value).Success?
    ensures r.Success? ==>
      IsJson(r.value.metadata)
      && r.value.fields == ReadFields(Path(payload, ["view", "state", "values"]).value).value
  {
    match Path(payload, ["view", "state", "values"])
    case Failure(e) => Failure(e)
    case Success(values) =>
      match DecodeMetadata(Get(Get(payload, "view"), "private_metadata"))
      case Failure(e) => Failure(e)
      case Success(metadata) =>
        match ReadFields(values)
        case Failure(e) => Failure(e)
        case Success(fields) => Success(Submitted(metadata, fields))
  }

  /** The two answers the handler gives Slack: `{ response_action: 'clear' }`
      closes the form; `{ response_action: 'errors', errors: { title_block } }`
      keeps it open with the message under the title field. */
  datatype Answer = Clear | Errors(titleBlock: string)

  /** The JSON body of an answer: an object with no undefined inside, so
      that it survives `JSON.stringify` whole. */
  function AnswerBody(a: Answer): (r: JsValue)
    ensures r.Obj? && IsJson(r)
  {
    match a
    case Clear => Obj([Field("response_action", Str("clear"))])
    case Errors(m) =>
      var errors := Obj([Field("title_block", Str(m))]);
      assert IsJson(errors);
      Obj([Field("response_action", Str("errors")), Field("errors", errors)])
  }

  /** The response carrying an answer: status 200 and a JSON body. */
  function AnswerResponse(a: Answer): (r: Response)
    ensures r.status == 200 && r.contentType == Some(JsonContentType)
  {
    Response(200, Serialize(AnswerBody(a)), Some(JsonContentType))
  }

  const ConfirmationHead := "\U{2705} Ticket created!\n*"
  const ConfirmationTail := "|View in Zoho Projects>"

  /** The confirmation posted to the thread's channel: the title in bold
      after the head line, and a link to the task labelled for Zoho
      Projects at the end. */
  function ConfirmationText(title: JsValue, taskUrl: JsValue): (r: string)
    ensures |r| >= |ConfirmationHead| + |ToJsString(title)| + |ConfirmationTail|
    ensures r[..|ConfirmationHead|] == ConfirmationHead
    ensures r[|ConfirmationHead|..|ConfirmationHead| + |ToJsString(title)|] == ToJsString(title)
    ensures r[|r| - |ConfirmationTail|..] == ConfirmationTail
  {
    var t, link := ToJsString(title), "*\n<" + ToJsString(taskUrl);
    ConcatParts(ConfirmationHead, t, link + ConfirmationTail);
    ConcatParts(ConfirmationHead + t, link, ConfirmationTail);
    assert ConfirmationHead + t + (link + ConfirmationTail) == ConfirmationHead + t + link + ConfirmationTail;
    ConfirmationHead + t + link + ConfirmationTail
  }

  /** What the handler did: its answer, and the message it posted, if any. */
  datatype Outcome = Outcome(answer: Answer, post: Option<SlackPost>)

  /** The `try` block: create the task, post the confirmation, answer
      `clear`; an error thrown on the way is answered with `errors` and
      "Failed: " before its message. postError is the error thrown by
      posting (a network failure), if any. */
  function TryCreate(s: Submitted, portalId: string, token: Result<string>, reply: Result<ZohoReply>,
                     postError: Option<string>): (o: Outcome)
    ensures o.answer.Errors? ==> |o.answer.titleBlock| >= |FailedPrefix| && o.answer.titleBlock[..|FailedPrefix|] == FailedPrefix
  {
    match CreateZohoTask(s.fields.projectId, portalId, token, reply)
    case Failure(e) => Outcome(Failed(e), None)
    case Success(ticket) =>
      match Member(s.metadata, "channelId")
      case Failure(e) => Outcome(Failed(e), None)
      case Success(channel) =>
        var post := SlackPost(channel, ConfirmationText(s.fields.title, ticket.taskUrl));
        match postError
        case Some(e) => Outcome(Failed(e), Some(post))
        case None => Outcome(Clear, Some(post))
  }

  const FailedPrefix := "Failed: "

  /** The `errors` answer for an error with message e. */
  function Failed(e: string): (a: Answer)
    ensures a.Errors? && |a.titleBlock| == |FailedPrefix| + |e|
    ensures a.titleBlock[..|FailedPrefix|] == FailedPrefix && a.titleBlock[|FailedPrefix|..] == e
  {
    Errors(FailedPrefix + e)
  }

  /** `handleModalSubmission`: Failure when reading the submission throws
      (outside the `try`), otherwise the outcome of the `try`. */
  function HandleModalSubmission(payload: JsValue, portalId: string, token: Result<string>,
                                 reply: Result<ZohoReply>, postError: Option<string>): (r: Result<Outcome>)
    ensures r.Failure? <==> ReadSubmission(payload).Failure?
    ensures r.Success? ==> r.value == TryCreate(ReadSubmission(payload).value, portalId, token, reply, postError)
  {
    match ReadSubmission(payload)
    case Failure(e) => Failure(e)
    case Success(s) => Success(TryCreate(s, portalId, token, reply, postError))
  }

  // ---------------------------------------------------------------------
  // Properties

  /** The form closes exactly when the task was created and the confirmation
      was posted; otherwise Slack is told why. */
  lemma ClearIff(s: Submitted, portalId: string, token: Result<string>, reply: Result<ZohoReply>,
                 postError: Option<string>)
    ensures TryCreate(s, portalId, token, reply, postError).answer == Clear <==>
      CreateZohoTask(s.fields.projectId, portalId, token, reply).Success?
      && !(s.metadata.Undefined? || s.metadata.Null?) && postError.None?
  {
  }

  /** A failed creation answers `errors` with "Failed: " and the error's
      message, and posts nothing. */
  lemma FailedCreation(s: Submitted, portalId: string, token: Result<string>, reply: Result<ZohoReply>,
                       postError: Option<string>)
    requires CreateZohoTask(s.fields.projectId, portalId, token, reply).Failure?
    ensures var e := CreateZohoTask(s.fields.projectId, portalId, token, reply).error;
      TryCreate(s, portalId, token, reply, postError) == Outcome(Errors("Failed: " + e), None)
  {
  }

  /** Slack reads back from the response body the answer that was chosen:
      `response_action` says which, and `errors.title_block` carries the
      message. */
  lemma AnswerReads(a: Answer)
    ensures var body := Parse(AnswerResponse(a).body);
      body.Success?
      && Get(body.value, "response_action") == Str(if a.Clear? then "clear" else "errors")
      && (a.Errors? ==> Get(Get(body.value, "errors"), "title_block") == Str(a.titleBlock))
  {
    ResponseCarriesBody(a);
    BodyFields(a);
  }

  /** The response body is the text of the answer's JSON body. */
  lemma ResponseCarriesBody(a: Answer)
    ensures Parse(AnswerResponse(a).body) == Success(AnswerBody(a))
  {
    ReadBack(AnswerBody(a));
  }

  lemma BodyFields(a: Answer)
    ensures Get(AnswerBody(a), "response_action") == Str(if a.Clear? then "clear" else "errors")
    ensures a.Errors? ==> Get(Get(AnswerBody(a), "errors"), "title_block") == Str(a.titleBlock)
  {
    if a.Errors? {
      ErrorsFields(a.titleBlock);
    }
  }

  /** JSON values survive the trip through their text unchanged. */
  lemma ReadBack(v: JsValue)
    requires IsJson(v)
    ensures Parse(Serialize(v)) == Success(v)
  {
    ParseSerialize(v);
    StripJson(v);
  }

  lemma ErrorsFields(m: string)
    ensures var b := AnswerBody(Errors(m));
      Get(b, "response_action") == Str("errors") && Get(Get(b, "errors"), "title_block") == Str(m)
  {
    var inner := [Field("title_block", Str(m))];
    var ms := [Field("response_action", Str("errors")), Field("errors", Obj(inner))];
    assert AnswerBody(Errors(m)) == Obj(ms);
    assert "response_action" != "errors" by { assert |"response_action"| != |"errors"|; }
    assert ms[..1] == [Field("response_action", Str("errors"))];
    assert Lookup(ms, "response_action") == Lookup(ms[..1], "response_action");
    assert Lookup(ms, "errors") == Obj(inner);
    assert Lookup(inner, "title_block") == Str(m);
  }

  /** Different answers give different bodies. */
  lemma AnswersDiffer(a: Answer, b: Answer)
    requires a != b
    ensures AnswerResponse(a).body != AnswerResponse(b).body
  {
    AnswerReads(a);
    AnswerReads(b);
    if a.Clear? || b.Clear? {
      assert "clear" != "errors";
    }
  }

  /** A created task whose confirmation is posted goes to the channel the
      form's metadata names, with the title and the task's link. */
  lemma ConfirmationPosted(s: Submitted, portalId: string, token: Result<string>, reply: Result<ZohoReply>)
    requires CreateZohoTask(s.fields.projectId, portalId, token, reply).Success?
    requires !(s.metadata.Undefined? || s.metadata.Null?)
    ensures var ticket := CreateZohoTask(s.fields.projectId, portalId, token, reply).value;
      TryCreate(s, portalId, token, reply, None)
      == Outcome(Clear,
                 Some(SlackPost(Get(s.metadata, "channelId"), ConfirmationText(s.fields.title, ticket.taskUrl))))
  {
  }

  /** The form's metadata round trip: a submission of a form whose metadata
      `openModal` wrote posts its confirmation to the channel the form was
      opened from. */
  lemma ConfirmationChannel(payload: JsValue, channelId: JsValue, messageTs: JsValue, permalink: JsValue,
                            portalId: string, token: Result<string>, reply: Result<ZohoReply>)
    requires Get(Get(payload, "view"), "private_metadata") == Str(EncodeMetadata(channelId, messageTs, permalink))
    requires ReadSubmission(payload).Success?
    ensures var s := ReadSubmission(payload).value;
      Get(s.metadata, "channelId") == StripMember(channelId)
  {
    MetadataRoundTrip(channelId, messageTs, permalink);
  }
}

/** `processTicketCreation` (worker.js:39-64) and the permalink fallback of
    `getSlackPermalink` (worker.js:66-72): the background flow a shortcut
    starts. It gathers the permalink, the summary and the project list,
    opens the form, and on any error tells the channel, when it knows one.
    Slack's replies, the language model's reply and the Zoho replies are
    inputs; the project cache is the shared store the flow updates. */
module TicketFlow {
  import opened Wrappers
  import opened Text
  import opened Json
  import opened Summarizer
  import opened Form
  import opened ProjectCache
  import opened Http

  // ---------------------------------------------------------------------
  // getSlackPermalink

  const ArchivesUrl := "https://slack.com/archives/"

  /** The link built when Slack gives no permalink: the channel and the
      message timestamp with its first '.' removed. Calling `replace` on a
      timestamp that is not a string throws. */
  function ArchiveLink(channelId: JsValue, messageTs: JsValue): (r: Result<JsValue>)
    ensures r.Success? <==> messageTs.Str?
  {
    match messageTs
    case Str(ts) => Success(Str(ArchivesUrl + ToJsString(channelId) + "/p" + RemoveFirst(ts, '.')))
    case Undefined => Failure(ReadError(messageTs, "replace"))
    case Null => Failure(ReadError(messageTs, "replace"))
    case _ => Failure("messageTs.replace is not a function")
  }

  /** `getSlackPermalink` given Slack's reply to `chat.getPermalink`
      (Failure when the request or the reading of its body throws). */
  function Permalink(channelId: JsValue, messageTs: JsValue, reply: Result<JsValue>): (r: Result<JsValue>)
    ensures reply.Success? && Truthy(Get(reply.value, "permalink")) ==> r == Success(Get(reply.value, "permalink"))
    ensures reply.Failure? ==> r == Failure(reply.error)
  {
    match reply
    case Failure(e) => Failure(e)
    case Success(data) =>
      match Member(data, "permalink")
      case Failure(e) => Failure(e)
      case Success(link) => if Truthy(link) then Success(link) else ArchiveLink(channelId, messageTs)
  }

  /** Without a permalink from Slack, a timestamp "seconds.micros" gives the
      archive link ending in "p" and the timestamp's digits with the dot
      dropped. */
  lemma PermalinkFallback(channelId: JsValue, seconds: string, micros: string, data: JsValue)
    requires '.' !in seconds
    requires !(data.Undefined? || data.Null?) && !Truthy(Get(data, "permalink"))
    ensures Permalink(channelId, Str(seconds + "." + micros), Success(data))
         == Success(Str(ArchivesUrl + ToJsString(channelId) + "/p" + seconds + micros))
  {
    RemoveFirstSplit(seconds, '.', micros);
    var head := ArchivesUrl + ToJsString(channelId) + "/p";
    assert head + (seconds + micros) == head + seconds + micros;
  }

  /** Only the first dot goes: a timestamp without a dot is kept whole. */
  lemma PermalinkWithoutDot(channelId: JsValue, ts: string, data: JsValue)
    requires '.' !in ts
    requires !(data.Undefined? || data.Null?) && !Truthy(Get(data, "permalink"))
    ensures Permalink(channelId, Str(ts), Success(data)) == Success(Str(ArchivesUrl + ToJsString(channelId) + "/p" + ts))
  {
    RemoveFirstAt(ts, '.');
    assert ts[..|ts|] == ts;
    assert RemoveFirst(ts, '.') == ts;
  }

  // ---------------------------------------------------------------------
  // summarizeThread as the flow calls it

  /** `summarizeThread(messageText, env.AI)` given the model's reply
      (Failure when `ai.run` throws). The text must be a string to be
      cleaned, and the reply's `response || ''` a string to be matched. */
  function SummaryOf(messageText: JsValue, aiReply: Result<JsValue>): (r: Result<Summary>)
    ensures r.Success? ==> messageText.Str? && aiReply.Success?
    ensures r.Success? ==> |r.value.title| <= MaxTitleLength
  {
    match messageText
    case Str(text) =>
      (match aiReply
       case Failure(e) => Failure(e)
       case Success(response) =>
         match Member(response, "response")
         case Failure(e) => Failure(e)
         case Success(out) =>
           match Or(out, Str(""))
           case Str(output) => Success(Summarize(text, output))
           case _ => Failure("output.match is not a function"))
    case Undefined => Failure(ReadError(messageText, "replace"))
    case Null => Failure(ReadError(messageText, "replace"))
    case _ => Failure("messageText.replace is not a function")
  }

  // ---------------------------------------------------------------------
  // processTicketCreation

  /** `payload.message?.ts || payload.message_ts`: the message's own
      timestamp when it has a truthy one, the top-level one otherwise; a
      payload without `message` does not throw. */
  function MessageTs(payload: JsValue): (r: JsValue)
    ensures var nested := Get(Get(payload, "message"), "ts");
      (Truthy(nested) ==> r == nested) && (!Truthy(nested) ==> r == Get(payload, "message_ts"))
    ensures Get(payload, "message").Undefined? ==> r == Get(payload, "message_ts")
  {
    Or(Get(Get(payload, "message"), "ts"), Get(payload, "message_ts"))
  }

  /** `payload.channel?.id || payload.channel_id`: the channel object's id
      when truthy, the top-level id otherwise. */
  function ChannelId(payload: JsValue): (r: JsValue)
    ensures var nested := Get(Get(payload, "channel"), "id");
      (Truthy(nested) ==> r == nested) && (!Truthy(nested) ==> r == Get(payload, "channel_id"))
    ensures Get(payload, "channel").Undefined? ==> r == Get(payload, "channel_id")
  {
    Or(Get(Get(payload, "channel"), "id"), Get(payload, "channel_id"))
  }

  /** `payload.message?.text || ''`: the message's text when truthy, and
      the empty string for anything falsy. */
  function MessageText(payload: JsValue): (r: JsValue)
    ensures Truthy(Get(Get(payload, "message"), "text")) ==> r == Get(Get(payload, "message"), "text")
    ensures !Truthy(r) ==> r == Str("")
  {
    Or(Get(Get(payload, "message"), "text"), Str(""))
  }

  /** What the flow did: the form it opened, or the error that stopped it,
      and the error message it posted, if any. */
  datatype FlowOutcome = FlowOutcome(modal: Result<Modal>, post: Option<SlackPost>)

  const ErrorPrefix := "\U{274C} Error: "

  /** The body of the `try`: the three results are awaited together and the
      first failure among them, in the order they are listed, is the one
      reported; then the form is opened. */
  function Attempt(payload: JsValue, permalinkReply: Result<JsValue>, aiReply: Result<JsValue>,
                   projects: Result<JsValue>, viewsReply: Result<JsValue>): (r: Result<Modal>)
    ensures r.Success? ==> projects.Success? && SummaryOf(MessageText(payload), aiReply).Success?
  {
    var channelId := ChannelId(payload);
    var messageTs := MessageTs(payload);
    match Permalink(channelId, messageTs, permalinkReply)
    case Failure(e) => Failure(e)
    case Success(permalink) =>
      match SummaryOf(MessageText(payload), aiReply)
      case Failure(e) => Failure(e)
      case Success(summary) =>
        match projects
        case Failure(e) => Failure(e)
        case Success(list) =>
          OpenModal(Get(payload, "trigger_id"), summary, permalink, channelId, messageTs, list, viewsReply)
  }

  /** The `catch`: an error is posted to the channel only when the payload
      names one. */
  function ErrorPost(payload: JsValue, attempt: Result<Modal>): (p: Option<SlackPost>)
    ensures p.Some? <==> attempt.Failure? && Truthy(ChannelId(payload))
  {
    if attempt.Failure? && Truthy(ChannelId(payload)) then
      Some(SlackPost(ChannelId(payload), ErrorPrefix + attempt.error))
    else None
  }

  /** The whole flow given the upstream results. An error is posted exactly
      when the flow failed and the channel is known, to that channel, with
      the error's message after "❌ Error: "; a flow that opened the form
      posts nothing. */
  function Flow(payload: JsValue, permalinkReply: Result<JsValue>, aiReply: Result<JsValue>,
                projects: Result<JsValue>, viewsReply: Result<JsValue>): (r: FlowOutcome)
    ensures r.post.Some? <==> r.modal.Failure? && Truthy(ChannelId(payload))
    ensures r.post.Some? ==> r.post.value == SlackPost(ChannelId(payload), ErrorPrefix + r.modal.error)
    ensures r.modal.Success? ==> projects.Success? && SummaryOf(MessageText(payload), aiReply).Success?
  {
    var attempt := Attempt(payload, permalinkReply, aiReply, projects, viewsReply);
    FlowOutcome(attempt, ErrorPost(payload, attempt))
  }

  /** `processTicketCreation(payload, env)`. The project list is fetched
      through the cache whatever happens to the other two calls, since all
      three are started together. */
  method ProcessTicketCreation(cache: ProjectStore, payload: JsValue, permalinkReply: Result<JsValue>,
                               aiReply: Result<JsValue>, token: Result<string>, listing: Result<JsValue>,
                               viewsReply: Result<JsValue>) returns (o: FlowOutcome)
    modifies cache
    ensures o == Flow(payload, permalinkReply, aiReply, FetchOutcome(old(cache.entries), token, listing), viewsReply)
    ensures cache.entries == StoreAfter(old(cache.entries), token, listing)
    ensures cache.requests == old(cache.requests) + RequestsMade(old(cache.entries), token)
  {
    var messageTs := MessageTs(payload);
    var channelId := ChannelId(payload);
    var triggerId := Get(payload, "trigger_id");
    var messageText := MessageText(payload);
    var permalink := Permalink(channelId, messageTs, permalinkReply);
    var summary := SummaryOf(messageText, aiReply);
    var projects := cache.FetchProjects(token, listing);
    var attempt: Result<Modal>;
    if permalink.Failure? {
      attempt := Failure(permalink.error);
    } else if summary.Failure? {
      attempt := Failure(summary.error);
    } else if projects.Failure? {
      attempt := Failure(projects.error);
    } else {
      attempt := OpenModal(triggerId, summary.value, permalink.value, channelId, messageTs, projects.value, viewsReply);
    }
    var post := None;
    if attempt.Failure? && Truthy(channelId) {
      post := Some(SlackPost(channelId, ErrorPrefix + attempt.error));
    }
    o := FlowOutcome(attempt, post);
  }

  // ---------------------------------------------------------------------
  // Properties

  /** When the three calls succeed and Slack accepts the form, the form
      opened is the one built from the summary of the message, the permalink
      and the project list, with the message's channel and timestamp in its
      metadata. */
  lemma ModalOpened(payload: JsValue, permalinkReply: Result<JsValue>, aiReply: Result<JsValue>,
                    list: JsValue, viewsReply: Result<JsValue>)
    requires Permalink(ChannelId(payload), MessageTs(payload), permalinkReply).Success?
    requires SummaryOf(MessageText(payload), aiReply).Success?
    requires viewsReply.Success? && Truthy(Get(viewsReply.value, "ok"))
    requires ProjectOptions(list).Success?
    ensures var o := Flow(payload, permalinkReply, aiReply, Success(list), viewsReply);
      o.post == None
      && o.modal == BuildModal(Get(payload, "trigger_id"), SummaryOf(MessageText(payload), aiReply).value,
                               Permalink(ChannelId(payload), MessageTs(payload), permalinkReply).value,
                               ChannelId(payload), MessageTs(payload), list)
      && o.modal.Success?
  {
  }

  /** A failing permalink lookup is the error reported, whatever the other
      calls did. */
  lemma PermalinkFailureFirst(payload: JsValue, error: string, aiReply: Result<JsValue>,
                              projects: Result<JsValue>, viewsReply: Result<JsValue>)
    ensures Flow(payload, Failure(error), aiReply, projects, viewsReply).modal == Failure(error)
  {
  }

  /** A cache or Zoho failure is reported when the permalink and the summary
      were obtained. */
  lemma ProjectsFailureReported(payload: JsValue, permalinkReply: Result<JsValue>, aiReply: Result<JsValue>,
                                error: string, viewsReply: Result<JsValue>)
    requires Permalink(ChannelId(payload), MessageTs(payload), permalinkReply).Success?
    requires SummaryOf(MessageText(payload), aiReply).Success?
    ensures Flow(payload, permalinkReply, aiReply, Failure(error), viewsReply).modal == Failure(error)
  {
  }

  /** The summary is that of the message's text and the model's `response`
      text, an absent response counting as empty. */
  lemma SummaryFromReply(text: string, response: JsValue, output: string)
    requires !(response.Undefined? || response.Null?)
    requires Get(response, "response") == Str(output) || (output == [] && !Truthy(Get(response, "response")))
    ensures SummaryOf(Str(text), Success(response)) == Success(Summarize(text, output))
  {
    assert Or(Get(response, "response"), Str("")) == Str(output);
  }
}

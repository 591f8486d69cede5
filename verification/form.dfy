/** What `openModal` (worker.js:140-224) puts into the ticket form before it
    sends it to Slack's `views.open`: the project and priority options, the
    prefilled title and description, and the private metadata that
    `handleModalSubmission` reads back (worker.js:228). The Block Kit
    boilerplate around these values is not modelled. */
module Form {
  import opened Wrappers
  import opened Text
  import opened Json
  import opened JsonParse
  import opened Summarizer

  const MaxProjectOptions: nat := 100
  const MaxLabelLength: nat := 75

  /** One entry of a `static_select`: the text shown and the value submitted. */
  datatype SelectOption = SelectOption(text: string, value: JsValue)

  // ---------------------------------------------------------------------
  // Project options: `projects.slice(0, 100).map(p => …)`

  /** `p.name.substring(0, 75)`, with the TypeErrors JavaScript throws when p
      or its name is missing, or the name is not a string. */
  function Label(p: JsValue): (r: Result<string>)
    ensures r.Success? <==> !(p.Undefined? || p.Null?) && Get(p, "name").Str?
    ensures r.Success? ==> r.value == Truncate(Get(p, "name").s, MaxLabelLength)
  {
    match Member(p, "name")
    case Failure(e) => Failure(e)
    case Success(name) =>
      if name.Str? then Success(Truncate(name.s, MaxLabelLength))
      else if name.Undefined? || name.Null? then Failure(ReadError(name, "substring"))
      else Failure("p.name.substring is not a function")
  }

  /** The option for one project: its label and `p.id` as the value. */
  function ProjectOption(p: JsValue): (r: Result<SelectOption>)
    ensures r.Success? <==> !(p.Undefined? || p.Null?) && Get(p, "name").Str?
    ensures r.Success? ==> r.value.text == Truncate(Get(p, "name").s, MaxLabelLength)
    ensures r.Success? ==> r.value.value == Get(p, "id")
    ensures r.Failure? ==> r == Failure(Label(p).error)
  {
    match Label(p)
    case Failure(e) => Failure(e)
    case Success(text) => Success(SelectOption(text, Get(p, "id")))
  }

  /** `projects.slice(0, 100).map(…)`: at most the first 100 projects, in
      order. Only an array gets that far: a string has `slice` but its slice
      has no `map`, and any other value has no `slice`. */
  function ProjectOptions(projects: JsValue): (r: Result<seq<SelectOption>>)
    ensures r.Success? ==> projects.Arr?
    ensures projects.Arr? ==> r == MapAll(ProjectOption, projects.items[..Min(|projects.items|, MaxProjectOptions)])
  {
    match projects
    case Arr(items) => MapAll(ProjectOption, items[..Min(|items|, MaxProjectOptions)])
    case Str(_) => Failure("projects.slice(...).map is not a function")
    case Undefined => Failure(ReadError(projects, "slice"))
    case Null => Failure(ReadError(projects, "slice"))
    case _ => Failure("projects.slice is not a function")
  }

  /** The project options are the first (at most) 100 projects, in order,
      each labelled with its name cut to 75 characters and carrying its id. */
  lemma ProjectOptionsShape(items: seq<JsValue>)
    requires forall i :: 0 <= i < Min(|items|, MaxProjectOptions) ==>
      !(items[i].Undefined? || items[i].Null?) && Get(items[i], "name").Str?
    ensures var r := ProjectOptions(Arr(items));
      r.Success? && |r.value| == Min(|items|, MaxProjectOptions)
      && forall i :: 0 <= i < |r.value| ==>
           r.value[i].text == Truncate(Get(items[i], "name").s, MaxLabelLength)
           && r.value[i].value == Get(items[i], "id")
  {
    var ps := items[..Min(|items|, MaxProjectOptions)];
    assert forall i :: 0 <= i < |ps| ==> ps[i] == items[i];
  }

  /** Projects past the hundredth play no part, not even by throwing. */
  lemma ProjectOptionsIgnoreTail(items: seq<JsValue>, more: seq<JsValue>)
    requires |items| >= MaxProjectOptions
    ensures ProjectOptions(Arr(items + more)) == ProjectOptions(Arr(items))
  {
    assert (items + more)[..MaxProjectOptions] == items[..MaxProjectOptions];
  }

  // ---------------------------------------------------------------------
  // Priority options

  const PriorityLevels: seq<string> := ["None", "Low", "Medium", "High"]

  /** Each level is both the text shown and the value submitted. */
  function PriorityOptions(): (r: seq<SelectOption>)
    ensures |r| == |PriorityLevels|
    ensures forall i :: 0 <= i < |r| ==> r[i] == SelectOption(PriorityLevels[i], Str(PriorityLevels[i]))
  {
    seq(|PriorityLevels|, i requires 0 <= i < |PriorityLevels| => SelectOption(PriorityLevels[i], Str(PriorityLevels[i])))
  }

  /** The option selected when the form opens. */
  function InitialPriority(): (r: SelectOption)
    ensures r in PriorityOptions() && r.text == "None"
  {
    var r := SelectOption("None", Str("None"));
    assert r == PriorityOptions()[0];
    r
  }

  // ---------------------------------------------------------------------
  // Description and private metadata

  const ThreadSeparator := "\n\n---\nSlack Thread: "

  /** `${description}\n\n---\nSlack Thread: ${permalink}`: the summary's
      description, a separator line, then the permalink as text. */
  function FullDescription(description: string, permalink: JsValue): (r: string)
    ensures var n, m := |description|, |ThreadSeparator|;
      |r| == n + m + |ToJsString(permalink)| && r[..n] == description
      && r[n..n + m] == ThreadSeparator && r[n + m..] == ToJsString(permalink)
  {
    description + ThreadSeparator + ToJsString(permalink)
  }

  /** `{ channelId, messageTs, permalink }` */
  function MetadataObject(channelId: JsValue, messageTs: JsValue, permalink: JsValue): (r: JsValue)
    ensures r.Obj? && UniqueKeys(r.members)
  {
    Obj([Field("channelId", channelId), Field("messageTs", messageTs), Field("permalink", permalink)])
  }

  /** The `private_metadata` string of the form. */
  function EncodeMetadata(channelId: JsValue, messageTs: JsValue, permalink: JsValue): (r: string)
    ensures r != [] && r[0] == '{'
  {
    Serialize(MetadataObject(channelId, messageTs, permalink))
  }

  /** `JSON.parse(payload.view.private_metadata || '{}')` on the submission
      side: a missing or empty metadata string reads as an empty object. */
  function DecodeMetadata(privateMetadata: JsValue): (r: Result<JsValue>)
    ensures r.Success? ==> IsJson(r.value)
  {
    Parse(ToJsString(Or(privateMetadata, Str("{}"))))
  }

  /** What the form stores the submission reads back: each of the three
      fields as JSON leaves it (a missing one reads as undefined again). */
  lemma MetadataRoundTrip(channelId: JsValue, messageTs: JsValue, permalink: JsValue)
    ensures var r := DecodeMetadata(Str(EncodeMetadata(channelId, messageTs, permalink)));
      r.Success?
      && Get(r.value, "channelId") == StripMember(channelId)
      && Get(r.value, "messageTs") == StripMember(messageTs)
      && Get(r.value, "permalink") == StripMember(permalink)
  {
    var o := MetadataObject(channelId, messageTs, permalink);
    DecodeEncoded(channelId, messageTs, permalink);
    GetStrip(o.members, "channelId");
    GetStrip(o.members, "messageTs");
    GetStrip(o.members, "permalink");
    MetadataKeys();
    LookupThree("channelId", "messageTs", "permalink", channelId, messageTs, permalink);
  }

  /** The metadata string decodes to the object it was written from, as
      JSON leaves it. */
  lemma DecodeEncoded(channelId: JsValue, messageTs: JsValue, permalink: JsValue)
    ensures DecodeMetadata(Str(EncodeMetadata(channelId, messageTs, permalink)))
         == Success(Strip(MetadataObject(channelId, messageTs, permalink)))
  {
    ParseSerialize(MetadataObject(channelId, messageTs, permalink));
  }

  lemma MetadataKeys()
    ensures "channelId" != "messageTs" && "messageTs" != "permalink" && "channelId" != "permalink"
  {
    assert "channelId"[0] == 'c' && "messageTs"[0] == 'm' && "permalink"[0] == 'p';
  }

  /** Reading each key of a three-member object with distinct keys gives its value. */
  lemma LookupThree(a: string, b: string, c: string, x: JsValue, y: JsValue, z: JsValue)
    requires a != b && b != c && a != c
    ensures var ms := [Field(a, x), Field(b, y), Field(c, z)];
      Lookup(ms, a) == x && Lookup(ms, b) == y && Lookup(ms, c) == z
  {
    var ms := [Field(a, x), Field(b, y), Field(c, z)];
    var two := [Field(a, x), Field(b, y)];
    var one := [Field(a, x)];
    assert ms[..2] == two && two[..1] == one;
    assert Lookup(one, a) == x;
    assert Lookup(two, a) == Lookup(one, a);
    assert Lookup(ms, a) == Lookup(two, a);
    assert Lookup(ms, b) == Lookup(two, b);
  }

  /** String metadata fields come back exactly. */
  lemma MetadataStrings(channelId: string, messageTs: string, permalink: string)
    ensures var r := DecodeMetadata(Str(EncodeMetadata(Str(channelId), Str(messageTs), Str(permalink))));
      r.Success? && Get(r.value, "channelId") == Str(channelId)
      && Get(r.value, "messageTs") == Str(messageTs) && Get(r.value, "permalink") == Str(permalink)
  {
    MetadataRoundTrip(Str(channelId), Str(messageTs), Str(permalink));
  }

  /** Without metadata the submission reads the empty object. */
  lemma MetadataAbsent(privateMetadata: JsValue)
    requires !Truthy(privateMetadata)
    ensures DecodeMetadata(privateMetadata) == Success(Obj([]))
  {
    ParseSerialize(Obj([]));
    assert Serialize(Obj([])) == "{}";
  }

  // ---------------------------------------------------------------------
  // The form as a whole

  /** The values of the form `openModal` sends. */
  datatype Modal = Modal(
    triggerId: JsValue,
    privateMetadata: string,
    projectOptions: seq<SelectOption>,
    title: string,
    description: string,
    priorityOptions: seq<SelectOption>,
    initialPriority: SelectOption)

  /** The form object literal; building it throws only where the project
      options do. */
  function BuildModal(triggerId: JsValue, summary: Summary, permalink: JsValue, channelId: JsValue,
                      messageTs: JsValue, projects: JsValue): (r: Result<Modal>)
    ensures r.Failure? <==> ProjectOptions(projects).Failure?
    ensures r.Success? ==>
      r.value.triggerId == triggerId
      && r.value.projectOptions == ProjectOptions(projects).value
      && r.value.title == summary.title
      && r.value.description == FullDescription(summary.description, permalink)
      && r.value.privateMetadata == EncodeMetadata(channelId, messageTs, permalink)
      && r.value.priorityOptions == PriorityOptions()
      && r.value.initialPriority == InitialPriority()
      && r.value.initialPriority in r.value.priorityOptions
    ensures r.Success? ==>
      var m := DecodeMetadata(Str(r.value.privateMetadata));
      m.Success?
      && Get(m.value, "channelId") == StripMember(channelId)
      && Get(m.value, "messageTs") == StripMember(messageTs)
      && Get(m.value, "permalink") == StripMember(permalink)
  {
    var metadata := EncodeMetadata(channelId, messageTs, permalink);
    MetadataRoundTrip(channelId, messageTs, permalink);
    match ProjectOptions(projects)
    case Failure(e) => Failure(e)
    case Success(options) =>
      Success(Modal(triggerId, metadata, options, summary.title,
                    FullDescription(summary.description, permalink),
                    PriorityOptions(), InitialPriority()))
  }

  /** The whole of `openModal` given Slack's reply to `views.open`
      (Failure when the request or the reading of its body throws): the
      form that was sent, or the error thrown. */
  function OpenModal(triggerId: JsValue, summary: Summary, permalink: JsValue, channelId: JsValue,
                     messageTs: JsValue, projects: JsValue, reply: Result<JsValue>): (r: Result<Modal>)
    ensures r.Success? <==>
      BuildModal(triggerId, summary, permalink, channelId, messageTs, projects).Success?
      && reply.Success? && Truthy(Get(reply.value, "ok"))
    ensures r.Success? ==> r == BuildModal(triggerId, summary, permalink, channelId, messageTs, projects)
    ensures BuildModal(triggerId, summary, permalink, channelId, messageTs, projects).Success?
      && reply.Success? && reply.value.Obj? && !Truthy(Get(reply.value, "ok"))
      ==> r == Failure("Modal failed: " + ToJsString(Get(reply.value, "error")))
  {
    match BuildModal(triggerId, summary, permalink, channelId, messageTs, projects)
    case Failure(e) => Failure(e)
    case Success(modal) =>
      match reply
      case Failure(e) => Failure(e)
      case Success(result) =>
        match Member(result, "ok")
        case Failure(e) => Failure(e)
        case Success(ok) =>
          if Truthy(ok) then Success(modal)
          else Failure("Modal failed: " + ToJsString(Get(result, "error")))
  }
}

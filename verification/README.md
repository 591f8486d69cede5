# Slack-to-Zoho ticket worker, modelled in Dafny

`worker.js` is a Cloudflare Worker that connects Slack to Zoho Projects. A user
runs a shortcut on a Slack message. The worker then does three things:

- It acknowledges Slack at once.
- In the background, it gathers the message's permalink, a summary written by
  a language model and the list of Zoho projects. The list is kept in a
  key-value cache for an hour.
- It opens a ticket form prefilled with those values.

When the user submits the form, the worker creates the Zoho task, posts a
confirmation to the channel and tells Slack to close the form. If that fails,
Slack is told to show the error under the title field.

This project models the logic of that worker. It covers:

- the request router and the payload decoding;
- the text processing of the summarizer: markup stripping, the fallbacks, and
  the `TITLE:` and `DESCRIPTION:` overrides;
- the cache-aside read of the project list, as a class over the key-value
  namespace;
- the form's options, description and private metadata;
- the background flow, including its error reporting;
- the submission handler, with the task-link fallback of `createZohoTask`.

Every upstream call is an input to the model: Slack, Zoho, the language model,
and the form decoding of the request body. A failed call is a `Failure` that
carries the message of the error it throws.

JavaScript values are modelled by `Json.JsValue`, with these rules:

- `Get` is a property read that yields `undefined` on a miss.
- `Member` is a property read that throws a TypeError when it is applied to
  `null` or `undefined`.
- `Or` is `||`, and `ToJsString` is `String(v)`.
- `JSON.stringify` and `JSON.parse` are written out as `Serialize` and `Parse`.
  The round trip between them is proved, and the metadata and cache properties
  rest on it.

The modules are:

- `Text`: the JavaScript string operations.
- `Json` and `JsonParse`: values, and the JSON codec.
- `Summarizer`, `Form` and `ProjectCache`.
- `Http`: responses and posts.
- `Submission`, `TicketFlow` and `Router`.

The code behaves as follows where a reader might expect otherwise:

- A request body that is not valid JSON makes `JSON.parse` throw, and so does a
  `payload` field that is not. The handler then rejects; the request does not
  degrade to a plain acknowledgement. See `Router.ParsePayload` and
  `Router.UndecodableThrows`.
- The summary can fail. The language model call may throw, and so may a
  message `text` or a model `response` that is not a string. Such an error
  aborts the background flow like any other. See `TicketFlow.SummaryOf`.
- The permalink lookup is not fault-tolerant. A failed request or an unreadable
  body propagates. Any falsy `permalink` (missing, `""`, `null`, `0`) takes the
  fallback link.
- The submission's fields are read before the `try`. A missing block, input,
  `selected_option`, `view` or `state` makes the handler throw, instead of
  answering `errors`. A text input without a `value` does not throw: the title
  or description is then undefined. See `Submission.HandleModalSubmission` and
  `Submission.TextValueOptional`.
- Posting the confirmation is inside the `try`. An error thrown by that post
  (a network failure) therefore turns the answer into `errors`, although the
  task already exists. See `Submission.ClearIff`.

## Model

| member | source | states |
|---|---|---|
| Text.Truncate | worker.js:81 | `substring(0, n)` is the prefix of length min(\|s\|, n) |
| Text.FirstLine | worker.js:100 | `split('\n')[0]` is a prefix with no line feed, ended by the first line feed or the end of the text |
| Text.FirstIndex | worker.js:71 | the index of the first occurrence: none before it, and it is below the length exactly when the character occurs |
| Text.RemoveFirstAt | worker.js:71 | `replace('.', '')` removes exactly the character at the first index of '.', or nothing when there is none |
| Text.RemoveFirstSplit | worker.js:71 | removing the first '.' from a + "." + b, where a has no '.', gives a + b |
| Text.RemoveFirst | worker.js:71 | without a '.', the timestamp is unchanged; with one, exactly one character goes |
| Text.TrimStart | worker.js:105 | what is cut is white space, and what is left does not start with white space |
| Text.TrimEnd | worker.js:105 | what is cut is white space, and what is left does not end with white space |
| Text.Trim | worker.js:105 | `trim()` gives the text after the leading white space, which is all white space, and the result neither starts nor ends with white space |
| Text.TrimSpaceAfter | worker.js:105 | what follows the trimmed text in the original is white space |
| Text.TrimEmptyIff | worker.js:105 | `trim()` is empty exactly when the text is all white space |
| Text.TrimSpacePrefix | worker.js:111 | leading white space does not change a trim |
| Text.TrimOfTrimmed | worker.js:111 | a text that neither starts nor ends with white space is its own trim |
| Text.NatToDecimal | worker.js:289 | the decimal text of a number is non-empty digits without a leading zero |
| Text.IntToDecimal | worker.js:289 | a negative number's text, and only a negative number's, starts with '-' |
| Text.DecimalRoundTrip | worker.js:289 | the decimal text reads back as the number it was written from |
| Json.Lookup | worker.js:228 | a found value belongs to a member with that key, a missing key gives undefined, and a key on the last member gives that member's value |
| Json.LookupLastMatch | worker.js:228 | a read gives the value of the last member with the key, as `JSON.parse` keeps the last of duplicated keys |
| Json.Get | worker.js:41-46 | `v?.k` is undefined on anything but an object and for a missing key, and is otherwise a value stored under k |
| Json.Member | worker.js:230-233 | a property read throws exactly on null or undefined, and otherwise yields the property |
| Json.Path | worker.js:227-233 | an empty path reads the value itself, a path from null or undefined throws on its first key, and a one-key path is one property read |
| Json.PathSnoc | worker.js:230-233 | a longer path reads the shorter one and then one more property, and throws where either throws |
| Json.First | worker.js:286 | `?.[0]` is the first element of a non-empty array, undefined for an empty one, and undefined without an error on null or undefined |
| Json.Truthy | worker.js:41 | a value is falsy exactly when it is undefined, null, false, 0 or the empty string |
| Json.Or | worker.js:41 | `a \|\| b` is a when a is truthy, and b otherwise |
| Json.ToJsString | worker.js:240 | `String(v)` of a string is the string, of a non-negative integer digits that read back as it, and 'undefined' and 'null' for those two |
| Json.Serialize | worker.js:135 | `JSON.stringify` text is non-empty, quoted for a string, bracketed for an array and braced for an object |
| Json.MapAll | worker.js:161-164 | `map` succeeds exactly when the callback succeeds on every element, with the results in order; otherwise it fails with the first error |
| Json.StripJson | worker.js:152 | what JSON leaves of a value is JSON text's own kind of value |
| Json.LookupStrip | worker.js:228 | a key read after the JSON round trip gives the key's value as JSON leaves it |
| Json.GetStrip | worker.js:228 | reading a key of an object after the round trip gives the member as JSON leaves it |
| JsonParse.Parse | worker.js:32 | whatever `JSON.parse` yields is a JSON value |
| JsonParse.NumberRoundTrip | worker.js:135 | an integer's text parses back to the integer |
| JsonParse.StringRoundTrip | worker.js:135 | an escaped string's text parses back to the string |
| JsonParse.ValueRoundTrip | worker.js:135 | the text of any value, followed by a delimiter, parses back to the value as JSON leaves it |
| JsonParse.ParseSerialize | worker.js:135 | `JSON.parse(JSON.stringify(v))` is v as JSON leaves it |
| Summarizer.StripPass | worker.js:77-80 | one global replace pass never lengthens the text |
| Summarizer.StripMarkup | worker.js:76-80 | the four chained passes never lengthen the text |
| Summarizer.Clean | worker.js:76-81 | the cleaned text is the stripped text's first min(n, 1200) characters |
| Summarizer.StripPassKeeps | worker.js:77-80 | a pass deletes only delimiters and keeps every other character in order |
| Summarizer.StripMarkupKeeps | worker.js:76-80 | the four passes delete only `*`, `_`, `~` and backticks |
| Summarizer.StripPassPlain | worker.js:77-80 | text free of the delimiter passes through a pass unchanged |
| Summarizer.StripPassLone | worker.js:77-80 | a delimiter with no partner after it is kept, and so is the rest |
| Summarizer.StripPassDouble | worker.js:77-80 | two delimiters in a row do not pair up, since the run between them must be non-empty: the first is kept and the scan resumes at the second |
| Summarizer.StripPassSpan | worker.js:77-80 | a span `d x d`, with x non-empty and free of d, becomes x, and the scan resumes after it |
| Summarizer.OneSpan | worker.js:77-80 | a text holding one such span, after plain text, loses just its two delimiters |
| Summarizer.MarkupExample | worker.js:76-80 | `*bold* _em_ ~strike~` and a backtick-quoted `code` becomes `bold em strike code` |
| Summarizer.UpperAll | worker.js:104 | case folding keeps the length |
| Summarizer.SpaceRun | worker.js:104 | the `\s*` run is white space and stops at the first character that is not |
| Summarizer.LineRun | worker.js:104 | the `.` run has no line terminator and stops at the first one |
| Summarizer.TitleMatch | worker.js:104 | a captured title is one non-empty line, free of line terminators |
| Summarizer.DescriptionMatch | worker.js:110 | a captured description is a non-empty tail of the output |
| Summarizer.DescriptionFromTail | worker.js:110 | the leftmost-match scan, from wherever it starts, captures a non-empty tail of the output |
| Summarizer.TitleLineCaptured | worker.js:104-105 | the usable `TITLE:` capture is the trimmed line after the marker |
| Summarizer.Usable | worker.js:105-112 | a capture is used exactly when its trim is non-empty, and then trimmed |
| Summarizer.FallbackTitle | worker.js:100 | the fallback title is a prefix of the cleaned text, has no line feed, and has length min(first line, 80) |
| Summarizer.Summarize | worker.js:100-113 | the title is at most 80 characters |
| Summarizer.NoTitleFallback | worker.js:100-107 | without `TITLE:` in the output, the title is the first line of the cleaned text, cut to 80 characters |
| Summarizer.TitleOverride | worker.js:104-107 | the first `TITLE:` with a non-blank line after it gives that line, trimmed and cut to 80 characters |
| Summarizer.BlankTitleFallback | worker.js:104-107 | a first `TITLE:` followed only by white space leaves the fallback title |
| Summarizer.NoDescriptionFallback | worker.js:101-113 | without `DESCRIPTION:` the description is the whole cleaned text |
| Summarizer.DescriptionOverride | worker.js:110-113 | the first `DESCRIPTION:` gives the trimmed rest of the output, or the cleaned text when that rest is blank |
| Summarizer.Overrides | worker.js:104-113 | both overrides apply together |
| Summarizer.PromptFormat | worker.js:83-113 | output in the format the prompt asks for gives its trimmed title, cut to 80 characters, and its trimmed description |
| Summarizer.SummarizeThread | worker.js:99-115 | the step-by-step assignments compute `Summarize`, with a title of at most 80 characters |
| Form.Label | worker.js:162 | the label exists exactly when the project is present and its name is a string, and is then the name cut to 75 characters |
| Form.ProjectOption | worker.js:161-164 | the option exists exactly when the project is present and its name is a string; it is labelled with the name cut to 75 characters and carries `p.id`, and otherwise the label's error is thrown |
| Form.ProjectOptions | worker.js:161-164 | only an array yields options, and those are `map` over its first min(n, 100) projects |
| Form.ProjectOptionsShape | worker.js:161-164 | the options are the first 100 projects at most, in order, each labelled with its name cut to 75 characters and carrying its id |
| Form.ProjectOptionsIgnoreTail | worker.js:161 | projects past the hundredth play no part, not even by throwing |
| Form.PriorityOptions | worker.js:198-203 | the options are exactly None, Low, Medium and High, each with its own name as its value |
| Form.InitialPriority | worker.js:197 | the initial option is None and is one of the options |
| Form.FullDescription | worker.js:142 | the description, then the separator, then the permalink's text |
| Form.MetadataObject | worker.js:152 | the metadata is an object whose keys are unique |
| Form.EncodeMetadata | worker.js:152 | the metadata text starts with '{' |
| Form.DecodeMetadata | worker.js:228 | decoded metadata is a JSON value |
| Form.MetadataRoundTrip | worker.js:228 | the submission reads back channelId, messageTs and permalink as the form stored them |
| Form.DecodeEncoded | worker.js:228 | the metadata text decodes to the stored object as JSON leaves it |
| Form.MetadataStrings | worker.js:228 | string fields come back exactly |
| Form.MetadataAbsent | worker.js:228 | missing or empty metadata reads as `{}` |
| Form.BuildModal | worker.js:140-205 | the form fails exactly when its options do; otherwise it carries the trigger id, the options, the summary's title, the full description, the encoded metadata, the four priorities with None selected, and metadata that decodes back to channelId, messageTs and permalink |
| Form.OpenModal | worker.js:140-224 | the form opens exactly when it is built and Slack answers ok; a refusal fails with "Modal failed: " and Slack's error |
| ProjectCache.CachedValue | worker.js:122 | a missing key reads as null; a stored text is parsed |
| ProjectCache.ProjectSummary | worker.js:134 | the summary exists exactly for a present project, and carries `id_string` as `id` and `name` |
| ProjectCache.MissOutcome | worker.js:125-134 | a miss that succeeds yields an array |
| ProjectCache.FetchOutcome | worker.js:122-137 | a hit returns the cached value, a miss the fetched list, and the result is never falsy |
| ProjectCache.StoreAfter | worker.js:122-135 | no key but `zoho_projects` is touched; a hit or a failed miss stores nothing; a changed entry has TTL 3600 |
| ProjectCache.RequestsMade | worker.js:122-126 | a hit calls nobody; a miss calls the token refresh first, and the listing exactly when a token was obtained |
| ProjectCache.ProjectStore.FetchProjects | worker.js:118-138 | result, store and upstream calls are `FetchOutcome`, `StoreAfter` and `RequestsMade` of the old store |
| ProjectCache.ProjectStore.Expire | worker.js:135 | expiry removes the key and nothing else |
| ProjectCache.HitNoUpstream | worker.js:122-123 | a hit returns the cached value, writes nothing and calls nobody |
| ProjectCache.MissStores | worker.js:125-137 | a miss maps every project to `{id: id_string, name}`, stores the list with TTL 3600, returns it, and calls the token refresh and then the listing |
| ProjectCache.MissWithoutProjects | worker.js:132 | a miss without `projects` throws 'Failed to fetch projects' and stores nothing |
| ProjectCache.TokenFailure | worker.js:125 | a failed token refresh is reported, writes nothing, and stops before the listing |
| ProjectCache.SecondCallHits | worker.js:118-138 | after a miss has stored the list, the next call is a hit that returns the list and calls nobody |
| Submission.TaskErrorMessage | worker.js:283 | with no error message, the message is 'Failed to create task' |
| Submission.FallbackTaskUrl | worker.js:289 | the built link starts with the portal URL and the portal id and ends with the task id |
| Submission.TaskOf | worker.js:286 | the task is the first of `tasks` when that is truthy, and the body when `tasks` is missing, null or empty |
| Submission.CreateZohoTask | worker.js:259-291 | creation succeeds exactly when the token and the request succeed, the reply is ok and carries no error; a reply that is not ok fails with its error message |
| Submission.TaskUrlChoice | worker.js:286-290 | the task id is `id_string` or `id`, and the link is Zoho's `link.web.url` or else the portal URL built from project and task id |
| Submission.TaskErrorReported | worker.js:282-284 | a failed reply throws Zoho's message, or 'Failed to create task' when it has none |
| Submission.ReadFields | worker.js:230-233 | the fields are read exactly when all four reads succeed; a failed project read is the error; title and description are what their reads give |
| Submission.TextValueOptional | worker.js:231-232 | a present text input without `value` reads as undefined and does not throw |
| Submission.ReadSubmission | worker.js:227-233 | the submission is read exactly when `view.state.values`, the metadata and the fields are; the metadata is a JSON value |
| Submission.AnswerBody | worker.js:244-251 | both answer bodies are JSON objects with no undefined inside |
| Submission.ConfirmationText | worker.js:240 | the confirmation starts with "✅ Ticket created!" and the title in bold, and ends with the "View in Zoho Projects" link label |
| Submission.AnswerResponse | worker.js:244-255 | both answers have status 200 and a JSON content type |
| Submission.TryCreate | worker.js:235-256 | an `errors` answer always starts with "Failed: " |
| Submission.Failed | worker.js:251 | the title-block message is "Failed: " followed by the error's message |
| Submission.HandleModalSubmission | worker.js:226-257 | the handler throws exactly when reading the submission throws, and otherwise answers as the `try` does |
| Submission.ClearIff | worker.js:235-247 | the form closes exactly when the task is created, the metadata is present, and the confirmation post does not throw |
| Submission.FailedCreation | worker.js:248-256 | a failed creation answers `errors` with "Failed: " and the message, and posts nothing |
| Submission.AnswerReads | worker.js:244-251 | the body parses back to the chosen `response_action`, with `errors.title_block` carrying the message |
| Submission.ResponseCarriesBody | worker.js:244-251 | the response body parses back to the answer's JSON body |
| Submission.AnswersDiffer | worker.js:244-251 | different answers give different bodies |
| Submission.ConfirmationPosted | worker.js:238-242 | on success, the confirmation with the title and the task link goes to the metadata's channelId |
| Submission.ConfirmationChannel | worker.js:228-239 | a form opened by the worker posts its confirmation to the channel it was opened from |
| TicketFlow.ArchiveLink | worker.js:71 | the fallback link exists exactly when the timestamp is a string |
| TicketFlow.Permalink | worker.js:66-72 | Slack's truthy permalink is used as it is, and a failed request fails the lookup |
| TicketFlow.PermalinkFallback | worker.js:71 | without a permalink, timestamp "s.m" gives `https://slack.com/archives/<channel>/p` followed by s and m |
| TicketFlow.PermalinkWithoutDot | worker.js:71 | a timestamp without a dot is kept whole in the fallback |
| TicketFlow.SummaryOf | worker.js:74-97 | a summary needs a string message text and a model reply, and has a title of at most 80 characters |
| TicketFlow.SummaryFromReply | worker.js:97 | the summary is that of the text and of the model's `response`, an absent one counting as empty |
| TicketFlow.MessageTs | worker.js:41 | the message's own truthy `ts`, and otherwise `message_ts`, also when there is no `message` |
| TicketFlow.ChannelId | worker.js:42 | the channel object's truthy `id`, and otherwise `channel_id`, also when there is no `channel` |
| TicketFlow.MessageText | worker.js:46 | the message's truthy text, and otherwise the empty string |
| TicketFlow.Attempt | worker.js:49-55 | the form is opened only when the project list and the summary were obtained |
| TicketFlow.ErrorPost | worker.js:57-63 | an error is posted exactly when the attempt failed and the channel is known |
| TicketFlow.ProcessTicketCreation | worker.js:39-64 | outcome, cache contents and upstream calls are those `Flow` gives over the result of `ProjectStore.FetchProjects` |
| TicketFlow.Flow | worker.js:39-64 | the post goes to the channel, with "❌ Error: " and the message, exactly when the flow failed and the channel is known; an opened form needs the project list and the summary |
| TicketFlow.ModalOpened | worker.js:49-55 | when all succeeds, the form opened is the one built from the summary, the permalink and the projects, and nothing is posted |
| TicketFlow.PermalinkFailureFirst | worker.js:49-53 | a permalink failure is the error reported, whatever the other calls did |
| TicketFlow.ProjectsFailureReported | worker.js:49-53 | a project-list failure is reported when the other two succeeded |
| Router.ParsePayload | worker.js:30-37 | a decoded payload is a JSON value |
| Router.JsonBodyRoundTrip | worker.js:31-33 | a JSON object sent as the body is decoded as sent |
| Router.FormPayloadRoundTrip | worker.js:34-36 | a value sent in the form's `payload` field is decoded as sent |
| Router.MissingPayloadEmpty | worker.js:36 | a form without a `payload` field, or with an empty one, decodes to `{}` |
| Router.TextResponse | worker.js:18-26 | a string response has status 200, the given body and the `text/plain;charset=UTF-8` Content-Type its body extraction supplies |
| Router.ChallengeResponse | worker.js:13 | the challenge response has status 200 and the challenge's text; it has no Content-Type exactly when the challenge is missing or null (a null body), and plain text otherwise |
| Router.MissingChallengeNullBody | worker.js:12-14 | `url_verification` without a challenge is answered with a null body and no Content-Type |
| Router.ChallengeBody | worker.js:13 | a string challenge is echoed as it is; a missing one gives an empty body |
| Router.Dispatch | worker.js:12-26 | every response that is sent has status 200 |
| Router.Fetch | worker.js:7-27 | every response has status 200, and only a POST schedules the background flow |
| Router.NotPostActive | worker.js:8-26 | a request other than POST gets 'Slack-Zoho Ticket Creator Active' and starts nothing |
| Router.ChallengeEchoed | worker.js:12-14 | `url_verification` is answered with its challenge |
| Router.ShortcutScheduled | worker.js:16-19 | `shortcut` and `message_action` get an empty 200 and schedule the payload, and nothing else schedules it |
| Router.SubmissionAnswered | worker.js:21-23 | `view_submission` gets the submission handler's answer, or its error |
| Router.OtherTypesActive | worker.js:26 | any other type gets the liveness text |
| Router.UndecodableThrows | worker.js:10-12 | a POST whose payload cannot be decoded, or decodes to null, throws |

## Left out

- The network calls are inputs: Slack's `chat.getPermalink`, `views.open` and `chat.postMessage`, Zoho's token refresh, project listing and task creation, and `ai.run`. Each is a `Result` given to the model. The request bodies they carry are not modelled: the task's name, description and priority, and the Block Kit boilerplate of the form.
- `getZohoAccessToken` is not modelled beyond its outcome. Its "Zoho auth: ..." error is part of the token input.
- `URLSearchParams` form decoding is not modelled. The `payload` field of a form body is an input.
- `Promise.all` runs its three calls concurrently and reports whichever failure settles first. The model reports the first failure in argument order. It also lets the cache read run to completion, as it does when the flow is left to finish.
- `ctx.waitUntil` is modelled as the payload that is handed over (`Routed.scheduled`). The background flow itself is `TicketFlow.ProcessTicketCreation`.
- The cache's TTL clock is not modelled. Expiry is an explicit `ProjectStore.Expire`, and the store only records the TTL it was given.
- A failed write to the cache (`env.CACHE.put` throwing) is not modelled.
- A failed post in the background flow's `catch`, and `console.error`, are not modelled.
- Strings are sequences of Unicode scalar values. JavaScript counts UTF-16 code units, so the 1200-, 80- and 75-character cuts differ for text outside the Basic Multilingual Plane.
- Case-insensitive matching is modelled for the ASCII letters of `TITLE:` and `DESCRIPTION:` only. Those are the only letters the two patterns contain.
- JSON numbers are integers, and escapes of surrogate pairs in strings are not modelled. `JsonParse.Parse` rejects a fraction or an exponent (`1.5`, `1e3`) that `JSON.parse` accepts. So `Router.Fetch`, `Form.DecodeMetadata` and `ProjectCache.CachedValue` fail on such text where the worker does not throw.
- Numbers are exact integers. JavaScript's doubles round integers above 2^53, and `String(n)` switches to exponent form from 1e21. The model does neither, for example for a numeric `task.id` in the fallback task link (worker.js:289).
- `JSON.stringify` of a value that has no JSON form (a function, or a top-level `undefined`) is not modelled.
- JsonParse.ParseSerialize: states the round trip up to `Strip`, because `undefined` members are dropped by `JSON.stringify`, so values carrying them do not come back identical.
- Submission.CreateZohoTask: does not model the URL of the task creation request or its form-encoded body, because both are sent to Zoho and their effect is the reply input.

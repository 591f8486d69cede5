/** The responses the worker returns to Slack. */
module Http {
  import opened Wrappers
  import Json

  const JsonContentType := "application/json"

  /** The Content-Type the Fetch standard's body extraction gives a string
      body when the worker sets no header of its own. */
  const TextPlainContentType := "text/plain;charset=UTF-8"

  /** `new Response(body, { status, headers })`: contentType is the header
      the worker sets, or the one body extraction supplies for a string body;
      it is None for a null body, whose text reads as empty. */
  datatype Response = Response(status: nat, body: string, contentType: Option<string>)

  /** Where a message goes and what it says (`chat.postMessage`). */
  datatype SlackPost = SlackPost(channel: Json.JsValue, text: string)
}

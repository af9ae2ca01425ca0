/** The one kind of request the program makes: a JSON POST to a Discord webhook. */
module Webhook {
  import opened Wrappers
  import Json

  /**
   * A call to `fetch`. `url` is the value handed to fetch as it was read from
   * the environment, so None stands for `undefined`;
   * `verb` is the HTTP method.
   */
  datatype Request = Request(url: Option<string>, verb: string, contentType: string, body: string)

  /** `fetch(url, { method: 'POST', headers: { 'Content-Type': 'application/json' },
      body: JSON.stringify({ content: message }) })`. */
  function Post(url: Option<string>, message: string): (r: Request)
    ensures r.url == url
    ensures r.verb == "POST" && r.contentType == "application/json"
    ensures Json.ParseContentBody(r.body) == Some(message)
  {
    Request(url, "POST", "application/json", Json.ContentBody(message))
  }
}

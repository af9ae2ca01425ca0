/**
 * Webhook delivery (error.js): `sendWebhookNotification` and its two callers
 * `sendError` and `sendLowError`. The process's outward effects are held by
 * an `Outbox`: the fetch calls made and the console lines written. The answer
 * of the network to a fetch is an input.
 */
module ErrorNotify {
  import opened Wrappers
  import Webhook
  import Json

  /** How a fetch settles: any HTTP response (a non-2xx status included), or a rejection. */
  datatype FetchResult = Responded | Rejected(errorMessage: string)

  /** A console line: console.warn, console.log or console.error. */
  datatype Line = Warn(text: string) | Info(text: string) | Fault(text: string)

  /** The two webhook variables of the environment, WEBHOOK_URL and WEBHOOK_URL_LOW. */
  datatype Env = Env(webhookUrl: Option<string>, webhookUrlLow: Option<string>)

  /** The severity that sendWebhookNotification assumes when called without one. */
  const DefaultLevel: string := "error"

  /** JavaScript falsiness of an environment value: undefined or the empty string. */
  predicate Falsy(url: Option<string>) {
    url.None? || url.value == ""
  }

  /** The request sendWebhookNotification makes, if any. */
  function Delivery(url: Option<string>, message: string): (r: Option<Webhook.Request>)
    ensures r.None? <==> Falsy(url)
    ensures r.Some? ==> r.value == Webhook.Post(url, message)
  {
    if Falsy(url) then None else Some(Webhook.Post(url, message))
  }

  /** The console line sendWebhookNotification writes: a warning for an unset
      URL, otherwise success or the swallowed failure. */
  function Report(url: Option<string>, level: string, fetch: FetchResult): (l: Line)
    ensures l.Warn? <==> Falsy(url)
    ensures l.Fault? <==> !Falsy(url) && fetch.Rejected?
  {
    if Falsy(url) then Warn("No webhook URL configured for " + level + " level notifications")
    else match fetch
      case Responded => Info("Sent " + level + " level notification to Discord")
      case Rejected(e) => Fault("Failed to send " + level + " notification to Discord:" + " " + e)
  }

  class Outbox {
    /** Every fetch call made, in order. */
    var posts: seq<Webhook.Request>
    /** Every console line written, in order. */
    var console: seq<Line>

    constructor ()
      ensures posts == [] && console == []
    {
      posts := [];
      console := [];
    }

    /**
     * At most one POST: none when the URL is falsy, exactly one otherwise;
     * a rejected fetch is logged and not repeated, and the call returns
     * normally either way.
     */
    method SendWebhookNotification(fetch: FetchResult, webhookURL: Option<string>, message: string, level: string := DefaultLevel)
      modifies this
      ensures posts == old(posts) + ToSeq(Delivery(webhookURL, message))
      ensures console == old(console) + [Report(webhookURL, level, fetch)]
    {
      if !Falsy(webhookURL) {
        posts := posts + [Webhook.Post(webhookURL, message)];
      }
      console := console + [Report(webhookURL, level, fetch)];
    }

    /** High-priority notification: to WEBHOOK_URL, at level 'error'. */
    method SendError(env: Env, fetch: FetchResult, errorMessage: string)
      modifies this
      ensures posts == old(posts) + ToSeq(Delivery(env.webhookUrl, errorMessage))
      ensures console == old(console) + [Report(env.webhookUrl, "error", fetch)]
    {
      SendWebhookNotification(fetch, env.webhookUrl, errorMessage, "error");
    }

    /** Low-priority notification: to WEBHOOK_URL_LOW, at level 'low'. */
    method SendLowError(env: Env, fetch: FetchResult, lowErrorMessage: string)
      modifies this
      ensures posts == old(posts) + ToSeq(Delivery(env.webhookUrlLow, lowErrorMessage))
      ensures console == old(console) + [Report(env.webhookUrlLow, "low", fetch)]
    {
      SendWebhookNotification(fetch, env.webhookUrlLow, lowErrorMessage, "low");
    }
  }

  /** A configured URL receives one POST carrying exactly the message, as JSON.
      This only puts together the contracts of `Delivery` and `Webhook.Post`. */
  lemma ConfiguredUrlGetsOnePost(url: Option<string>, message: string)
    requires !Falsy(url)
    ensures |ToSeq(Delivery(url, message))| == 1
    ensures var r := ToSeq(Delivery(url, message))[0];
      r.url == url && r.verb == "POST" && r.contentType == "application/json" &&
      Json.ParseContentBody(r.body) == Some(message)
  {
  }
}

/** How the legacy handler (index.js) and the refactored one (connect.js) relate. */
module Versions {
  import opened Wrappers
  import opened Routing
  import Connect
  import Legacy
  import ErrorNotify
  import Webhook

  /**
   * Both handlers put every error in the same bucket and log the same line
   * for a harmless one; the refactored low report is the legacy one behind
   * the account prefix.
   */
  lemma SameDecision(errText: string, name: Option<string>)
    ensures KindOf(Connect.Route(errText, name)) == KindOf(Legacy.Route(errText))
    ensures Connect.Route(errText, name).Benign? ==> Connect.Route(errText, name) == Legacy.Route(errText)
    ensures Connect.Route(errText, name).Low? ==>
      Connect.Route(errText, name).msg == Connect.AccountPrefix(name) + Legacy.Route(errText).msg
  {
  }

  /**
   * With WEBHOOK_URL unset or empty, an invalid token still makes the legacy
   * handler call fetch, which ends it in an unhandled rejection, while the
   * refactored one sends nothing.
   */
  lemma UnsetCriticalUrl(env: ErrorNotify.Env, fetch: ErrorNotify.FetchResult, errText: string, name: Option<string>)
    requires ErrorNotify.Falsy(env.webhookUrl)
    requires Classify(errText) == InvalidToken
    ensures Legacy.Handle(env, fetch, errText).post == Some(Webhook.Post(env.webhookUrl, Legacy.InvalidTokenMessage))
    ensures Legacy.Handle(env, fetch, errText).settlement == Legacy.UnhandledRejection(Legacy.NoUrl)
    ensures Connect.Notification(env, Connect.Route(errText, name)) == []
  {
  }
}

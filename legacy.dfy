/**
 * The legacy standalone error handler (index.js). It makes the same
 * three-way decision as the refactored one, but without an account prefix,
 * calls fetch itself with no check that the URL is set, and does not catch a
 * failed fetch.
 */
module Legacy {
  import opened Wrappers
  import opened Strings
  import opened Routing
  import Webhook
  import ErrorNotify
  import Json

  /** The critical report, a multi-line template literal. */
  const InvalidTokenMessage: string :=
    "An error occurred in the Discord bot. \n                  Probably invalid token. \n                  See replit.\n"

  /** What the success branch prints after a POST. */
  const SentLine: string := "Sent error notification to Discord."

  /** How the handler's promise ends: normally, or rejected with nobody to catch it. */
  datatype Settlement = Resolved | UnhandledRejection(cause: Cause)

  /** Why fetch rejected: it was given no URL (undefined or empty), from which
      no request can be built, or the request itself failed. */
  datatype Cause = NoUrl | FetchFailed(errorMessage: string)

  /** Everything one call of the handler does. */
  datatype Effects = Effects(post: Option<Webhook.Request>, console: seq<ErrorNotify.Line>, settlement: Settlement)

  /**
   * The handler's decision: same buckets as `Classify`, a fixed critical
   * text, and the error's whole text in the low report.
   */
  function Route(errText: string): (r: Outcome)
    ensures KindOf(r) == Classify(errText)
    ensures r.Critical? ==> r.msg == InvalidTokenMessage
    ensures r.Benign? ==> r.logText == ReportLead + errText
    ensures r.Low? ==> r.msg == ReportLead + errText + "\n"
  {
    if Includes(errText, InvalidTokenMarker) then
      Critical(InvalidTokenMessage)
    else if Includes(errText, ReadingAddMarker) then
      Benign(BenignReport(errText))
    else if Includes(errText, ReadingGetMarker) then
      Benign(BenignReport(errText))
    else if Includes(errText, PeerResetMarker) then
      Benign(BenignReport(errText))
    else
      Low(ReportLead + errText + "\n")
  }

  /**
   * One call of the handler: a critical error is posted to WEBHOOK_URL and
   * any unrecognised one to WEBHOOK_URL_LOW, set or not; a harmless one is
   * only logged. A fetch without a URL, or one that fails, ends the handler
   * with an unhandled rejection and skips the success line.
   */
  function Handle(env: ErrorNotify.Env, fetch: ErrorNotify.FetchResult, errText: string): (e: Effects)
    ensures e.post.Some? <==> Classify(errText) != Ignorable
    ensures e.post.Some? ==>
      e.post.value.url == (if Classify(errText) == InvalidToken then env.webhookUrl else env.webhookUrlLow)
    ensures e.post.Some? ==> e.post.value.verb == "POST" && e.post.value.contentType == "application/json"
    ensures e.post.Some? && ErrorNotify.Falsy(e.post.value.url) ==>
      e.settlement == UnhandledRejection(NoUrl) && e.console == []
    ensures e.settlement.UnhandledRejection? <==>
      e.post.Some? && (ErrorNotify.Falsy(e.post.value.url) || fetch.Rejected?)
    ensures e.console == [ErrorNotify.Info(SentLine)] <==>
      e.post.Some? && !ErrorNotify.Falsy(e.post.value.url) && fetch.Responded?
    ensures Classify(errText) == Ignorable ==>
      e.console == [ErrorNotify.Info(ReportLead + errText)] && e.settlement == Resolved
    ensures e.settlement.UnhandledRejection? ==> e.console == []
    ensures |e.console| <= 1
  {
    match Route(errText)
    case Benign(text) => Effects(None, [ErrorNotify.Info(text)], Resolved)
    case Critical(m) => Posted(env.webhookUrl, m, fetch)
    case Low(m) => Posted(env.webhookUrlLow, m, fetch)
  }

  /** The fetch of either notifying branch and what follows it. */
  function Posted(url: Option<string>, message: string, fetch: ErrorNotify.FetchResult): (e: Effects)
    ensures e.post == Some(Webhook.Post(url, message))
    ensures e.settlement == Resolved <==> !ErrorNotify.Falsy(url) && fetch.Responded?
    ensures e.settlement == Resolved ==> e.console == [ErrorNotify.Info(SentLine)]
    ensures e.settlement.UnhandledRejection? ==> e.console == []
    ensures ErrorNotify.Falsy(url) ==> e.settlement == UnhandledRejection(NoUrl)
    ensures !ErrorNotify.Falsy(url) && fetch.Rejected? ==> e.settlement == UnhandledRejection(FetchFailed(fetch.errorMessage))
  {
    var request := Webhook.Post(url, message);
    if ErrorNotify.Falsy(url) then Effects(Some(request), [], UnhandledRejection(NoUrl))
    else match fetch
      case Responded => Effects(Some(request), [ErrorNotify.Info(SentLine)], Resolved)
      case Rejected(reason) => Effects(Some(request), [], UnhandledRejection(FetchFailed(reason)))
  }

  /** The POST body holds exactly the routed message. */
  lemma PostCarriesMessage(env: ErrorNotify.Env, fetch: ErrorNotify.FetchResult, errText: string)
    requires Classify(errText) != Ignorable
    ensures Handle(env, fetch, errText).post.Some?
    ensures Json.ParseContentBody(Handle(env, fetch, errText).post.value.body) == Some(Route(errText).msg)
  {
  }
}

/**
 * The refactored error handler (connect.js): the handler registered with
 * `account.on("error", …)` in connectBot, and getUsername. The client itself
 * is not modelled; its logged-in user is an input.
 */
module Connect {
  import opened Wrappers
  import opened Strings
  import opened Routing
  import ErrorNotify
  import Webhook

  /** The part of the client's `account.user` that is read. */
  datatype ClientUser = ClientUser(username: string)

  /** The rest of the critical report after the account prefix. */
  const InvalidTokenText: string := "An error occurred in the Discord bot. Invalid token.\n"

  /** getUsername: the logged-in user's name, or undefined before login. */
  function GetUsername(user: Option<ClientUser>): (r: Option<string>)
    ensures r.Some? <==> user.Some?
    ensures user.Some? ==> r.value == user.value.username
  {
    match user
    case None => None
    case Some(u) => Some(u.username)
  }

  /** How a template literal renders the name: `undefined` stands in for a missing one. */
  function Rendered(name: Option<string>): string {
    match name
    case None => "undefined"
    case Some(n) => n
  }

  /** `Account: ${getUsername()} `, the start of every notification. */
  function AccountPrefix(name: Option<string>): (r: string)
    ensures |r| >= 10 && r[..9] == "Account: " && r[|r| - 1] == ' '
  {
    "Account: " + Rendered(name) + " "
  }

  /**
   * The handler's decision for an error whose `toString()` is `errText`: the
   * bucket is exactly the one `Classify` assigns, the critical report names the
   * account and the invalid token, a harmless error is only logged, and any
   * other error is reported under the account's name with its whole text.
   */
  function Route(errText: string, name: Option<string>): (r: Outcome)
    ensures KindOf(r) == Classify(errText)
    ensures r.Critical? ==> r.msg == AccountPrefix(name) + InvalidTokenText
    ensures r.Benign? ==> r.logText == ReportLead + errText
    ensures r.Low? ==> r.msg == AccountPrefix(name) + ReportLead + errText + "\n"
  {
    var errorMessage := AccountPrefix(name);
    if Includes(errText, InvalidTokenMarker) then
      Critical(errorMessage + InvalidTokenText)
    else if Includes(errText, ReadingAddMarker) then
      Benign(BenignReport(errText))
    else if Includes(errText, ReadingGetMarker) then
      Benign(BenignReport(errText))
    else if Includes(errText, PeerResetMarker) then
      Benign(BenignReport(errText))
    else
      Low(errorMessage + BenignReport(errText) + "\n")
  }

  /** The requests the handler's outcome leads to: sendError posts a critical
      message to WEBHOOK_URL, sendLowError a low one to WEBHOOK_URL_LOW, each
      only when that URL is set; a harmless error posts nothing. */
  function Notification(env: ErrorNotify.Env, o: Outcome): (r: seq<Webhook.Request>)
    ensures |r| <= 1
    ensures o.Benign? ==> r == []
    ensures o.Critical? ==> (r != [] <==> !ErrorNotify.Falsy(env.webhookUrl))
    ensures o.Low? ==> (r != [] <==> !ErrorNotify.Falsy(env.webhookUrlLow))
    ensures r != [] ==>
      r[0] == Webhook.Post(if o.Critical? then env.webhookUrl else env.webhookUrlLow, o.msg)
  {
    match o
    case Critical(m) => ToSeq(ErrorNotify.Delivery(env.webhookUrl, m))
    case Benign(_) => []
    case Low(m) => ToSeq(ErrorNotify.Delivery(env.webhookUrlLow, m))
  }

  /**
   * The error handler: routes the error, then either calls sendError or
   * sendLowError, or only logs. At most one POST per error.
   */
  method HandleError(out: ErrorNotify.Outbox, env: ErrorNotify.Env, fetch: ErrorNotify.FetchResult,
                     errText: string, user: Option<ClientUser>)
    modifies out
    ensures out.posts == old(out.posts) + Notification(env, Route(errText, GetUsername(user)))
    ensures |out.posts| <= |old(out.posts)| + 1
    ensures Route(errText, GetUsername(user)).Benign? ==>
      out.posts == old(out.posts) && out.console == old(out.console) + [ErrorNotify.Info(ReportLead + errText)]
    ensures Route(errText, GetUsername(user)).Critical? ==>
      out.console == old(out.console) + [ErrorNotify.Report(env.webhookUrl, "error", fetch)]
    ensures Route(errText, GetUsername(user)).Low? ==>
      out.console == old(out.console) + [ErrorNotify.Report(env.webhookUrlLow, "low", fetch)]
  {
    match Route(errText, GetUsername(user)) {
      case Critical(m) => out.SendError(env, fetch, m);
      case Benign(text) => out.console := out.console + [ErrorNotify.Info(text)];
      case Low(m) => out.SendLowError(env, fetch, m);
    }
  }

  /** The invalid-token signature anywhere in the text makes the error
      critical, whatever else the text contains. */
  lemma InvalidTokenAnywhere(before: string, after: string, name: Option<string>)
    ensures Route(before + InvalidTokenMarker + after, name) == Critical(AccountPrefix(name) + InvalidTokenText)
  {
    OccursInContext(before, InvalidTokenMarker, after);
  }

  /** Any of the harmless signatures, with no invalid token around it, is only
      logged and nothing is sent. */
  lemma BenignSignatureAnywhere(before: string, signature: string, after: string, name: Option<string>)
    requires signature == ReadingAddMarker || signature == ReadingGetMarker || signature == PeerResetMarker
    requires !Occurs(before + signature + after, InvalidTokenMarker)
    ensures Route(before + signature + after, name) == Benign(ReportLead + (before + signature + after))
  {
    OccursInContext(before, signature, after);
    BenignIsLogged(before + signature + after, name);
  }

  /** A text with a harmless signature and no invalid token is only logged.
      This restates `Route`'s contract for that bucket of `Classify`. */
  lemma BenignIsLogged(errText: string, name: Option<string>)
    requires !Occurs(errText, InvalidTokenMarker) && HasBenignSignature(errText)
    ensures Route(errText, name) == Benign(ReportLead + errText)
  {
  }

  /** A text with none of the four signatures goes to the low channel, with
      the account prefix and the error's whole text. This restates `Route`'s
      contract for that bucket of `Classify`. */
  lemma UnknownGoesLow(errText: string, name: Option<string>)
    requires !Occurs(errText, InvalidTokenMarker) && !HasBenignSignature(errText)
    ensures Route(errText, name) == Low(AccountPrefix(name) + ReportLead + errText + "\n")
  {
  }

  /** Before login the report names the account `undefined`. */
  lemma PrefixBeforeLogin(user: Option<ClientUser>)
    ensures AccountPrefix(GetUsername(user)) ==
      if user.None? then "Account: undefined " else "Account: " + user.value.username + " "
  {
  }
}

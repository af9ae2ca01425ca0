/**
 * What both error handlers share: the error signatures they look for, the
 * three buckets an error falls in, and the handler's outcome.
 */
module Routing {
  import opened Strings

  /** The signature of a rejected token: the one critical error. */
  const InvalidTokenMarker: string := "Error: Invalid token"

  /** The three known-harmless errors of the client library. */
  const ReadingAddMarker: string := "TypeError: Cannot read properties of undefined (reading 'add')"
  const ReadingGetMarker: string := "TypeError: Cannot read properties of undefined (reading 'get')"
  const PeerResetMarker: string := "Error: Connection reset by peer"

  /** The text both handlers start their reports with. */
  const ReportLead: string := "An error occurred in the Discord bot. "

  datatype Kind = InvalidToken | Ignorable | Unrecognised

  /**
   * What a handler does with one error: a critical notification, a console
   * log line only, or a low-importance notification.
   */
  datatype Outcome = Critical(msg: string) | Benign(logText: string) | Low(msg: string)

  function KindOf(o: Outcome): Kind {
    match o
    case Critical(_) => InvalidToken
    case Benign(_) => Ignorable
    case Low(_) => Unrecognised
  }

  /** The text names one of the known-harmless errors. */
  ghost predicate HasBenignSignature(errText: string) {
    Occurs(errText, ReadingAddMarker) || Occurs(errText, ReadingGetMarker) || Occurs(errText, PeerResetMarker)
  }

  /**
   * The bucket an error text belongs in, stated on substring occurrence: an
   * invalid token outranks everything, then any harmless signature, in no
   * particular order, then everything else.
   */
  ghost function Classify(errText: string): Kind {
    if Occurs(errText, InvalidTokenMarker) then InvalidToken
    else if HasBenignSignature(errText) then Ignorable
    else Unrecognised
  }

  /** The console line both handlers print for a harmless error: `An error occurred in the Discord bot. ${err}`. */
  function BenignReport(errText: string): string {
    ReportLead + errText
  }
}

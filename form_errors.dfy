/** How the distributor and delivery-team dialogs turn a failed request into the message
    they show. */
module FormErrors {
  import opened Wrappers
  import Text

  /** How a request ended: accepted, refused by the server (with the `detail` member of
      its JSON body, when the body has one), or not answered at all (the network error's
      message). */
  datatype Outcome = Succeeded | Refused(detail: Option<string>) | Unreachable(message: string)

  /** The error a save shows: the server's non-empty `detail`, else the page's fixed
      message; a network failure shows its own message. */
  function SaveError(outcome: Outcome, fallback: string): (e: Option<string>)
    ensures e.None? <==> outcome.Succeeded?
    ensures outcome.Refused? && Text.Present(outcome.detail) ==> e == outcome.detail
    ensures outcome.Refused? && !Text.Present(outcome.detail) ==> e == Some(fallback)
    ensures outcome.Unreachable? ==> e == Some(outcome.message)
  {
    match outcome
    case Succeeded => None
    case Refused(detail) => Some(if Text.Present(detail) then detail.value else fallback)
    case Unreachable(message) => Some(message)
  }

  /** The error a delete shows: a refusal always shows the page's fixed message. */
  function DeleteError(outcome: Outcome, fixed: string): (e: Option<string>)
    ensures e.None? <==> outcome.Succeeded?
    ensures outcome.Refused? ==> e == Some(fixed)
    ensures outcome.Unreachable? ==> e == Some(outcome.message)
  {
    match outcome
    case Succeeded => None
    case Refused(_) => Some(fixed)
    case Unreachable(message) => Some(message)
  }

  /** A refusal whose `detail` is empty or missing shows the same message either way. */
  lemma EmptyDetailIsNoDetail(fallback: string)
    ensures SaveError(Refused(Some("")), fallback) == SaveError(Refused(None), fallback) == Some(fallback)
  {
  }
}

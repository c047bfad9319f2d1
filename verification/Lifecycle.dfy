/** The case status graph and its guards. */
module Lifecycle {
  import opened Prelude

  datatype Status = Open | InProgress | PendingInfo | Closed | Merged

  datatype TransitionError = IllegalTransition | DispositionRequired | UnknownDisposition | ReopenRequiresReason

  function Allowed(current: Status): set<Status> {
    match current
    case Open => {InProgress}
    case InProgress => {PendingInfo, Closed}
    case PendingInfo => {InProgress}
    case Closed => {InProgress}
    case Merged => {}
  }

  function ValidateTransition(current: Status, target: Status, disposition: Option<string>, dispositions: seq<string>)
    : Option<TransitionError>
  {
    if target !in Allowed(current) then Some(IllegalTransition)
    else if target == Closed && disposition.None? then Some(DispositionRequired)
    else if target == Closed && disposition.value !in dispositions then Some(UnknownDisposition)
    else None
  }
}

/** The approval state machine's table. Status strings outside the nine known ones are `Other`. */
module ApprovalModels {

  import opened Options

  datatype Status =
    | Pending | Approved | Rejected | Modified | Expired
    | Executing | Completed | Failed | Superseded
    | Other(text: string)

  datatype CallbackAction = Approve | Reject | Modify | OtherAction(text: string)

  function ValidTransitions(s: Status): seq<Status> {
    match s
    case Pending => [Approved, Rejected, Modified, Expired, Superseded]
    case Approved => [Executing]
    case Modified => [Executing]
    case Executing => [Completed, Failed]
    case _ => []
  }

  predicate CanTransitionTo(s: Status, target: Status) {
    target in ValidTransitions(s)
  }

  function StatusFromAction(a: CallbackAction): Option<Status> {
    match a
    case Approve => Some(Approved)
    case Reject => Some(Rejected)
    case Modify => Some(Modified)
    case OtherAction(_) => None
  }

  predicate IsFinal(s: Status) {
    s in {Rejected, Expired, Completed, Failed, Superseded}
  }

  /** How far along its life a status is; every edge of the table moves strictly further. */
  function Depth(s: Status): nat {
    match s
    case Pending => 0
    case Approved => 1
    case Modified => 1
    case Executing => 2
    case _ => 3
  }

  /** The final statuses are exactly the known ones without an outgoing edge, and the table has
      no cycle: a life has at most three edges. */
  lemma TableShape(s: Status, t: Status)
    ensures !s.Other? ==> (IsFinal(s) <==> ValidTransitions(s) == [])
    ensures CanTransitionTo(s, t) ==> Depth(s) < Depth(t) <= 3 && !t.Pending? && !t.Other?
  {
    match s
    case Pending => case Approved => case Modified => case Executing => case _ =>
  }

  /** The nine edges of the table, and no others. */
  lemma EdgesAre(s: Status, t: Status)
    ensures CanTransitionTo(s, t) <==>
      (s == Pending && t in {Approved, Rejected, Modified, Expired, Superseded})
      || (s in {Approved, Modified} && t == Executing)
      || (s == Executing && t in {Completed, Failed})
  {
    match s
    case Pending => case Approved => case Modified => case Executing => case _ =>
  }
}

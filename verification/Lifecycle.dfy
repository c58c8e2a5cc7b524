/** The payment status graph and its event log: the trigger of
    db/migrations/0017_retry_transitions.sql. */
module Lifecycle {
  import opened Basics

  datatype Status = PendingApproval | Approved | Executing | Settled | Blocked | Cancelled | Failed

  predicate Allowed(from: Status, to: Status) {
    match from
    case PendingApproval => to in {Approved, Blocked, Cancelled}
    case Approved => to in {Executing, Blocked, Cancelled}
    case Executing => to in {Settled, Failed}
    case Failed => to in {Executing, Cancelled}
    case _ => false
  }

  /** A row of payment_events. */
  datatype Event = Event(from: Option<Status>, to: Status)

  /** What the trigger does with an UPDATE to a status: None when it raises. */
  function OnUpdate(log: seq<Event>, old_: Status, new_: Status): Option<seq<Event>> {
    if new_ == old_ then Some(log)
    else if !Allowed(old_, new_) then None
    else Some(log + [Event(Some(old_), new_)])
  }

  /** Where each status can be entered from. */
  function Entrances(to: Status): set<Status> {
    match to
    case PendingApproval => {}
    case Approved => {PendingApproval}
    case Executing => {Approved, Failed}
    case Settled => {Executing}
    case Failed => {Executing}
    case Blocked => {PendingApproval, Approved}
    case Cancelled => {PendingApproval, Approved, Failed}
  }

  /** The trigger lets an update through exactly when it changes nothing or enters a status by one of its
      entrances; it logs the change, and only a change. */
  lemma TriggerDecides(log: seq<Event>, old_: Status, new_: Status)
    ensures OnUpdate(log, old_, new_).None? <==> new_ != old_ && old_ !in Entrances(new_)
    ensures OnUpdate(log, old_, new_).Some? ==>
      OnUpdate(log, old_, new_).value == log + (if new_ == old_ then [] else [Event(Some(old_), new_)])
  {
  }

  function OnInsert(status: Status): seq<Event> {
    [Event(None, status)]
  }

  /** A log is a walk: it starts with an insertion, every event continues where the previous one
      ended along an edge of the graph, and it ends at the current status. */
  predicate IsWalk(log: seq<Event>, current: Status) {
    && log != []
    && log[0].from == None
    && (forall i :: 0 < i < |log| ==> log[i].from == Some(log[i - 1].to) && Allowed(log[i - 1].to, log[i].to))
    && log[|log| - 1].to == current
  }

  lemma UpdateKeepsWalk(log: seq<Event>, old_: Status, new_: Status)
    requires IsWalk(log, old_) && OnUpdate(log, old_, new_).Some?
    ensures IsWalk(OnUpdate(log, old_, new_).value, new_)
  {
  }

  predicate Absorbing(status: Status) {
    status in {Settled, Cancelled, Blocked}
  }

  lemma Edge(log: seq<Event>, current: Status, i: nat)
    requires IsWalk(log, current) && 0 < i < |log|
    ensures Allowed(log[i - 1].to, log[i].to)
  {
    assert log[i].from == Some(log[i - 1].to);
  }

  /** Once a walk has reached Settled, Cancelled or Blocked it stays there for ever. */
  lemma AbsorbingStays(log: seq<Event>, current: Status, i: nat)
    requires IsWalk(log, current) && i < |log| && Absorbing(log[i].to)
    ensures i == |log| - 1 && current == log[i].to
  {
    if i + 1 < |log| {
      Edge(log, current, i + 1);
      assert false;
    }
  }

  /** A walk passes from Approved to Executing at most once. */
  lemma StartsExecutingOnce(log: seq<Event>, current: Status, i: nat, j: nat)
    requires IsWalk(log, current) && i < j < |log|
    requires log[i] == Event(Some(Approved), Executing)
    ensures log[j] != Event(Some(Approved), Executing)
  {
    NeverApprovedAgain(log, current, i, j);
  }

  /** After leaving approval a payment is only ever executing, failed, settled or cancelled. */
  predicate AfterApproval(status: Status) {
    status in {Executing, Failed, Settled, Cancelled}
  }

  lemma {:induction false} NeverApprovedAgain(log: seq<Event>, current: Status, i: nat, j: nat)
    requires IsWalk(log, current) && i < j < |log| && AfterApproval(log[i].to)
    ensures AfterApproval(log[j].to) && log[j].from.Some? && AfterApproval(log[j].from.value)
    decreases j
  {
    if j > i + 1 {
      NeverApprovedAgain(log, current, i, j - 1);
    }
    assert log[j].from == Some(log[j - 1].to);
  }
}

/** One relay working through a batch with nothing in between: the statements of the step system in which
    relays, consumers and lost replies interleave do what the poll loop does
    (services/relay-worker/src/index.mjs:42-122, packages/shared/outbox.mjs:32-56). */
module DeliveryPolls {
  import opened Basics
  import opened Outbox
  import opened Delivery
  import Relay
  import DeliveryAttempts

  /** The statements about one row, with the consumer's answer in between. */
  function RowSteps(table: Table, r: RelayId, id: EventId, a: Relay.RowAnswer): seq<Step> {
    if RouteIn(table, id).None? then [Skip(r, a.marked)]
    else [Send(r), Deliver(id, a.delivered), Answer(r, a.delivered), Mark(r, a.marked), Record(r, a.at, a.recorded)]
  }

  lemma RunCons(maxRetries: int, s: State, step: Step, rest: seq<Step>)
    ensures RunAll(maxRetries, s, [step] + rest) == RunAll(maxRetries, Apply(maxRetries, s, step), rest)
  {
    assert ([step] + rest)[1..] == rest;
  }

  lemma RunOne(maxRetries: int, s: State, step: Step)
    ensures RunAll(maxRetries, s, [step]) == Apply(maxRetries, s, step)
  {
    assert [step][1..] == [];
  }

  lemma RunFive(maxRetries: int, s: State, a: Step, b: Step, c: Step, d: Step, e: Step)
    ensures RunAll(maxRetries, s, [a, b, c, d, e])
         == Apply(maxRetries, Apply(maxRetries, Apply(maxRetries, Apply(maxRetries, Apply(maxRetries, s, a), b), c), d), e)
  {
    var s1 := Apply(maxRetries, s, a);
    var s2 := Apply(maxRetries, s1, b);
    var s3 := Apply(maxRetries, s2, c);
    assert [a, b, c, d, e] == [a] + [b, c, d, e] && [b, c, d, e] == [b] + [c, d, e] && [c, d, e] == [c] + [d, e] && [d, e] == [d] + [e];
    RunCons(maxRetries, s, a, [b, c, d, e]);
    RunCons(maxRetries, s1, b, [c, d, e]);
    RunCons(maxRetries, s2, c, [d, e]);
    RunCons(maxRetries, s3, d, [e]);
    RunOne(maxRetries, Apply(maxRetries, s3, d), e);
  }

  /** A relay is about to handle the first of these rows. */
  predicate AtRow(s: State, r: RelayId, id: EventId, rest: seq<EventId>) {
    r in s.relays && s.relays[r] == Delivery.Relay([id] + rest, Next) && id < |s.table|
  }

  lemma FirstAndRest(id: EventId, rest: seq<EventId>)
    ensures ([id] + rest)[0] == id && ([id] + rest)[1..] == rest && [id] + rest != []
  {
  }

  /** Sent and, if it is delivered, consumed. */
  lemma Delivered(maxRetries: int, s: State, r: RelayId, id: EventId, rest: seq<EventId>, delivered: bool)
    requires AtRow(s, r, id, rest) && RouteIn(s.table, id).Some?
    ensures
      var s1 := Set(s.(sent := s.sent + {id}), r, [id] + rest, Waiting);
      Apply(maxRetries, Apply(maxRetries, s, Send(r)), Deliver(id, delivered))
      == if delivered then Consume(s1, id, RouteIn(s.table, id).value) else s1
  {
    FirstAndRest(id, rest);
  }

  lemma Answered(maxRetries: int, s: State, r: RelayId, id: EventId, rest: seq<EventId>, ok: bool)
    requires r in s.relays && s.relays[r] == Delivery.Relay([id] + rest, Waiting) && (ok ==> id in s.answered)
    ensures Apply(maxRetries, s, Answer(r, ok)) == Set(s, r, [id] + rest, if ok then Marking else Recording)
  {
    FirstAndRest(id, rest);
  }

  /** The rest of a row from the mark on. */
  lemma Finished(maxRetries: int, s: State, r: RelayId, id: EventId, rest: seq<EventId>, a: Relay.RowAnswer)
    requires r in s.relays && s.relays[r] == Delivery.Relay([id] + rest, if a.delivered then Marking else Recording)
    requires id < |s.table| && RouteOf(s.table[id].eventType).Some?
    ensures
      var (e, goesOn) := Relay.Processed(s.table[id], maxRetries, a);
      var s' := Apply(maxRetries, Apply(maxRetries, s, Mark(r, a.marked)), Record(r, a.at, a.recorded));
      s' == Set(s.(table := s.table[id := e]), r, if goesOn then rest else [], Next)
  {
    FirstAndRest(id, rest);
    var s1 := Apply(maxRetries, s, Mark(r, a.marked));
    if a.delivered {
      MarkRuns(maxRetries, s, r, id, rest, a.marked);
    }
    if !a.delivered || !a.marked.EffectOk? {
      RecordRuns(maxRetries, s1, r, id, rest, a.at, a.recorded);
    }
  }

  lemma MarkRuns(maxRetries: int, s: State, r: RelayId, id: EventId, rest: seq<EventId>, outcome: Outcome)
    requires r in s.relays && s.relays[r] == Delivery.Relay([id] + rest, Marking) && id < |s.table|
    ensures
      var e := if outcome.NoEffectError? then s.table[id] else Published(s.table[id]);
      Apply(maxRetries, s, Mark(r, outcome))
      == if outcome.EffectOk? then Set(s.(table := s.table[id := e]), r, rest, Next)
         else Set(s.(table := s.table[id := e]), r, [id] + rest, Recording)
  {
    FirstAndRest(id, rest);
    assert s.table[id := s.table[id]] == s.table;
  }

  lemma RecordRuns(maxRetries: int, s: State, r: RelayId, id: EventId, rest: seq<EventId>, now: int, outcome: Outcome)
    requires r in s.relays && s.relays[r] == Delivery.Relay([id] + rest, Recording) && id < |s.table|
    ensures
      var e := if outcome.NoEffectError? then s.table[id] else Attempted(s.table[id], maxRetries, now);
      Apply(maxRetries, s, Record(r, now, outcome))
      == Set(s.(table := s.table[id := e]), r, if outcome.EffectOk? then rest else [], Next)
  {
    FirstAndRest(id, rest);
    assert s.table[id := s.table[id]] == s.table;
  }

  /** What a delivery leaves at the consumer and in the records of what was sent and answered. */
  function Handed(s: State, id: EventId, delivered: bool): State
    requires RouteIn(s.table, id).Some?
  {
    var s1 := s.(sent := s.sent + {id});
    if delivered then Consume(s1, id, RouteIn(s.table, id).value) else s1
  }

  lemma SetTwice(s: State, r: RelayId, rest: seq<EventId>, pc: Pc, rest': seq<EventId>, pc': Pc)
    ensures Set(Set(s, r, rest, pc), r, rest', pc') == Set(s, r, rest', pc')
  {
    assert s.relays[r := Delivery.Relay(rest, pc)][r := Delivery.Relay(rest', pc')] == s.relays[r := Delivery.Relay(rest', pc')];
  }

  lemma RoutedRowRuns(maxRetries: int, s: State, r: RelayId, id: EventId, rest: seq<EventId>, a: Relay.RowAnswer)
    requires AtRow(s, r, id, rest) && RouteIn(s.table, id).Some?
    ensures
      var (e, goesOn) := Relay.Processed(s.table[id], maxRetries, a);
      RunAll(maxRetries, s, RowSteps(s.table, r, id, a))
      == Set(Handed(s, id, a.delivered).(table := s.table[id := e]), r, if goesOn then rest else [], Next)
  {
    RunFive(maxRetries, s, Send(r), Deliver(id, a.delivered), Answer(r, a.delivered), Mark(r, a.marked), Record(r, a.at, a.recorded));
    Delivered(maxRetries, s, r, id, rest, a.delivered);
    var s2 := Apply(maxRetries, Apply(maxRetries, s, Send(r)), Deliver(id, a.delivered));
    assert s2 == Set(Handed(s, id, a.delivered), r, [id] + rest, Waiting);
    Answered(maxRetries, s2, r, id, rest, a.delivered);
    var s3 := Apply(maxRetries, s2, Answer(r, a.delivered));
    SetTwice(Handed(s, id, a.delivered), r, [id] + rest, Waiting, [id] + rest, if a.delivered then Marking else Recording);
    Finished(maxRetries, s3, r, id, rest, a);
    var (e, goesOn) := Relay.Processed(s.table[id], maxRetries, a);
    SetTwice(Handed(s, id, a.delivered).(table := s.table[id := e]), r, [id] + rest, if a.delivered then Marking else Recording,
             if goesOn then rest else [], Next);
  }

  lemma UnroutedRowRuns(maxRetries: int, s: State, r: RelayId, id: EventId, rest: seq<EventId>, a: Relay.RowAnswer)
    requires AtRow(s, r, id, rest) && RouteIn(s.table, id).None?
    ensures
      var (e, goesOn) := Relay.Processed(s.table[id], maxRetries, a);
      RunAll(maxRetries, s, RowSteps(s.table, r, id, a)) == Set(s.(table := s.table[id := e]), r, if goesOn then rest else [], Next)
  {
    FirstAndRest(id, rest);
    RunOne(maxRetries, s, Skip(r, a.marked));
    assert s.table[id := s.table[id]] == s.table;
  }

  /** All rows of a batch, up to the first one the loop does not get past. */
  function BatchSteps(table: Table, r: RelayId, ids: seq<EventId>, maxRetries: int, answers: EventId -> Relay.RowAnswer): seq<Step>
    requires Relay.AllBelow(ids, |table|)
    decreases |ids|
  {
    if ids == [] then []
    else
      var (e, goesOn) := Relay.Processed(table[ids[0]], maxRetries, answers(ids[0]));
      RowSteps(table, r, ids[0], answers(ids[0]))
      + (if goesOn then BatchSteps(table[ids[0] := e], r, ids[1..], maxRetries, answers) else [])
  }

  /** The work of the consumers, event by event: every delivered event's once, unless the inbox has it. */
  predicate WorkDone(s: State, s': State, id: EventId, delivered: bool) {
    && s.effects <= s'.effects && s.inbox <= s'.inbox
    && (delivered && RouteIn(s.table, id).Some? ==> (id, RouteIn(s.table, id).value.consumer) in s'.inbox)
  }

  lemma RowRuns(maxRetries: int, s: State, r: RelayId, id: EventId, rest: seq<EventId>, a: Relay.RowAnswer)
    requires AtRow(s, r, id, rest)
    ensures
      var (e, goesOn) := Relay.Processed(s.table[id], maxRetries, a);
      var s' := RunAll(maxRetries, s, RowSteps(s.table, r, id, a));
      && s'.table == s.table[id := e] && r in s'.relays
      && s'.relays[r] == Delivery.Relay(if goesOn then rest else [], Next)
      && WorkDone(s, s', id, a.delivered)
  {
    if RouteIn(s.table, id).Some? {
      RoutedRowRuns(maxRetries, s, r, id, rest, a);
    } else {
      UnroutedRowRuns(maxRetries, s, r, id, rest, a);
    }
  }

  /** A batch that no other relay and no crash interrupts leaves the table of the poll loop, and every
      routed event that was delivered has been worked on. */
  lemma {:induction false} BatchRuns(
      maxRetries: int, s: State, r: RelayId, ids: seq<EventId>, answers: EventId -> Relay.RowAnswer)
    requires r in s.relays && s.relays[r] == Delivery.Relay(ids, Next) && Relay.AllBelow(ids, |s.table|)
    ensures
      var s' := RunAll(maxRetries, s, BatchSteps(s.table, r, ids, maxRetries, answers));
      && s'.table == Relay.Dispatch(s.table, ids, maxRetries, answers).0
      && r in s'.relays && s'.relays[r] == Delivery.Relay([], Next)
      && s.effects <= s'.effects && s.inbox <= s'.inbox
    decreases |ids|
  {
    if ids != [] {
      var id, rest := ids[0], ids[1..];
      assert ids == [id] + rest;
      var (e, goesOn) := Relay.Processed(s.table[id], maxRetries, answers(id));
      RowRuns(maxRetries, s, r, id, rest, answers(id));
      if goesOn {
        var s1 := RunAll(maxRetries, s, RowSteps(s.table, r, id, answers(id)));
        BatchRuns(maxRetries, s1, r, rest, answers);
        DeliveryAttempts.RunConcat(maxRetries, s, RowSteps(s.table, r, id, answers(id)), BatchSteps(s1.table, r, rest, maxRetries, answers));
      } else {
        assert RowSteps(s.table, r, id, answers(id)) + [] == RowSteps(s.table, r, id, answers(id));
      }
    }
  }

  lemma BatchIsPickable(table: Table, now: int)
    ensures Pickable(table, Relay.Batch(table, now), now) && Relay.AllBelow(Relay.Batch(table, now), |table|)
  {
    Relay.DueFromIsDue(table, now, 0, Relay.BATCH_SIZE);
  }

  /** A relay that is free: its poll and the statements of its batch do to the table what the poll loop does. */
  lemma PollRuns(maxRetries: int, s: State, r: RelayId, c: Relay.Cycle)
    requires r !in s.relays || s.relays[r].rest == []
    requires c.appended == []
    ensures
      var batch := Relay.Batch(s.table, c.now);
      && Relay.AllBelow(batch, |s.table|)
      && var s' := RunAll(maxRetries, s, [Poll(r, batch, c.now)] + BatchSteps(s.table, r, batch, maxRetries, c.answers));
      && s'.table == Relay.After(s.table, maxRetries, c)
      && s.effects <= s'.effects
  {
    var batch := Relay.Batch(s.table, c.now);
    BatchIsPickable(s.table, c.now);
    var s1 := Apply(maxRetries, s, Poll(r, batch, c.now));
    RunCons(maxRetries, s, Poll(r, batch, c.now), BatchSteps(s.table, r, batch, maxRetries, c.answers));
    BatchRuns(maxRetries, s1, r, batch, c.answers);
    assert Relay.Before(s.table, c) == s.table;
  }

  /** A relay polls only between batches, sends only events that have a route, and one that dies leaves the
      tables as they are. */
  lemma RelaysActInTurn(maxRetries: int, s: State, r: RelayId, picked: seq<EventId>, now: int, id: EventId)
    ensures r in s.relays && s.relays[r].rest != [] ==> Apply(maxRetries, s, Poll(r, picked, now)) == s
    ensures id in Apply(maxRetries, s, Send(r)).sent ==> id in s.sent || RouteIn(s.table, id).Some?
    ensures
      var s' := Apply(maxRetries, s, Crash(r));
      && s'.(relays := s.relays) == s && r !in s'.relays
      && forall q :: q in s.relays && q != r ==> q in s'.relays && s'.relays[q] == s.relays[q]
  {
  }
}

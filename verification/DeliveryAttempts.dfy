/** How often several relays may attempt one event: `recordDeliveryAttempt` updates the row whatever
    its state, so relays holding a copy of a dead-lettered row still count attempts on it
    (services/relay-worker/src/index.mjs:79-122). */
module DeliveryAttempts {
  import opened Basics
  import opened Outbox
  import opened Delivery

  function Holders(s: State, id: EventId): set<RelayId> {
    set r | r in s.relays && id in s.relays[r].rest
  }

  predicate RelaysBelow(s: State, relayCount: nat) {
    forall r :: r in s.relays ==> r < relayCount && NoRepeats(s.relays[r].rest)
  }

  predicate EventBound(maxRetries: int, relayCount: nat, e: Event, holders: nat) {
    if e.deadLettered then e.attempts + holders <= Cap(maxRetries) - 1 + relayCount else e.attempts <= Cap(maxRetries) - 1
  }

  predicate Bounded(maxRetries: int, relayCount: nat, s: State) {
    && RelaysBelow(s, relayCount)
    && forall id :: 0 <= id < |s.table| ==> EventBound(maxRetries, relayCount, s.table[id], |Holders(s, id)|)
  }

  lemma {:induction false} BelowCount(holders: set<RelayId>, n: nat)
    requires forall r :: r in holders ==> r < n
    ensures |holders| <= n
  {
    if n == 0 {
      assert holders == {};
    } else {
      BelowCount(holders - {n - 1}, n - 1);
      SubsetIsSmaller(holders, (holders - {n - 1}) + {n - 1});
    }
  }

  /** Changing what relays hold, without giving anyone a dead-lettered row, keeps the bound. */
  lemma HoldingLessKeepsBound(maxRetries: int, relayCount: nat, s: State, s': State)
    requires Bounded(maxRetries, relayCount, s) && RelaysBelow(s', relayCount) && s'.table == s.table
    requires forall id :: 0 <= id < |s.table| && s.table[id].deadLettered ==> Holders(s', id) <= Holders(s, id)
    ensures Bounded(maxRetries, relayCount, s')
  {
    forall id | 0 <= id < |s'.table|
      ensures EventBound(maxRetries, relayCount, s'.table[id], |Holders(s', id)|)
    {
      assert EventBound(maxRetries, relayCount, s.table[id], |Holders(s, id)|);
      if s.table[id].deadLettered {
        SubsetIsSmaller(Holders(s', id), Holders(s, id));
      }
    }
  }

  lemma SetKeepsBound(maxRetries: int, relayCount: nat, s: State, r: RelayId, rest: seq<EventId>, pc: Pc)
    requires Bounded(maxRetries, relayCount, s) && r in s.relays && NoRepeats(rest)
    requires forall id :: id in rest ==> id in s.relays[r].rest
    ensures Bounded(maxRetries, relayCount, Set(s, r, rest, pc))
  {
    var s' := Set(s, r, rest, pc);
    assert forall id :: Holders(s', id) <= Holders(s, id);
    HoldingLessKeepsBound(maxRetries, relayCount, s, s');
  }

  /** An attempt is counted as its relay lets go of the row. */
  lemma AttemptKeepsBound(maxRetries: int, relayCount: nat, s: State, r: RelayId, now: int, rest: seq<EventId>)
    requires Bounded(maxRetries, relayCount, s) && r in s.relays && s.relays[r].rest != []
    requires rest == s.relays[r].rest[1..] || rest == []
    ensures Bounded(maxRetries, relayCount, Set(Attempt(s, Current(s, r), maxRetries, now), r, rest, Next))
  {
    var id := Current(s, r);
    var s' := Set(Attempt(s, id, maxRetries, now), r, rest, Next);
    assert NoRepeats(s.relays[r].rest);
    assert id !in rest;
    forall other | 0 <= other < |s'.table|
      ensures EventBound(maxRetries, relayCount, s'.table[other], |Holders(s', other)|)
    {
      assert EventBound(maxRetries, relayCount, s.table[other], |Holders(s, other)|);
      if other == id {
        LetGo(relayCount, s, s', r, id);
      } else {
        SubsetIsSmaller(Holders(s', other), Holders(s, other));
      }
    }
  }

  lemma LetGo(relayCount: nat, s: State, s': State, r: RelayId, id: EventId)
    requires RelaysBelow(s, relayCount) && r in s.relays && id in s.relays[r].rest
    requires Holders(s', id) <= Holders(s, id) && r !in Holders(s', id)
    ensures |Holders(s', id)| <= |Holders(s, id)| - 1 && |Holders(s', id)| <= relayCount - 1
  {
    assert r in Holders(s, id);
    SubsetIsSmaller(Holders(s', id), Holders(s, id) - {r});
    BelowCount(Holders(s, id), relayCount);
  }

  lemma PollKeepsBound(maxRetries: int, relayCount: nat, s: State, r: RelayId, picked: seq<EventId>, now: int)
    requires Bounded(maxRetries, relayCount, s) && r < relayCount && Pickable(s.table, picked, now)
    ensures Bounded(maxRetries, relayCount, Set(s, r, picked, Next))
  {
    HoldingLessKeepsBound(maxRetries, relayCount, s, Set(s, r, picked, Next));
  }

  /** Only relays with these ids ever poll. */
  predicate PollsBelow(step: Step, relayCount: nat) {
    step.Poll? ==> step.relay < relayCount
  }

  predicate AllPollsBelow(steps: seq<Step>, relayCount: nat) {
    forall i :: 0 <= i < |steps| ==> PollsBelow(steps[i], relayCount)
  }

  lemma StatementKeepsBound(maxRetries: int, relayCount: nat, s: State, step: Step)
    requires Bounded(maxRetries, relayCount, s) && (step.Skip? || step.Mark? || step.Record?)
    ensures Bounded(maxRetries, relayCount, Apply(maxRetries, s, step))
  {
    var r := step.relay;
    if r in s.relays && s.relays[r].rest != [] {
      var rest := s.relays[r].rest;
      assert NoRepeats(rest) && NoRepeats(rest[1..]) && NoRepeats(rest[..0]);
      assert rest[..0] == [];
      if step.Record? {
        AttemptKeepsBound(maxRetries, relayCount, s, r, step.now, if step.outcome.EffectOk? then rest[1..] else []);
        SetKeepsBound(maxRetries, relayCount, s, r, [], Next);
      } else {
        var s' := if step.outcome.NoEffectError? then s else Publish(s, Current(s, r));
        SetKeepsBound(maxRetries, relayCount, s', r, rest[1..], Next);
        SetKeepsBound(maxRetries, relayCount, s', r, rest, Recording);
        SetKeepsBound(maxRetries, relayCount, s', r, [], Next);
      }
    }
  }

  lemma StepKeepsBound(maxRetries: int, relayCount: nat, s: State, step: Step)
    requires Bounded(maxRetries, relayCount, s) && PollsBelow(step, relayCount)
    ensures Bounded(maxRetries, relayCount, Apply(maxRetries, s, step))
  {
    var s' := Apply(maxRetries, s, step);
    match step
    case Append(eventTypes) =>
    case Poll(r, picked, now) =>
      if Pickable(s.table, picked, now) {
        PollKeepsBound(maxRetries, relayCount, s, r, picked, now);
      }
    case Send(r) => SentKeepsBound(maxRetries, relayCount, s, r);
    case Answer(r, ok) =>
      if At(s, r, Waiting) {
        assert NoRepeats(s.relays[r].rest);
        SetKeepsBound(maxRetries, relayCount, s, r, s.relays[r].rest, Marking);
        SetKeepsBound(maxRetries, relayCount, s, r, s.relays[r].rest, Recording);
      }
    case Deliver(id, commits) => HoldingLessKeepsBound(maxRetries, relayCount, s, s');
    case Crash(r) => HoldingLessKeepsBound(maxRetries, relayCount, s, s');
    case _ => StatementKeepsBound(maxRetries, relayCount, s, step);
  }

  lemma SentKeepsBound(maxRetries: int, relayCount: nat, s: State, r: RelayId)
    requires Bounded(maxRetries, relayCount, s)
    ensures Bounded(maxRetries, relayCount, Apply(maxRetries, s, Send(r)))
  {
    if At(s, r, Next) {
      assert NoRepeats(s.relays[r].rest);
      var s' := s.(sent := s.sent + {Current(s, r)});
      HoldingLessKeepsBound(maxRetries, relayCount, s, s');
      SetKeepsBound(maxRetries, relayCount, s', r, s.relays[r].rest, Waiting);
    }
  }

  lemma {:induction false} RunsKeepBound(maxRetries: int, relayCount: nat, s: State, steps: seq<Step>)
    requires Bounded(maxRetries, relayCount, s) && AllPollsBelow(steps, relayCount)
    ensures Bounded(maxRetries, relayCount, RunAll(maxRetries, s, steps))
    decreases |steps|
  {
    if steps != [] {
      StepKeepsBound(maxRetries, relayCount, s, steps[0]);
      RunsKeepBound(maxRetries, relayCount, Apply(maxRetries, s, steps[0]), steps[1..]);
    }
  }

  /** No event of the table the steps lead to was attempted more often than this. */
  predicate AttemptsAtMost(maxRetries: int, steps: seq<Step>, bound: int) {
    var table := RunAll(maxRetries, Empty, steps).table;
    forall id :: 0 <= id < |table| ==> table[id].attempts <= bound
  }

  /** With R relays no event is attempted more than max(MAX_RETRIES, 1) + R - 1 times; with one relay
      never more than max(MAX_RETRIES, 1). */
  lemma AttemptsBounded(maxRetries: int, relayCount: nat, steps: seq<Step>)
    requires relayCount >= 1 && AllPollsBelow(steps, relayCount)
    ensures AttemptsAtMost(maxRetries, steps, Cap(maxRetries) + relayCount - 1)
  {
    RunsKeepBound(maxRetries, relayCount, Empty, steps);
    var s := RunAll(maxRetries, Empty, steps);
    forall id | 0 <= id < |s.table|
      ensures s.table[id].attempts <= Cap(maxRetries) + relayCount - 1
    {
      assert EventBound(maxRetries, relayCount, s.table[id], |Holders(s, id)|);
    }
  }

  // ---------------------------------------------------------------- the bound is reached

  /** The first n relays all read the event and send it off. */
  function PollAll(n: nat, now: int): seq<Step> {
    if n == 0 then [] else PollAll(n - 1, now) + [Poll(n - 1, [0], now), Send(n - 1)]
  }

  /** And then each of them is refused, and counts its attempt. */
  function FailAll(n: nat, now: int): seq<Step> {
    if n == 0 then [] else FailAll(n - 1, now) + [Answer(n - 1, false), Record(n - 1, now, EffectOk)]
  }

  /** What n relays holding one copy of the row make of it. */
  function AttemptedBy(n: nat, e: Event, maxRetries: int, now: int): (r: Event)
    ensures r.eventType == e.eventType && r.published == e.published && r.attempts == e.attempts + n
  {
    if n == 0 then e else Attempted(AttemptedBy(n - 1, e, maxRetries, now), maxRetries, now)
  }

  predicate Idle(s: State, r: RelayId) {
    r in s.relays ==> s.relays[r].rest == []
  }

  /** Only the relays from `low` to `high` are busy, each waiting for the answer about the event. */
  ghost predicate WaitingBetween(s: State, low: nat, high: nat) {
    forall r: RelayId :: if low <= r < high then r in s.relays && s.relays[r] == Relay([0], Waiting) else Idle(s, r)
  }

  lemma RunTwo(maxRetries: int, s: State, steps: seq<Step>, a: Step, b: Step)
    ensures RunAll(maxRetries, s, steps + [a, b]) == Apply(maxRetries, Apply(maxRetries, RunAll(maxRetries, s, steps), a), b)
  {
    RunConcat(maxRetries, s, steps, [a, b]);
    var s' := RunAll(maxRetries, s, steps);
    assert [a, b][1..] == [b] && [b][1..] == [];
    assert RunAll(maxRetries, s', [a, b]) == RunAll(maxRetries, Apply(maxRetries, s', a), [b]);
    assert RunAll(maxRetries, Apply(maxRetries, s', a), [b]) == RunAll(maxRetries, Apply(maxRetries, Apply(maxRetries, s', a), b), []);
  }

  lemma PollAndSend(maxRetries: int, s: State, r: RelayId, now: int)
    requires |s.table| == 1 && Due(s.table[0], now) && RouteIn(s.table, 0).Some? && WaitingBetween(s, 0, r)
    ensures
      var s' := Apply(maxRetries, Apply(maxRetries, s, Poll(r, [0], now)), Send(r));
      s'.table == s.table && WaitingBetween(s', 0, r + 1)
  {
    assert Idle(s, r);
    var s1 := Set(s, r, [0], Next);
    assert Apply(maxRetries, s, Poll(r, [0], now)) == s1;
    var s' := Apply(maxRetries, s1, Send(r));
    assert s'.relays == s.relays[r := Relay([0], Waiting)];
    forall q: RelayId | q != r ensures Idle(s, q) ==> Idle(s', q) {}
  }

  lemma FailAndRecord(maxRetries: int, s: State, e: Event, r: RelayId, high: nat, now: int)
    requires s.table == [AttemptedBy(r, e, maxRetries, now)] && WaitingBetween(s, r, high) && r < high
    ensures
      var s' := Apply(maxRetries, Apply(maxRetries, s, Answer(r, false)), Record(r, now, EffectOk));
      s'.table == [AttemptedBy(r + 1, e, maxRetries, now)] && WaitingBetween(s', r + 1, high)
  {
    var s1 := Set(s, r, [0], Recording);
    assert Apply(maxRetries, s, Answer(r, false)) == s1;
    var s' := Apply(maxRetries, s1, Record(r, now, EffectOk));
    assert [0][1..] == [];
    assert s'.relays == s.relays[r := Relay([], Next)];
    forall q: RelayId | q != r ensures Idle(s, q) ==> Idle(s', q) {}
  }

  lemma {:induction false} AllPoll(maxRetries: int, s: State, n: nat, now: int)
    requires |s.table| == 1 && Due(s.table[0], now) && RouteIn(s.table, 0).Some? && WaitingBetween(s, 0, 0)
    ensures
      var s' := RunAll(maxRetries, s, PollAll(n, now));
      s'.table == s.table && WaitingBetween(s', 0, n)
  {
    if n > 0 {
      AllPoll(maxRetries, s, n - 1, now);
      PollAndSend(maxRetries, RunAll(maxRetries, s, PollAll(n - 1, now)), n - 1, now);
      RunTwo(maxRetries, s, PollAll(n - 1, now), Poll(n - 1, [0], now), Send(n - 1));
    }
  }

  lemma {:induction false} AllFail(maxRetries: int, s: State, n: nat, high: nat, now: int)
    requires |s.table| == 1 && WaitingBetween(s, 0, high) && n <= high
    ensures
      var s' := RunAll(maxRetries, s, FailAll(n, now));
      s'.table == [AttemptedBy(n, s.table[0], maxRetries, now)] && WaitingBetween(s', n, high)
  {
    if n > 0 {
      AllFail(maxRetries, s, n - 1, high, now);
      FailAndRecord(maxRetries, RunAll(maxRetries, s, FailAll(n - 1, now)), s.table[0], n - 1, high, now);
      RunTwo(maxRetries, s, FailAll(n - 1, now), Answer(n - 1, false), Record(n - 1, now, EffectOk));
    }
  }

  /** One round: the first n relays fail to deliver the event together. */
  function Round(n: nat, now: int): seq<Step> {
    PollAll(n, now) + FailAll(n, now)
  }

  lemma RoundCounts(maxRetries: int, s: State, n: nat, now: int)
    requires |s.table| == 1 && Due(s.table[0], now) && RouteIn(s.table, 0).Some? && WaitingBetween(s, 0, 0)
    ensures
      var s' := RunAll(maxRetries, s, Round(n, now));
      s'.table == [AttemptedBy(n, s.table[0], maxRetries, now)] && WaitingBetween(s', 0, 0)
  {
    AllPoll(maxRetries, s, n, now);
    AllFail(maxRetries, RunAll(maxRetries, s, PollAll(n, now)), n, n, now);
    RunConcat(maxRetries, s, PollAll(n, now), FailAll(n, now));
  }

  /** An event is appended, and relay 0 fails to deliver it k times, polling once a minute. */
  function Failures(k: nat): seq<Step> {
    if k == 0 then [Append(["audit.event_recorded"])] else Failures(k - 1) + Round(1, (k - 1) * BACKOFF_CAP_MS)
  }

  lemma {:induction false} FailuresCount(maxRetries: int, k: nat)
    requires k < Cap(maxRetries)
    ensures
      var s := RunAll(maxRetries, Empty, Failures(k));
      && |s.table| == 1 && s.table[0].attempts == k && Due(s.table[0], k * BACKOFF_CAP_MS)
      && RouteIn(s.table, 0).Some? && WaitingBetween(s, 0, 0)
  {
    if k == 0 {
      assert [Append(["audit.event_recorded"])][1..] == [];
    } else {
      FailuresCount(maxRetries, k - 1);
      var s, now := RunAll(maxRetries, Empty, Failures(k - 1)), (k - 1) * BACKOFF_CAP_MS;
      RoundCounts(maxRetries, s, 1, now);
      assert AttemptedBy(1, s.table[0], maxRetries, now) == Attempted(AttemptedBy(0, s.table[0], maxRetries, now), maxRetries, now);
      RunConcat(maxRetries, Empty, Failures(k - 1), Round(1, now));
    }
  }

  /** One attempt short of the limit, all the relays read the event before any of them counts. */
  function WorstRun(maxRetries: int, relayCount: nat): seq<Step> {
    var k := Cap(maxRetries) - 1;
    Failures(k) + Round(relayCount, k * BACKOFF_CAP_MS)
  }

  lemma {:induction false} RoundPollsBelow(n: nat, now: int)
    ensures AllPollsBelow(PollAll(n, now), n) && AllPollsBelow(FailAll(n, now), n) && AllPollsBelow(Round(n, now), n)
  {
    if n > 0 {
      RoundPollsBelow(n - 1, now);
    }
  }

  lemma {:induction false} FailuresPollBelow(k: nat)
    ensures AllPollsBelow(Failures(k), 1)
  {
    if k > 0 {
      FailuresPollBelow(k - 1);
      RoundPollsBelow(1, (k - 1) * BACKOFF_CAP_MS);
    }
  }

  lemma WorstRunPollsBelow(maxRetries: int, relayCount: nat)
    requires relayCount >= 1
    ensures AllPollsBelow(WorstRun(maxRetries, relayCount), relayCount)
  {
    var k := Cap(maxRetries) - 1;
    FailuresPollBelow(k);
    RoundPollsBelow(relayCount, k * BACKOFF_CAP_MS);
  }

  lemma BoundIsReached(maxRetries: int, relayCount: nat)
    requires relayCount >= 1
    ensures AllPollsBelow(WorstRun(maxRetries, relayCount), relayCount)
    ensures
      var table := RunAll(maxRetries, Empty, WorstRun(maxRetries, relayCount)).table;
      |table| == 1 && table[0].attempts == Cap(maxRetries) + relayCount - 1
  {
    var k := Cap(maxRetries) - 1;
    WorstRunPollsBelow(maxRetries, relayCount);
    FailuresCount(maxRetries, k);
    RoundCounts(maxRetries, RunAll(maxRetries, Empty, Failures(k)), relayCount, k * BACKOFF_CAP_MS);
    RunConcat(maxRetries, Empty, Failures(k), Round(relayCount, k * BACKOFF_CAP_MS));
  }

  /** The exact bound: R relays keep the attempts within a number if and only if it is at least
      max(MAX_RETRIES, 1) + R - 1. */
  lemma AttemptsAtMostExactlyWhen(maxRetries: int, relayCount: nat, bound: int)
    requires relayCount >= 1
    ensures (forall steps | AllPollsBelow(steps, relayCount) :: AttemptsAtMost(maxRetries, steps, bound))
       <==> bound >= Cap(maxRetries) + relayCount - 1
  {
    if bound >= Cap(maxRetries) + relayCount - 1 {
      forall steps | AllPollsBelow(steps, relayCount)
        ensures AttemptsAtMost(maxRetries, steps, bound)
      {
        AttemptsBounded(maxRetries, relayCount, steps);
      }
    } else {
      BoundIsReached(maxRetries, relayCount);
      assert !AttemptsAtMost(maxRetries, WorstRun(maxRetries, relayCount), bound);
    }
  }

  /** So the limit of attempts holds over every run if and only if no more than one relay polls. */
  lemma LimitHoldsExactlyForOneRelay(maxRetries: int, relayCount: nat)
    ensures (forall steps | AllPollsBelow(steps, relayCount) :: AttemptsAtMost(maxRetries, steps, Cap(maxRetries)))
       <==> relayCount <= 1
  {
    if relayCount == 0 {
      forall steps | AllPollsBelow(steps, 0)
        ensures AttemptsAtMost(maxRetries, steps, Cap(maxRetries))
      {
        assert AllPollsBelow(steps, 1);
        AttemptsBounded(maxRetries, 1, steps);
      }
    } else {
      AttemptsAtMostExactlyWhen(maxRetries, relayCount, Cap(maxRetries));
    }
  }

  lemma RunConcat(maxRetries: int, s: State, first: seq<Step>, then_: seq<Step>)
    ensures RunAll(maxRetries, s, first + then_) == RunAll(maxRetries, RunAll(maxRetries, s, first), then_)
    decreases |first|
  {
    if first == [] {
      assert first + then_ == then_;
    } else {
      assert (first + then_)[0] == first[0] && (first + then_)[1..] == first[1..] + then_;
      RunConcat(maxRetries, Apply(maxRetries, s, first[0]), first[1..], then_);
    }
  }
}

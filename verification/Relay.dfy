/** The poll loop of one relay (services/relay-worker/src/index.mjs:42-122): what a poll does, why
    polls drain a finite outbox, and how long an event can be passed over. */
module Relay {
  import opened Basics
  import opened Outbox

  const BATCH_SIZE := 20

  /** How the statements about one row end: the delivery, marking it published, recording the attempt.
      A crash is a statement with no effect after which the poll is abandoned. */
  datatype RowAnswer = RowAnswer(delivered: bool, marked: Outcome, recorded: Outcome, at: int)

  /** The oldest due events, at most `limit`, from a place on. */
  function DueFrom(table: Table, now: int, i: nat, limit: nat): seq<EventId>
    requires i <= |table|
    decreases |table| - i
  {
    if i == |table| || limit == 0 then []
    else if Due(table[i], now) then [i] + DueFrom(table, now, i + 1, limit - 1)
    else DueFrom(table, now, i + 1, limit)
  }

  function Batch(table: Table, now: int): seq<EventId> {
    DueFrom(table, now, 0, BATCH_SIZE)
  }

  /** What happens to one event of the batch, and whether the loop goes on. */
  function Processed(e: Event, maxRetries: int, a: RowAnswer): (Event, bool) {
    if RouteOf(e.eventType).None? then (if a.marked.NoEffectError? then e else Published(e), a.marked.EffectOk?)
    else if a.delivered && a.marked.EffectOk? then (Published(e), true)
    else
      var e' := if a.delivered && a.marked.EffectError? then Published(e) else e;
      (if a.recorded.NoEffectError? then e' else Attempted(e', maxRetries, a.at), a.recorded.EffectOk?)
  }

  predicate AllBelow(ids: seq<EventId>, n: nat) {
    forall i :: 0 <= i < |ids| ==> ids[i] < n
  }

  /** The rest of the loop: the table afterwards, and whether the poll ran to its end. */
  function Dispatch(table: Table, ids: seq<EventId>, maxRetries: int, answers: EventId -> RowAnswer): (Table, bool)
    requires AllBelow(ids, |table|)
    decreases |ids|
  {
    if ids == [] then (table, true)
    else
      var (e, goesOn) := Processed(table[ids[0]], maxRetries, answers(ids[0]));
      var table' := table[ids[0] := e];
      if goesOn then Dispatch(table', ids[1..], maxRetries, answers) else (table', false)
  }

  // ---------------------------------------------------------------- the batch

  predicate Increasing(ids: seq<EventId>) {
    forall i, j :: 0 <= i < j < |ids| ==> ids[i] < ids[j]
  }

  lemma {:induction false} DueFromIsDue(table: Table, now: int, i: nat, limit: nat)
    requires i <= |table|
    ensures Increasing(DueFrom(table, now, i, limit)) && |DueFrom(table, now, i, limit)| <= limit
    ensures forall k :: 0 <= k < |DueFrom(table, now, i, limit)| ==>
      i <= DueFrom(table, now, i, limit)[k] < |table| && Due(table[DueFrom(table, now, i, limit)[k]], now)
    decreases |table| - i
  {
    if i < |table| && limit > 0 {
      DueFromIsDue(table, now, i + 1, if Due(table[i], now) then limit - 1 else limit);
      if Due(table[i], now) {
        var rest := DueFrom(table, now, i + 1, limit - 1);
        assert forall k :: 0 < k < |[i] + rest| ==> ([i] + rest)[k] == rest[k - 1];
      }
    }
  }

  /** A due event left out of a batch has a full batch of older events before it. */
  lemma {:induction false} LeftOutBehindFullBatch(table: Table, now: int, i: nat, limit: nat, id: EventId)
    requires i <= id < |table| && Due(table[id], now) && id !in DueFrom(table, now, i, limit)
    ensures |DueFrom(table, now, i, limit)| == limit
    ensures AllBelow(DueFrom(table, now, i, limit), id)
    decreases |table| - i
  {
    if limit > 0 {
      LeftOutBehindFullBatch(table, now, i + 1, if Due(table[i], now) then limit - 1 else limit, id);
    }
  }

  lemma {:induction false} SomeDueSomePicked(table: Table, now: int, i: nat, limit: nat, id: EventId)
    requires i <= id < |table| && Due(table[id], now) && limit > 0
    ensures DueFrom(table, now, i, limit) != []
    decreases |table| - i
  {
    if !Due(table[i], now) {
      SomeDueSomePicked(table, now, i + 1, limit, id);
    }
  }

  // ---------------------------------------------------------------- remaining attempts

  predicate EventWithin(maxRetries: int, e: Event) {
    e.attempts <= Cap(maxRetries) && (Live(e) ==> e.attempts < Cap(maxRetries))
  }

  /** No event has more attempts than allowed, and a live one has some left. */
  predicate Within(maxRetries: int, table: Table) {
    forall i :: 0 <= i < |table| ==> EventWithin(maxRetries, table[i])
  }

  function Left(maxRetries: int, e: Event): nat
    requires EventWithin(maxRetries, e)
  {
    if Live(e) then Cap(maxRetries) - e.attempts else 0
  }

  /** Remaining attempts of the n oldest events. */
  function Remaining(maxRetries: int, table: Table, n: nat): nat
    requires n <= |table| && Within(maxRetries, table)
  {
    if n == 0 then 0 else Remaining(maxRetries, table, n - 1) + Left(maxRetries, table[n - 1])
  }

  lemma {:induction false} RemainingAfterWrite(maxRetries: int, table: Table, id: EventId, e: Event, n: nat)
    requires id < |table| && n <= |table| && Within(maxRetries, table) && EventWithin(maxRetries, e)
    ensures Within(maxRetries, table[id := e])
    ensures
      Remaining(maxRetries, table[id := e], n)
      == Remaining(maxRetries, table, n) + (if id < n then Left(maxRetries, e) - Left(maxRetries, table[id]) else 0)
  {
    var table' := table[id := e];
    assert forall i :: 0 <= i < |table'| ==> EventWithin(maxRetries, table'[i]);
    if n > 0 {
      RemainingAfterWrite(maxRetries, table, id, e, n - 1);
    }
  }

  predicate AllLive(table: Table, ids: seq<EventId>) {
    forall i :: 0 <= i < |ids| ==> ids[i] < |table| && Live(table[ids[i]])
  }

  /** A completed loop uses up at least one attempt per event of the batch. */
  lemma {:induction false} DispatchSpends(maxRetries: int, table: Table, ids: seq<EventId>, answers: EventId -> RowAnswer, n: nat)
    requires Within(maxRetries, table) && Increasing(ids) && AllLive(table, ids) && n <= |table|
    ensures
      var (table', completed) := Dispatch(table, ids, maxRetries, answers);
      && |table'| == |table| && Within(maxRetries, table')
      && Remaining(maxRetries, table', n) <= Remaining(maxRetries, table, n)
      && (completed && AllBelow(ids, n) ==>
            Remaining(maxRetries, table', n) + |ids| <= Remaining(maxRetries, table, n))
    decreases |ids|
  {
    if ids != [] {
      var (e, goesOn) := Processed(table[ids[0]], maxRetries, answers(ids[0]));
      assert Live(table[ids[0]]);
      RemainingAfterWrite(maxRetries, table, ids[0], e, n);
      if goesOn {
        var table' := table[ids[0] := e];
        DispatchSpends(maxRetries, table', ids[1..], answers, n);
      }
    }
  }

  // ---------------------------------------------------------------- polls

  /** Events appended since the previous poll, the time of this one, and how its statements end. */
  datatype Cycle = Cycle(appended: seq<string>, now: int, answers: EventId -> RowAnswer)

  function Before(table: Table, c: Cycle): Table {
    AppendAll(table, c.appended)
  }

  function Poll(table: Table, maxRetries: int, c: Cycle): (Table, bool) {
    DueFromIsDue(Before(table, c), c.now, 0, BATCH_SIZE);
    Dispatch(Before(table, c), Batch(Before(table, c), c.now), maxRetries, c.answers)
  }

  function After(table: Table, maxRetries: int, c: Cycle): Table {
    Poll(table, maxRetries, c).0
  }

  function RunAll(table: Table, maxRetries: int, cycles: seq<Cycle>): Table
    decreases |cycles|
  {
    if cycles == [] then table else RunAll(After(table, maxRetries, cycles[0]), maxRetries, cycles[1..])
  }

  lemma {:induction false} RemainingOfPrefix(maxRetries: int, table: Table, longer: Table, n: nat)
    requires table <= longer && n <= |table| && Within(maxRetries, longer) && Within(maxRetries, table)
    ensures Remaining(maxRetries, longer, n) == Remaining(maxRetries, table, n)
  {
    if n > 0 {
      RemainingOfPrefix(maxRetries, table, longer, n - 1);
    }
  }

  lemma BatchIsLive(table: Table, now: int)
    ensures Increasing(Batch(table, now)) && AllLive(table, Batch(table, now))
  {
    DueFromIsDue(table, now, 0, BATCH_SIZE);
    forall i | 0 <= i < |Batch(table, now)|
      ensures Batch(table, now)[i] < |table| && Live(table[Batch(table, now)[i]])
    {
    }
  }

  lemma PollSpends(maxRetries: int, table: Table, c: Cycle, n: nat)
    requires Within(maxRetries, table) && n <= |table|
    ensures
      var before, after := Before(table, c), After(table, maxRetries, c);
      && |after| == |before| >= |table| && Within(maxRetries, after)
      && Remaining(maxRetries, after, n) <= Remaining(maxRetries, table, n)
      && (Poll(table, maxRetries, c).1 && AllBelow(Batch(before, c.now), n) ==>
            Remaining(maxRetries, after, n) + |Batch(before, c.now)| <= Remaining(maxRetries, table, n))
  {
    var before := Before(table, c);
    BatchIsLive(before, c.now);
    DispatchSpends(maxRetries, before, Batch(before, c.now), c.answers, n);
    RemainingOfPrefix(maxRetries, table, before, n);
  }

  /** No event is ever attempted more than max(MAX_RETRIES, 1) times. */
  lemma {:induction false} AttemptsWithin(maxRetries: int, table: Table, cycles: seq<Cycle>)
    requires Within(maxRetries, table)
    ensures Within(maxRetries, RunAll(table, maxRetries, cycles))
    decreases |cycles|
  {
    if cycles != [] {
      PollSpends(maxRetries, table, cycles[0], 0);
      AttemptsWithin(maxRetries, After(table, maxRetries, cycles[0]), cycles[1..]);
    }
  }

  /** The remaining attempts are a termination measure: a completed poll that found work lowers them. */
  lemma PollMakesProgress(maxRetries: int, table: Table, c: Cycle)
    requires Within(maxRetries, table) && c.appended == [] && Poll(table, maxRetries, c).1 && Batch(table, c.now) != []
    ensures
      var after := After(table, maxRetries, c);
      && |after| == |table| && Within(maxRetries, after)
      && Remaining(maxRetries, after, |table|) < Remaining(maxRetries, table, |table|)
  {
    assert Before(table, c) == table;
    DueFromIsDue(table, c.now, 0, BATCH_SIZE);
    PollSpends(maxRetries, table, c, |table|);
  }

  // ---------------------------------------------------------------- starvation

  /** A completed poll that leaves out an event that was due. */
  predicate PassesOver(table: Table, maxRetries: int, c: Cycle, id: EventId) {
    && id < |table|
    && Poll(table, maxRetries, c).1
    && Due(Before(table, c)[id], c.now)
    && id !in Batch(Before(table, c), c.now)
  }

  function TimesPassedOver(table: Table, maxRetries: int, cycles: seq<Cycle>, id: EventId): nat
    decreases |cycles|
  {
    if cycles == [] then 0
    else
      (if PassesOver(table, maxRetries, cycles[0], id) then 1 else 0)
      + TimesPassedOver(After(table, maxRetries, cycles[0]), maxRetries, cycles[1..], id)
  }

  lemma {:induction false} PassesSpend(table: Table, maxRetries: int, cycles: seq<Cycle>, id: EventId)
    requires Within(maxRetries, table) && id < |table|
    ensures BATCH_SIZE * TimesPassedOver(table, maxRetries, cycles, id) <= Remaining(maxRetries, table, id)
    decreases |cycles|
  {
    if cycles != [] {
      var before := Before(table, cycles[0]);
      PollSpends(maxRetries, table, cycles[0], id);
      if PassesOver(table, maxRetries, cycles[0], id) {
        LeftOutBehindFullBatch(before, cycles[0].now, 0, BATCH_SIZE, id);
      }
      PassesSpend(After(table, maxRetries, cycles[0]), maxRetries, cycles[1..], id);
    }
  }

  /** How many of the n oldest events are neither published nor dead-lettered. */
  function LiveCount(table: Table, n: nat): nat
    requires n <= |table|
  {
    if n == 0 then 0 else LiveCount(table, n - 1) + (if Live(table[n - 1]) then 1 else 0)
  }

  lemma {:induction false} RemainingAtMost(maxRetries: int, table: Table, n: nat)
    requires Within(maxRetries, table) && n <= |table|
    ensures Remaining(maxRetries, table, n) <= LiveCount(table, n) * Cap(maxRetries)
  {
    if n > 0 {
      RemainingAtMost(maxRetries, table, n - 1);
      var fewer, cap := LiveCount(table, n - 1), Cap(maxRetries);
      assert (fewer + 1) * cap == fewer * cap + cap;
    }
  }

  /** With one relay, however many events arrive behind it and polls are abandoned, an event with n
      older live ones is passed over while due by at most n * max(MAX_RETRIES, 1) / 20 completed polls,
      and by no more than a twentieth of the attempts those have left. */
  lemma PassedOverAtMost(table: Table, maxRetries: int, cycles: seq<Cycle>, id: EventId)
    requires Within(maxRetries, table) && id < |table|
    ensures BATCH_SIZE * TimesPassedOver(table, maxRetries, cycles, id) <= Remaining(maxRetries, table, id)
    ensures Remaining(maxRetries, table, id) <= LiveCount(table, id) * Cap(maxRetries)
  {
    PassesSpend(table, maxRetries, cycles, id);
    RemainingAtMost(maxRetries, table, id);
  }

  /** The polls before the first one whose batch holds the event. */
  function PollsUntilPicked(table: Table, maxRetries: int, cycles: seq<Cycle>, id: EventId): nat
    decreases |cycles|
  {
    if cycles == [] || id in Batch(Before(table, cycles[0]), cycles[0].now) then 0
    else
      (if Poll(table, maxRetries, cycles[0]).1 then 1 else 0)
      + PollsUntilPicked(After(table, maxRetries, cycles[0]), maxRetries, cycles[1..], id)
  }

  lemma {:induction false} DispatchLeavesOthers(table: Table, ids: seq<EventId>, maxRetries: int, answers: EventId -> RowAnswer, id: EventId)
    requires AllBelow(ids, |table|) && id < |table| && id !in ids
    ensures |Dispatch(table, ids, maxRetries, answers).0| == |table| && Dispatch(table, ids, maxRetries, answers).0[id] == table[id]
    decreases |ids|
  {
    if ids != [] {
      var (e, goesOn) := Processed(table[ids[0]], maxRetries, answers(ids[0]));
      if goesOn {
        DispatchLeavesOthers(table[ids[0] := e], ids[1..], maxRetries, answers, id);
      }
    }
  }

  lemma LeftOutIsUnchanged(table: Table, maxRetries: int, c: Cycle, id: EventId)
    requires id < |table| && id !in Batch(Before(table, c), c.now)
    ensures id < |After(table, maxRetries, c)| && After(table, maxRetries, c)[id] == table[id]
  {
    DueFromIsDue(Before(table, c), c.now, 0, BATCH_SIZE);
    DispatchLeavesOthers(Before(table, c), Batch(Before(table, c), c.now), maxRetries, c.answers, id);
  }

  lemma {:induction false} WaitingIsBeingPassedOver(table: Table, maxRetries: int, cycles: seq<Cycle>, id: EventId)
    requires Within(maxRetries, table) && id < |table| && Live(table[id]) && table[id].nextAttempt == None
    ensures PollsUntilPicked(table, maxRetries, cycles, id) <= TimesPassedOver(table, maxRetries, cycles, id)
    decreases |cycles|
  {
    if cycles != [] && id !in Batch(Before(table, cycles[0]), cycles[0].now) {
      LeftOutIsUnchanged(table, maxRetries, cycles[0], id);
      PollSpends(maxRetries, table, cycles[0], 0);
      WaitingIsBeingPassedOver(After(table, maxRetries, cycles[0]), maxRetries, cycles[1..], id);
    }
  }

  /** A never-attempted event with n older live ones waits for at most n * max(MAX_RETRIES, 1) / 20
      completed polls before one takes it up. */
  lemma NeverAttemptedIsPickedSoon(table: Table, maxRetries: int, cycles: seq<Cycle>, id: EventId)
    requires Within(maxRetries, table) && id < |table| && Live(table[id]) && table[id].nextAttempt == None
    ensures BATCH_SIZE * PollsUntilPicked(table, maxRetries, cycles, id) <= LiveCount(table, id) * Cap(maxRetries)
  {
    WaitingIsBeingPassedOver(table, maxRetries, cycles, id);
    PassedOverAtMost(table, maxRetries, cycles, id);
  }

  // ---------------------------------------------------------------- draining

  /** Every event still live may be attempted at this time. */
  predicate AllDueAt(table: Table, now: int) {
    forall i :: 0 <= i < |table| && Live(table[i]) ==> Due(table[i], now)
  }

  /** Polls far enough apart that every back-off has passed. */
  ghost predicate Spaced(cycles: seq<Cycle>) {
    forall i :: 0 <= i < |cycles| - 1 ==>
      cycles[i].now <= cycles[i + 1].now && forall id: EventId :: cycles[i].answers(id).at + BACKOFF_CAP_MS <= cycles[i + 1].now
  }

  ghost predicate Answered(c: Cycle) {
    forall id: EventId :: c.answers(id).marked.EffectOk? && c.answers(id).recorded.EffectOk?
  }

  ghost predicate BackoffsPass(answers: EventId -> RowAnswer, next: int) {
    forall id: EventId :: answers(id).at + BACKOFF_CAP_MS <= next
  }

  lemma {:induction false} DispatchLeavesAllDue(table: Table, ids: seq<EventId>, maxRetries: int, answers: EventId -> RowAnswer, next: int)
    requires Increasing(ids) && AllLive(table, ids) && AllDueAt(table, next) && BackoffsPass(answers, next)
    requires Dispatch(table, ids, maxRetries, answers).1
    ensures AllDueAt(Dispatch(table, ids, maxRetries, answers).0, next)
    decreases |ids|
  {
    if ids != [] {
      var (e, goesOn) := Processed(table[ids[0]], maxRetries, answers(ids[0]));
      assert Live(table[ids[0]]);
      DispatchLeavesAllDue(table[ids[0] := e], ids[1..], maxRetries, answers, next);
    }
  }

  lemma {:induction false} AnsweredCompletes(table: Table, ids: seq<EventId>, maxRetries: int, c: Cycle)
    requires Answered(c) && AllBelow(ids, |table|)
    ensures Dispatch(table, ids, maxRetries, c.answers).1
    decreases |ids|
  {
    if ids != [] {
      assert c.answers(ids[0]).marked.EffectOk? && c.answers(ids[0]).recorded.EffectOk?;
      AnsweredCompletes(table[ids[0] := Processed(table[ids[0]], maxRetries, c.answers(ids[0])).0], ids[1..], maxRetries, c);
    }
  }

  predicate NoneLive(table: Table) {
    forall i :: 0 <= i < |table| ==> !Live(table[i])
  }

  lemma LiveMeansRemaining(maxRetries: int, table: Table, n: nat)
    requires Within(maxRetries, table) && n <= |table| && Remaining(maxRetries, table, n) == 0
    ensures forall i :: 0 <= i < n ==> !Live(table[i])
  {
  }

  lemma {:induction false} NothingLiveNothingPicked(table: Table, now: int, i: nat, limit: nat)
    requires NoneLive(table) && i <= |table|
    ensures DueFrom(table, now, i, limit) == []
    decreases |table| - i
  {
    if i < |table| && limit > 0 {
      NothingLiveNothingPicked(table, now, i + 1, limit);
    }
  }

  lemma {:induction false} DrainedStays(maxRetries: int, table: Table, cycles: seq<Cycle>)
    requires NoneLive(table) && forall i :: 0 <= i < |cycles| ==> cycles[i].appended == []
    ensures RunAll(table, maxRetries, cycles) == table
    decreases |cycles|
  {
    if cycles != [] {
      assert Before(table, cycles[0]) == table;
      DueFromIsDue(table, cycles[0].now, 0, BATCH_SIZE);
      NothingLiveNothingPicked(table, cycles[0].now, 0, BATCH_SIZE);
      DrainedStays(maxRetries, table, cycles[1..]);
    }
  }

  /** A finite outbox drains: with no new events and polls that complete and are spaced past the
      back-off, as many polls as there were attempts left leave no event live. */
  lemma {:induction false} Drains(maxRetries: int, table: Table, cycles: seq<Cycle>)
    requires Within(maxRetries, table) && Spaced(cycles)
    requires forall i :: 0 <= i < |cycles| ==> cycles[i].appended == [] && Answered(cycles[i])
    requires cycles != [] ==> AllDueAt(table, cycles[0].now)
    requires |cycles| >= Remaining(maxRetries, table, |table|)
    ensures NoneLive(RunAll(table, maxRetries, cycles))
    decreases |cycles|
  {
    if Remaining(maxRetries, table, |table|) == 0 {
      LiveMeansRemaining(maxRetries, table, |table|);
      DrainedStays(maxRetries, table, cycles);
    } else {
      OnePollDrains(maxRetries, table, cycles);
      Drains(maxRetries, After(table, maxRetries, cycles[0]), cycles[1..]);
    }
  }

  lemma {:induction false} SomeLive(maxRetries: int, table: Table, n: nat) returns (id: EventId)
    requires Within(maxRetries, table) && n <= |table| && Remaining(maxRetries, table, n) > 0
    ensures id < n && Live(table[id])
  {
    if Live(table[n - 1]) {
      id := n - 1;
    } else {
      id := SomeLive(maxRetries, table, n - 1);
    }
  }

  lemma OnePollDrains(maxRetries: int, table: Table, cycles: seq<Cycle>)
    requires Within(maxRetries, table) && Spaced(cycles) && cycles != [] && AllDueAt(table, cycles[0].now)
    requires forall i :: 0 <= i < |cycles| ==> cycles[i].appended == [] && Answered(cycles[i])
    requires Remaining(maxRetries, table, |table|) > 0
    ensures
      var after := After(table, maxRetries, cycles[0]);
      && |after| == |table| && Within(maxRetries, after)
      && Remaining(maxRetries, after, |after|) < Remaining(maxRetries, table, |table|)
      && (|cycles| > 1 ==> AllDueAt(after, cycles[1].now))
      && Spaced(cycles[1..])
  {
    var c := cycles[0];
    assert Before(table, c) == table && Answered(c);
    var id := SomeLive(maxRetries, table, |table|);
    SomeDueSomePicked(table, c.now, 0, BATCH_SIZE, id);
    BatchIsLive(table, c.now);
    DueFromIsDue(table, c.now, 0, BATCH_SIZE);
    AnsweredCompletes(table, Batch(table, c.now), maxRetries, c);
    PollMakesProgress(maxRetries, table, c);
    if |cycles| > 1 {
      assert cycles[0].now <= cycles[1].now;
      DispatchLeavesAllDue(table, Batch(table, c.now), maxRetries, c.answers, cycles[1].now);
    }
  }

  // ---------------------------------------------------------------- the loop itself

  class RelayWorker {
    const maxRetries: int
    var table: Table
    var published: nat
    var failed: nat
    var noRoute: nat
    var deadLettered: nat

    /** `pollAndDispatch`. It returns the number of rows read, unless an error escapes. */
    method PollAndDispatch(now: int, answers: EventId -> RowAnswer) returns (count: nat, completed: bool)
      modifies this
      ensures (table, completed) == Poll(old(table), maxRetries, Cycle([], now, answers))
      ensures count == |Batch(old(table), now)|
      ensures completed ==> published + failed + noRoute == old(published + failed + noRoute) + count
    {
      assert Before(table, Cycle([], now, answers)) == table;
      DueFromIsDue(table, now, 0, BATCH_SIZE);
      var ids := Batch(table, now);
      count := |ids|;
      completed := true;
      ghost var start := table;
      var i := 0;
      while i < |ids|
        invariant i <= |ids| && |table| == |start| && completed && AllBelow(ids, |table|)
        invariant Dispatch(table, ids[i..], maxRetries, answers) == Dispatch(start, ids, maxRetries, answers)
        invariant published + failed + noRoute == old(published + failed + noRoute) + i
      {
        assert ids[i..][0] == ids[i] && ids[i..][1..] == ids[i + 1..];
        completed := DispatchRow(ids[i], answers(ids[i]));
        if !completed {
          return;
        }
        i := i + 1;
      }
    }

    /** One turn of the loop: false when an error escapes it. */
    method DispatchRow(id: EventId, a: RowAnswer) returns (goesOn: bool)
      requires id < |table|
      modifies this
      ensures table == old(table)[id := Processed(old(table)[id], maxRetries, a).0]
      ensures goesOn == Processed(old(table)[id], maxRetries, a).1
      ensures goesOn ==> published + failed + noRoute == old(published + failed + noRoute) + 1
    {
      if RouteOf(table[id].eventType).None? {
        goesOn := MarkPublished(id, a.marked);
        if goesOn {
          noRoute := noRoute + 1;
        }
        return;
      }
      var marked := false;
      if a.delivered {
        marked := MarkPublished(id, a.marked);
      }
      if marked {
        published := published + 1;
        return true;
      }
      goesOn := RecordDeliveryAttempt(id, a.recorded, a.at);
      if goesOn {
        if table[id].deadLettered {
          deadLettered := deadLettered + 1;
        }
        failed := failed + 1;
      }
    }

    method MarkPublished(id: EventId, outcome: Outcome) returns (ok: bool)
      requires id < |table|
      modifies this`table
      ensures table == if outcome.NoEffectError? then old(table) else old(table)[id := Published(old(table)[id])]
      ensures ok == outcome.EffectOk?
    {
      if !outcome.NoEffectError? {
        table := table[id := table[id].(published := true)];
      }
      ok := outcome.EffectOk?;
    }

    method RecordDeliveryAttempt(id: EventId, outcome: Outcome, now: int) returns (ok: bool)
      requires id < |table|
      modifies this`table
      ensures table == if outcome.NoEffectError? then old(table) else old(table)[id := Attempted(old(table)[id], maxRetries, now)]
      ensures ok == outcome.EffectOk?
    {
      if !outcome.NoEffectError? {
        var e := table[id];
        var last := e.attempts + 1 >= maxRetries;
        table := table[id := e.(attempts := e.attempts + 1,
                                deadLettered := if last then true else e.deadLettered,
                                nextAttempt := if last then e.nextAttempt else Some(now + Backoff(e.attempts)))];
      }
      ok := outcome.EffectOk?;
    }
  }
}

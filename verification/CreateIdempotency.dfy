/** Creating a payment under one (tenant, Idempotency-Key): any number of requests interleaved,
    crashing anywhere (services/payment-service/src/idempotency.mjs:31-74 and
    services/payment-service/src/payments.mjs:90-157). */
module CreateIdempotency {
  import opened Basics
  import RequestHash

  type Hash = RequestHash.Json
  type PaymentId = string

  function HashOf(body: RequestHash.Json): Hash {
    RequestHash.Canonical(body)
  }

  datatype KeyStatus = Pending | Done

  /** The row of payment.idempotency_keys for this key. */
  datatype KeyRow = KeyRow(hash: Hash, status: KeyStatus, paymentId: Option<PaymentId>)

  datatype Reservation = Reserved | HashMismatch | InProgress | AlreadyDone(paymentId: PaymentId)

  /** INSERT ... ON CONFLICT DO NOTHING, then the row if it was there. */
  function Reserve(row: Option<KeyRow>, hash: Hash): (Option<KeyRow>, Reservation) {
    match row
    case None => (Some(KeyRow(hash, Pending, None)), Reserved)
    case Some(existing) =>
      (row,
       if existing.hash != hash then HashMismatch
       else if existing.status == Pending || existing.paymentId.None? then InProgress
       else AlreadyDone(existing.paymentId.value))
  }

  /** UPDATE: whatever row has the key. */
  function Complete(row: Option<KeyRow>, paymentId: PaymentId): Option<KeyRow> {
    match row case None => None case Some(r) => Some(KeyRow(r.hash, Done, Some(paymentId)))
  }

  // ---------------------------------------------------------------- the step system

  datatype Pc = Reserving | Working | Committing | Releasing

  datatype Request = Request(body: RequestHash.Json, pc: Pc)

  /** A payment inserted under this key, and the body it was built from. */
  datatype Made = Made(id: PaymentId, body: RequestHash.Json)

  /** A payment a request returned. */
  datatype Returned = Returned(body: RequestHash.Json, id: PaymentId)

  type RequestId = nat

  datatype State = State(row: Option<KeyRow>, payments: seq<Made>, requests: map<RequestId, Request>, returned: seq<Returned>)

  datatype Step =
    | Arrive(request: RequestId, body: RequestHash.Json)
    | ReserveKey(request: RequestId, outcome: Outcome)
    | Work(request: RequestId, succeeds: bool)
    | Commit(request: RequestId, id: PaymentId, outcome: Outcome)
    | Release(request: RequestId, outcome: Outcome)
    | Crash(request: RequestId)

  function Goto(s: State, r: RequestId, pc: Pc): State
    requires r in s.requests
  {
    s.(requests := s.requests[r := s.requests[r].(pc := pc)])
  }

  function End(s: State, r: RequestId): State {
    s.(requests := s.requests - {r})
  }

  predicate Enabled(s: State, r: RequestId, pc: Pc) {
    r in s.requests && s.requests[r].pc == pc
  }

  function ApplyReserve(s: State, r: RequestId, outcome: Outcome): State
    requires r in s.requests
  {
    var body := s.requests[r].body;
    var (row, reservation) := Reserve(s.row, HashOf(body));
    match outcome
    case NoEffectError => End(s, r)
    case EffectError => End(s.(row := row), r)
    case EffectOk =>
      (match reservation
       case Reserved => Goto(s.(row := row), r, Working)
       case AlreadyDone(id) => End(s.(returned := s.returned + [Returned(body, id)]), r)
       case _ => End(s, r))
  }

  /** The transaction that inserts the payment and completes the key. An error of any kind sends the
      request to its catch block. */
  function ApplyCommit(s: State, r: RequestId, id: PaymentId, outcome: Outcome): State
    requires r in s.requests
  {
    var body := s.requests[r].body;
    var s' := s.(row := Complete(s.row, id), payments := s.payments + [Made(id, body)]);
    match outcome
    case NoEffectError => Goto(s, r, Releasing)
    case EffectError => Goto(s', r, Releasing)
    case EffectOk => End(s'.(returned := s.returned + [Returned(body, id)]), r)
  }

  function Apply(s: State, step: Step): State {
    match step
    case Arrive(r, body) => if r in s.requests then s else s.(requests := s.requests[r := Request(body, Reserving)])
    case ReserveKey(r, outcome) => if Enabled(s, r, Reserving) then ApplyReserve(s, r, outcome) else s
    case Work(r, succeeds) => if Enabled(s, r, Working) then Goto(s, r, if succeeds then Committing else Releasing) else s
    case Commit(r, id, outcome) => if Enabled(s, r, Committing) then ApplyCommit(s, r, id, outcome) else s
    case Release(r, outcome) =>
      if Enabled(s, r, Releasing) then End(if outcome.NoEffectError? then s else s.(row := None), r) else s
    case Crash(r) => End(s, r)
  }

  function RunAll(s: State, steps: seq<Step>): State
    decreases |steps|
  {
    if steps == [] then s else RunAll(Apply(s, steps[0]), steps[1..])
  }

  const Unused := State(None, [], map[], [])

  // ---------------------------------------------------------------- the invariant

  /** A request that has reserved the key and not yet ended. */
  predicate Holds(s: State, r: RequestId) {
    r in s.requests && s.requests[r].pc != Reserving
  }

  ghost predicate NoHolder(s: State) {
    forall r :: !Holds(s, r)
  }

  ghost predicate OneHolder(s: State) {
    forall q, r :: Holds(s, q) && Holds(s, r) ==> q == r
  }

  predicate WasMade(s: State, id: PaymentId, hash: Hash) {
    exists k :: 0 <= k < |s.payments| && s.payments[k].id == id && HashOf(s.payments[k].body) == hash
  }

  ghost predicate RowOk(s: State) {
    match s.row
    case None => NoHolder(s)
    case Some(row) =>
      && (forall r :: Holds(s, r) ==> HashOf(s.requests[r].body) == row.hash)
      && (row.status == Pending ==> row.paymentId == None)
      && (row.status == Done ==>
            && row.paymentId.Some? && WasMade(s, row.paymentId.value, row.hash)
            && forall r :: Holds(s, r) ==> s.requests[r].pc == Releasing)
  }

  predicate ReturnedOk(s: State) {
    forall k :: 0 <= k < |s.returned| ==> WasMade(s, s.returned[k].id, HashOf(s.returned[k].body))
  }

  ghost predicate Inv(s: State) {
    OneHolder(s) && RowOk(s) && ReturnedOk(s)
  }

  lemma KeepsMade(s: State, s': State)
    requires s.payments <= s'.payments && s.returned == s'.returned && ReturnedOk(s)
    ensures ReturnedOk(s')
    ensures forall id, hash :: WasMade(s, id, hash) ==> WasMade(s', id, hash)
  {
    forall id, hash | WasMade(s, id, hash)
      ensures WasMade(s', id, hash)
    {
      var k :| 0 <= k < |s.payments| && s.payments[k].id == id && HashOf(s.payments[k].body) == hash;
      assert s'.payments[k] == s.payments[k];
    }
  }

  lemma NobodyElse(s: State, s': State, r: RequestId)
    requires OneHolder(s) && Holds(s, r) && s'.requests == s.requests - {r}
    ensures NoHolder(s')
  {
    forall q
      ensures !Holds(s', q)
    {
      if q in s.requests {
        assert Holds(s, q) ==> q == r;
      }
    }
  }

  lemma ReserveKeepsInv(s: State, r: RequestId, outcome: Outcome)
    requires Inv(s) && Enabled(s, r, Reserving)
    ensures Inv(ApplyReserve(s, r, outcome))
  {
    var s' := ApplyReserve(s, r, outcome);
    assert forall q :: q != r ==> (Holds(s', q) <==> Holds(s, q));
    assert s'.payments == s.payments;
  }

  lemma CommitKeepsInv(s: State, r: RequestId, id: PaymentId, outcome: Outcome)
    requires Inv(s) && Enabled(s, r, Committing)
    ensures Inv(ApplyCommit(s, r, id, outcome))
  {
    var s' := ApplyCommit(s, r, id, outcome);
    assert Holds(s, r);
    assert forall q :: q != r ==> !Holds(s, q) && !Holds(s', q);
    if !outcome.NoEffectError? {
      KeepsMade(s, s'.(returned := s.returned));
      assert s'.payments[|s.payments|] == Made(id, s.requests[r].body);
      assert WasMade(s', id, HashOf(s.requests[r].body));
    }
  }

  lemma StepKeepsInv(s: State, step: Step)
    requires Inv(s)
    ensures Inv(Apply(s, step))
  {
    var s' := Apply(s, step);
    match step
    case ReserveKey(r, outcome) =>
      if Enabled(s, r, Reserving) {
        ReserveKeepsInv(s, r, outcome);
      }
    case Commit(r, id, outcome) =>
      if Enabled(s, r, Committing) {
        CommitKeepsInv(s, r, id, outcome);
      }
    case Arrive(r, body) => assert forall q :: Holds(s', q) ==> Holds(s, q);
    case Work(r, succeeds) => assert forall q :: Holds(s', q) <==> Holds(s, q);
    case Release(r, outcome) =>
      if Enabled(s, r, Releasing) {
        NobodyElse(s, s', r);
      }
    case Crash(r) => assert forall q :: Holds(s', q) ==> Holds(s, q);
  }

  lemma {:induction false} RunsKeepInv(s: State, steps: seq<Step>)
    requires Inv(s)
    ensures Inv(RunAll(s, steps))
    decreases |steps|
  {
    if steps != [] {
      StepKeepsInv(s, steps[0]);
      RunsKeepInv(Apply(s, steps[0]), steps[1..]);
    }
  }

  // ---------------------------------------------------------------- theorems

  /** Whatever happens, the key has at most one owner, and every payment a request returns was made
      under this key from the same body up to the order of keys. */
  lemma OneOwnerAndOwnBody(steps: seq<Step>, q: RequestId, r: RequestId, k: nat)
    ensures var s := RunAll(Unused, steps); Holds(s, q) && Holds(s, r) ==> q == r
    ensures
      var s := RunAll(Unused, steps);
      k < |s.returned| ==> WasMade(s, s.returned[k].id, HashOf(s.returned[k].body))
  {
    RunsKeepInv(Unused, steps);
  }

  /** A commit that took effect but was reported as an error. */
  predicate Ambiguous(step: Step) {
    step.Commit? && step.outcome.EffectError?
  }

  function AmbiguousCommits(steps: seq<Step>): nat {
    if steps == [] then 0 else (if Ambiguous(steps[0]) then 1 else 0) + AmbiguousCommits(steps[1..])
  }

  /** The key is settled: done, with nobody left who could delete the row. */
  ghost predicate Closed(s: State) {
    s.row.Some? && s.row.value.status == Done && NoHolder(s)
  }

  ghost function Budget(s: State): nat {
    if Closed(s) then 1 else 0
  }

  lemma StepSpends(s: State, step: Step)
    requires Inv(s)
    ensures |Apply(s, step).payments| + Budget(s) <= |s.payments| + Budget(Apply(s, step)) + (if Ambiguous(step) then 1 else 0)
  {
    var s' := Apply(s, step);
    if Closed(s) {
      ClosedStays(s, step);
    } else if step.Commit? && Enabled(s, step.request, Committing) {
      if step.outcome.EffectOk? {
        NobodyElse(s, s', step.request);
        assert Holds(s, step.request) && s.row.Some?;
      }
    }
  }

  lemma ClosedStays(s: State, step: Step)
    requires Inv(s) && Closed(s)
    ensures Closed(Apply(s, step)) && Apply(s, step).payments == s.payments && Apply(s, step).row == s.row
  {
    var s' := Apply(s, step);
    if step.Work? || step.Commit? || step.Release? {
      assert !Holds(s, step.request);
    }
    assert forall q :: Holds(s', q) ==> Holds(s, q);
  }

  lemma {:induction false} RunsSpend(s: State, steps: seq<Step>)
    requires Inv(s)
    ensures |RunAll(s, steps).payments| + Budget(s) <= |s.payments| + Budget(RunAll(s, steps)) + AmbiguousCommits(steps)
    decreases |steps|
  {
    if steps != [] {
      StepSpends(s, steps[0]);
      StepKeepsInv(s, steps[0]);
      RunsSpend(Apply(s, steps[0]), steps[1..]);
    }
  }

  /** Over any run the key yields at most one payment more than it has ambiguous commits. */
  lemma AtMostOnePaymentPerAmbiguity(steps: seq<Step>)
    ensures |RunAll(Unused, steps).payments| <= 1 + AmbiguousCommits(steps)
  {
    RunsSpend(Unused, steps);
  }

  lemma {:induction false} NoAmbiguity(steps: seq<Step>)
    requires forall i :: 0 <= i < |steps| ==> !Ambiguous(steps[i])
    ensures AmbiguousCommits(steps) == 0
  {
    if steps != [] {
      NoAmbiguity(steps[1..]);
    }
  }

  /** With unambiguous commits there is at most one payment, every request that returns one returns
      that one, and it asked for the body it was made from, up to the order of keys. */
  lemma AtMostOnePayment(steps: seq<Step>, k: nat)
    requires forall i :: 0 <= i < |steps| ==> !Ambiguous(steps[i])
    ensures
      var s := RunAll(Unused, steps);
      && |s.payments| <= 1
      && (k < |s.returned| ==>
            |s.payments| == 1 && s.returned[k].id == s.payments[0].id
            && HashOf(s.returned[k].body) == HashOf(s.payments[0].body))
  {
    NoAmbiguity(steps);
    AtMostOnePaymentPerAmbiguity(steps);
    RunsKeepInv(Unused, steps);
    var s := RunAll(Unused, steps);
    if k < |s.returned| {
      assert WasMade(s, s.returned[k].id, HashOf(s.returned[k].body));
    }
  }

  /** A later request under a completed key: exactly the bodies that are the same up to the order of
      keys (leaving out "__proto__" members) get the payment back; no other body creates or returns one. */
  lemma ReplayAnswers(s: State, r: RequestId, body: RequestHash.Json, original: RequestHash.Json)
    requires Inv(s) && Closed(s) && r !in s.requests && s.row.value.hash == HashOf(original)
    requires RequestHash.WellFormed(body) && RequestHash.WellFormed(original)
    ensures
      var s' := RunAll(s, [Arrive(r, body), ReserveKey(r, EffectOk)]);
      var same := RequestHash.KeyPermuted(
        RequestHash.Strip(RequestHash.Body(body)), RequestHash.Strip(RequestHash.Body(original)));
      && s'.payments == s.payments && s'.row == s.row
      && s'.returned == s.returned + (if same then [Returned(body, s.row.value.paymentId.value)] else [])
  {
    RequestHash.SameCanonicalExactlyWhenPermuted(body, original);
    var arrived := Apply(s, Arrive(r, body));
    ClosedStays(s, Arrive(r, body));
    assert [Arrive(r, body), ReserveKey(r, EffectOk)][1..] == [ReserveKey(r, EffectOk)];
    assert RunAll(s, [Arrive(r, body), ReserveKey(r, EffectOk)]) == RunAll(arrived, [ReserveKey(r, EffectOk)]);
    assert RunAll(arrived, [ReserveKey(r, EffectOk)]) == RunAll(Apply(arrived, ReserveKey(r, EffectOk)), []);
  }

  // ---------------------------------------------------------------- what each statement answers

  /** A new key is reserved for the body; otherwise the row decides, and stays as it is. */
  lemma ReserveAnswersExactlyWhen(row: Option<KeyRow>, hash: Hash)
    ensures
      var (row', answer) := Reserve(row, hash);
      var same := row.Some? && row.value.hash == hash;
      var finished := same && row.value.status == Done && row.value.paymentId.Some?;
      && (answer == Reserved <==> row == None)
      && (answer == HashMismatch <==> row.Some? && !same)
      && (answer == InProgress <==> same && !finished)
      && (forall id :: answer == AlreadyDone(id) <==> finished && row.value.paymentId.value == id)
      && row' == (if row == None then Some(KeyRow(hash, Pending, None)) else row)
  {
  }

  /** A request starts by reserving the key for its body; one under way is not started again. */
  lemma ArrivalStarts(s: State, r: RequestId, body: RequestHash.Json)
    ensures
      var s' := Apply(s, Arrive(r, body));
      && s'.(requests := s.requests) == s && r in s'.requests
      && s'.requests == if r in s.requests then s.requests else s.requests[r := Request(body, Reserving)]
  {
  }

  /** A reservation that took effect stays, but only a request that is told of it goes on, and only one that
      is told of a finished payment returns it. */
  lemma ReserveEnds(s: State, r: RequestId, outcome: Outcome)
    requires Enabled(s, r, Reserving)
    ensures
      var s', body := Apply(s, ReserveKey(r, outcome)), s.requests[r].body;
      var (row, answer) := Reserve(s.row, HashOf(body));
      && s'.payments == s.payments && s'.row == (if outcome == NoEffectError then s.row else row)
      && (r in s'.requests <==> outcome == EffectOk && answer == Reserved)
      && (r in s'.requests ==> s'.requests[r] == Request(body, Working))
      && s'.returned == s.returned + (if outcome == EffectOk && answer.AlreadyDone? then [Returned(body, answer.paymentId)] else [])
  {
  }

  /** The payment and the finished key come together or not at all; the request returns the payment when it
      is told of the commit, and releases the key when it is told of an error. */
  lemma CommitEnds(s: State, r: RequestId, id: PaymentId, outcome: Outcome)
    requires Enabled(s, r, Committing)
    ensures
      var s', body := Apply(s, Commit(r, id, outcome)), s.requests[r].body;
      && s'.payments == s.payments + (if outcome == NoEffectError then [] else [Made(id, body)])
      && (s'.row.Some? <==> s.row.Some?)
      && (s.row.Some? ==> s'.row.value == if outcome == NoEffectError then s.row.value else KeyRow(s.row.value.hash, Done, Some(id)))
      && (r in s'.requests <==> outcome != EffectOk)
      && (r in s'.requests ==> s'.requests[r] == Request(body, Releasing))
      && s'.returned == s.returned + (if outcome == EffectOk then [Returned(body, id)] else [])
  {
  }

  // ---------------------------------------------------------------- the bound is tight

  /** The statements of one request, as `createPayment` makes them. */
  function Script(r: RequestId, body: RequestHash.Json, works: bool, id: PaymentId, commit: Outcome, release: Outcome): seq<Step> {
    [Arrive(r, body), ReserveKey(r, EffectOk), Work(r, works), Commit(r, id, commit), Release(r, release)]
  }

  lemma RunFront(s: State, step: Step, rest: seq<Step>)
    ensures RunAll(s, [step] + rest) == RunAll(Apply(s, step), rest)
  {
    assert ([step] + rest)[1..] == rest;
  }

  lemma ScriptSteps(s: State, r: RequestId, body: RequestHash.Json, works: bool, id: PaymentId, commit: Outcome, release: Outcome)
    ensures
      var s3 := Apply(Apply(Apply(s, Arrive(r, body)), ReserveKey(r, EffectOk)), Work(r, works));
      RunAll(s, Script(r, body, works, id, commit, release)) == Apply(Apply(s3, Commit(r, id, commit)), Release(r, release))
  {
    var steps := Script(r, body, works, id, commit, release);
    var s1 := Apply(s, steps[0]);
    var s2 := Apply(s1, steps[1]);
    var s3 := Apply(s2, steps[2]);
    var s4 := Apply(s3, steps[3]);
    assert steps == [steps[0]] + steps[1..] && steps[1..] == [steps[1]] + steps[2..] && steps[2..] == [steps[2]] + steps[3..];
    assert steps[3..] == [steps[3]] + steps[4..] && steps[4..] == [steps[4]] + [];
    RunFront(s, steps[0], steps[1..]);
    RunFront(s1, steps[1], steps[2..]);
    RunFront(s2, steps[2], steps[3..]);
    RunFront(s3, steps[3], steps[4..]);
    RunFront(s4, steps[4], []);
  }

  lemma RunConcat(s: State, first: seq<Step>, then_: seq<Step>)
    ensures RunAll(s, first + then_) == RunAll(RunAll(s, first), then_)
    decreases |first|
  {
    if first == [] {
      assert first + then_ == then_;
    } else {
      assert (first + then_)[0] == first[0] && (first + then_)[1..] == first[1..] + then_;
      RunConcat(Apply(s, first[0]), first[1..], then_);
    }
  }

  lemma FreshRequestRuns(s: State, r: RequestId, body: RequestHash.Json, id: PaymentId, commit: Outcome)
    requires s.row == None && s.requests == map[] && !commit.NoEffectError?
    ensures
      var s' := RunAll(s, Script(r, body, true, id, commit, EffectOk));
      && s'.payments == s.payments + [Made(id, body)] && s'.requests == map[]
      && (commit.EffectError? ==> s'.row == None)
  {
    ScriptSteps(s, r, body, true, id, commit, EffectOk);
    var s4 := Apply(Apply(Apply(Apply(s, Arrive(r, body)), ReserveKey(r, EffectOk)), Work(r, true)), Commit(r, id, commit));
    assert s4.requests.Keys <= {r};
    assert s4.requests - {r} == map[];
  }

  /** An ambiguous commit makes the catch block delete the completed row, so a second request with
      the same body makes a second payment. */
  lemma AmbiguousCommitAllowsASecond(body: RequestHash.Json)
    ensures
      var steps := Script(0, body, true, "first", EffectError, EffectOk) + Script(1, body, true, "second", EffectOk, EffectOk);
      RunAll(Unused, steps).payments == [Made("first", body), Made("second", body)]
  {
    var first, second := Script(0, body, true, "first", EffectError, EffectOk), Script(1, body, true, "second", EffectOk, EffectOk);
    RunConcat(Unused, first, second);
    FreshRequestRuns(Unused, 0, body, "first", EffectError);
    FreshRequestRuns(RunAll(Unused, first), 1, body, "second", EffectOk);
  }

  lemma {:induction false} AmbiguousConcat(first: seq<Step>, then_: seq<Step>)
    ensures AmbiguousCommits(first + then_) == AmbiguousCommits(first) + AmbiguousCommits(then_)
    decreases |first|
  {
    if first == [] {
      assert first + then_ == then_;
    } else {
      assert (first + then_)[0] == first[0] && (first + then_)[1..] == first[1..] + then_;
      AmbiguousConcat(first[1..], then_);
    }
  }

  lemma ScriptAmbiguity(r: RequestId, body: RequestHash.Json, works: bool, id: PaymentId, commit: Outcome, release: Outcome)
    ensures AmbiguousCommits(Script(r, body, works, id, commit, release)) == if commit.EffectError? then 1 else 0
  {
    var before, last := [Arrive(r, body), ReserveKey(r, EffectOk), Work(r, works)], Release(r, release);
    var commitStep := Commit(r, id, commit);
    assert Script(r, body, works, id, commit, release) == (before + [commitStep]) + [last];
    AmbiguousConcat(before + [commitStep], [last]);
    AmbiguousConcat(before, [commitStep]);
    NoAmbiguity(before);
    NoAmbiguity([last]);
    assert [commitStep][1..] == [];
    assert AmbiguousCommits([commitStep]) == (if Ambiguous(commitStep) then 1 else 0) + AmbiguousCommits([]);
  }

  /** A different id for every payment. */
  function IdOf(k: nat): PaymentId {
    seq(k, _ => 'p')
  }

  /** n requests, one after the other, each told of an error although its commit took effect. */
  function LostAnswers(n: nat, body: RequestHash.Json): seq<Step> {
    if n == 0 then [] else LostAnswers(n - 1, body) + Script(0, body, true, IdOf(n - 1), EffectError, EffectOk)
  }

  predicate Paid(payments: seq<Made>, n: nat, body: RequestHash.Json) {
    |payments| == n && forall k :: 0 <= k < n ==> payments[k] == Made(IdOf(k), body)
  }

  lemma {:induction false} LostAnswersPay(n: nat, body: RequestHash.Json)
    ensures AmbiguousCommits(LostAnswers(n, body)) == n
    ensures
      var s := RunAll(Unused, LostAnswers(n, body));
      s.row == None && s.requests == map[] && Paid(s.payments, n, body)
  {
    if n > 0 {
      LostAnswersPay(n - 1, body);
      var before, next := LostAnswers(n - 1, body), Script(0, body, true, IdOf(n - 1), EffectError, EffectOk);
      AmbiguousConcat(before, next);
      ScriptAmbiguity(0, body, true, IdOf(n - 1), EffectError, EffectOk);
      RunConcat(Unused, before, next);
      FreshRequestRuns(RunAll(Unused, before), 0, body, IdOf(n - 1), EffectError);
    }
  }

  /** n lost answers, and then a request that goes well. */
  function OneMoreThanAmbiguous(n: nat, body: RequestHash.Json): seq<Step> {
    LostAnswers(n, body) + Script(0, body, true, IdOf(n), EffectOk, EffectOk)
  }

  /** The bound is reached for every number of ambiguous commits, with a payment of its own each time. */
  lemma BoundIsReached(n: nat, body: RequestHash.Json)
    ensures AmbiguousCommits(OneMoreThanAmbiguous(n, body)) == n
    ensures Paid(RunAll(Unused, OneMoreThanAmbiguous(n, body)).payments, n + 1, body)
  {
    var before, last := LostAnswers(n, body), Script(0, body, true, IdOf(n), EffectOk, EffectOk);
    LostAnswersPay(n, body);
    AmbiguousConcat(before, last);
    ScriptAmbiguity(0, body, true, IdOf(n), EffectOk, EffectOk);
    RunConcat(Unused, before, last);
    FreshRequestRuns(RunAll(Unused, before), 0, body, IdOf(n), EffectOk);
  }

  /** With up to n ambiguous commits a key can yield no more than m payments, if and only if m > n. */
  lemma AmbiguityAllowsExactly(n: nat, m: nat)
    ensures (forall steps | AmbiguousCommits(steps) <= n :: |RunAll(Unused, steps).payments| <= m) <==> m > n
  {
    if m > n {
      forall steps | AmbiguousCommits(steps) <= n
        ensures |RunAll(Unused, steps).payments| <= m
      {
        AtMostOnePaymentPerAmbiguity(steps);
      }
    } else {
      var body := RequestHash.Null;
      BoundIsReached(n, body);
      assert AmbiguousCommits(OneMoreThanAmbiguous(n, body)) <= n;
    }
  }

  // ---------------------------------------------------------------- the exact number of payments

  /** A request deletes the key although it is completed. */
  predicate LosesKey(s: State, step: Step) {
    && step.Release? && Enabled(s, step.request, Releasing) && !step.outcome.NoEffectError?
    && s.row.Some? && s.row.value.status == Done
  }

  /** How often a run does. */
  function LostKeys(s: State, steps: seq<Step>): nat
    decreases |steps|
  {
    if steps == [] then 0 else (if LosesKey(s, steps[0]) then 1 else 0) + LostKeys(Apply(s, steps[0]), steps[1..])
  }

  function Completed(s: State): nat {
    if s.row.Some? && s.row.value.status == Done then 1 else 0
  }

  lemma StepCounts(s: State, step: Step)
    requires Inv(s)
    ensures |Apply(s, step).payments| + Completed(s) == |s.payments| + Completed(Apply(s, step)) + (if LosesKey(s, step) then 1 else 0)
  {
    if step.Commit? && Enabled(s, step.request, Committing) {
      assert Holds(s, step.request);
    }
  }

  lemma {:induction false} RunsCount(s: State, steps: seq<Step>)
    requires Inv(s)
    ensures |RunAll(s, steps).payments| + Completed(s) == |s.payments| + Completed(RunAll(s, steps)) + LostKeys(s, steps)
    decreases |steps|
  {
    if steps != [] {
      StepCounts(s, steps[0]);
      StepKeepsInv(s, steps[0]);
      RunsCount(Apply(s, steps[0]), steps[1..]);
    }
  }

  /** Over any run the key yields one payment for every time a completed key is deleted, and one more
      if it is completed at the end. It is deleted no more often than commits are ambiguous. */
  lemma PaymentsAreLostKeys(steps: seq<Step>)
    ensures |RunAll(Unused, steps).payments| == LostKeys(Unused, steps) + Completed(RunAll(Unused, steps))
    ensures LostKeys(Unused, steps) <= AmbiguousCommits(steps)
  {
    RunsCount(Unused, steps);
    RunsSpend(Unused, steps);
  }

  /** How many payments a key can yield: no more than m over every run in which a completed key is
      deleted at most n times, if and only if m > n. */
  lemma PaymentsAtMostExactlyWhen(n: nat, m: nat)
    ensures (forall steps | LostKeys(Unused, steps) <= n :: |RunAll(Unused, steps).payments| <= m) <==> m > n
  {
    if m > n {
      forall steps | LostKeys(Unused, steps) <= n
        ensures |RunAll(Unused, steps).payments| <= m
      {
        PaymentsAreLostKeys(steps);
      }
    } else {
      var body := RequestHash.Null;
      BoundIsReached(n, body);
      PaymentsAreLostKeys(OneMoreThanAmbiguous(n, body));
      assert LostKeys(Unused, OneMoreThanAmbiguous(n, body)) <= n;
    }
  }

  /** So a key yields at most one payment over every run exactly when a completed key is never deleted. */
  lemma AtMostOnePaymentExactlyWhen(n: nat)
    ensures (forall steps | LostKeys(Unused, steps) <= n :: |RunAll(Unused, steps).payments| <= 1) <==> n == 0
  {
    PaymentsAtMostExactlyWhen(n, 1);
  }

  /** One request with no other in between: what it does to the key and to the payments. */
  function RequestEffect(row: Option<KeyRow>, payments: seq<Made>, body: RequestHash.Json, works: bool, id: PaymentId,
                         commit: Outcome, release: Outcome): (Option<KeyRow>, seq<Made>) {
    var (reservedRow, reservation) := Reserve(row, HashOf(body));
    if reservation != Reserved then (row, payments)
    else if works && commit.EffectOk? then (Complete(reservedRow, id), payments + [Made(id, body)])
    else
      var committed := works && commit.EffectError?;
      (if !release.NoEffectError? then None else if committed then Complete(reservedRow, id) else reservedRow,
       if committed then payments + [Made(id, body)] else payments)
  }

  lemma AloneHasThatEffect(row: Option<KeyRow>, payments: seq<Made>, body: RequestHash.Json, works: bool, id: PaymentId,
                           commit: Outcome, release: Outcome)
    ensures
      var s := RunAll(State(row, payments, map[], []), Script(0, body, works, id, commit, release));
      (s.row, s.payments) == RequestEffect(row, payments, body, works, id, commit, release)
  {
    ScriptSteps(State(row, payments, map[], []), 0, body, works, id, commit, release);
  }

  // ---------------------------------------------------------------- the statements as methods

  class PaymentStore {
    var row: Option<KeyRow>
    var payments: seq<Made>

    method ReserveIdempotencyKey(requestHash: Hash) returns (reservation: Reservation)
      modifies this`row
      ensures (row, reservation) == Reserve(old(row), requestHash)
    {
      if row == None {
        row := Some(KeyRow(requestHash, Pending, None));
        return Reserved;
      }
      var existing := row.value;
      if existing.hash != requestHash {
        return HashMismatch;
      }
      if existing.status == Pending || existing.paymentId == None {
        return InProgress;
      }
      return AlreadyDone(existing.paymentId.value);
    }

    method CompleteIdempotencyKey(paymentId: PaymentId)
      modifies this`row
      ensures row == Complete(old(row), paymentId)
    {
      if row.Some? {
        row := Some(row.value.(status := Done, paymentId := Some(paymentId)));
      }
    }

    method ReleaseIdempotencyKey()
      modifies this`row
      ensures row == None
    {
      row := None;
    }

    /** `createPayment` with a key. `works` is whether everything before the commit succeeds. */
    method CreatePayment(body: RequestHash.Json, works: bool, id: PaymentId, commit: Outcome, release: Outcome)
        returns (result: Result<PaymentId, string>)
      modifies this
      ensures
        var s := RunAll(State(old(row), old(payments), map[], []), Script(0, body, works, id, commit, release));
        row == s.row && payments == s.payments
      ensures result.Ok? && payments != old(payments) ==> payments == old(payments) + [Made(result.value, body)]
      ensures result.Ok? && payments == old(payments) ==>
        old(row) == Some(KeyRow(HashOf(body), Done, Some(result.value))) && row == old(row)
    {
      AloneHasThatEffect(row, payments, body, works, id, commit, release);
      var reservation := ReserveIdempotencyKey(HashOf(body));
      match reservation {
        case HashMismatch => return Err("idempotency_key_reuse");
        case InProgress => return Err("idempotency_in_progress");
        case AlreadyDone(paymentId) => return Ok(paymentId);
        case Reserved =>
      }
      if works && !commit.NoEffectError? {
        payments := payments + [Made(id, body)];
        CompleteIdempotencyKey(id);
        if commit.EffectOk? {
          return Ok(id);
        }
      }
      if !release.NoEffectError? {
        ReleaseIdempotencyKey();
      }
      result := Err("creation failed");
    }
  }
}

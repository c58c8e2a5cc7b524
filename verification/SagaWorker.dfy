/** The saga handler as the worker executes it, statement after statement, on a mutable database
    (services/job-worker/src/handlers/payment-saga.mjs:18-133), tied to the step system: with no
    other run in between it does what one run of that system does. */
module SagaWorker {
  import opened Basics
  import opened Custody
  import opened Saga
  import opened SagaResume
  import SagaTheorems
  import Lifecycle
  import Ledger
  import Accounting
  import Policy

  /** What each call answers, in the order the handler makes them. */
  datatype Answers = Answers(
    context: Context, verdict: Option<Policy.Verdict>, insertSubmission: Outcome,
    adapter: Option<string>, issued: Receipt, call: Outcome, recordSubmitted: Outcome, recordFailed: Outcome, fail: Outcome,
    persist: Outcome, debit: Outcome, journal: Outcome, matched: Outcome, now: nat, settle: Outcome)

  function Opening(a: Answers): seq<Step> {
    [Start(0, a.context), Decide(0, a.verdict)]
  }

  function SubmitScript(a: Answers): seq<Step> {
    [AddSubmission(0, a.insertSubmission), ReadSubmission(0), CallAdapter(0, a.adapter, a.issued, a.call),
     MarkSubmitted(0, a.recordSubmitted), MarkFailed(0, a.recordFailed), Fail(0, a.fail), Persist(0, a.persist)]
  }

  function Booking(a: Answers): seq<Step> {
    [DebitWallet(0, a.debit), ReadJournal(0), AddJournal(0, a.journal), ReadMatched(0), AddMatched(0, a.matched),
     MarkSettled(0, a.now, a.settle)]
  }

  function Script(a: Answers): seq<Step> {
    Opening(a) + SubmitScript(a) + Booking(a)
  }

  /** A result of the provider is on record. */
  predicate OnRecord(d: Store) {
    d.submission.Some? && d.submission.value.status == Submitted
    && d.submission.value.receipt.Some? && d.submission.value.receipt.value.providerRef != ""
  }

  /** The provider is called, answers, and its answer is recorded. */
  predicate ProviderAnswers(a: Answers) {
    a.adapter.Some? && a.call.EffectOk? && a.recordSubmitted.EffectOk?
  }

  /** The handler gets as far as the debit, with a reference in the payment's row. */
  predicate GetsReference(d: Store, a: Answers) {
    d.receipt.providerRef != ""
    || (a.insertSubmission.EffectOk? && (OnRecord(d) || ProviderAnswers(a)) && a.persist.EffectOk?)
  }

  /** It tries the provider in vain and records that. */
  predicate GivesUp(d: Store, a: Answers) {
    d.receipt.providerRef == "" && a.insertSubmission.EffectOk? && !OnRecord(d) && !ProviderAnswers(a) && a.recordFailed.EffectOk?
  }

  predicate GetsDebited(t: Terms, d: Store, a: Answers) {
    !Ledger.DebitResult(d.book, DebitRequestOf(t, a.context)).1.Rejected? && a.debit.EffectOk?
  }

  /** A statement that is made only where there is no row yet. */
  predicate PresentOr(present: bool, outcome: Outcome) {
    present || outcome.EffectOk?
  }

  predicate GetsToTheEnd(t: Terms, d: Store, a: Answers) {
    GetsDebited(t, d, a) && PresentOr(d.journal != [], a.journal) && PresentOr(d.matched != [], a.matched)
  }

  /** The debit, the journal and the Matched row are there, those that were before as they were. */
  predicate HasBooked(t: Terms, d: Store, d': Store, a: Answers) {
    && d'.book == Ledger.DebitResult(d.book, DebitRequestOf(t, a.context)).0
    && d'.journal == (if d.journal == [] then Accounting.Lines(BillOf(t, a.context)) else d.journal)
    && d'.matched == (if d.matched == [] then [OnChainEvent] else d.matched)
  }

  /** A cleared run settles the payment. */
  predicate Settles(t: Terms, d: Store, a: Answers) {
    GetsReference(d, a) && GetsToTheEnd(t, d, a) && !a.settle.NoEffectError?
  }

  /** A cleared run fails the payment. */
  predicate Fails(d: Store, a: Answers) {
    GivesUp(d, a) && !a.fail.NoEffectError?
  }

  /** The state of the step system with the one run at a given place, or with none. */
  function Alone(d: Store, r: Option<Run>): State {
    State(d, match r case Some(run) => map[0 := run] case None => map[])
  }

  lemma EndedIsOver(t: Terms, d: Store, steps: seq<Step>)
    requires forall i :: 0 <= i < |steps| ==> !steps[i].Start? && IsStatementOf(steps[i], 0)
    ensures RunAll(t, Alone(d, None), steps) == Alone(d, None)
    decreases |steps|
  {
    if steps != [] {
      assert IsStatementOf(steps[0], 0);
      assert Alone(d, None).runs - {0} == map[];
      assert Apply(t, Alone(d, None), steps[0]) == Alone(d, None);
      EndedIsOver(t, d, steps[1..]);
    }
  }

  lemma GotoAlone(d: Store, r: Run, pc: Pc)
    ensures Goto(Alone(d, Some(r)), 0, pc) == Alone(d, Some(r.(pc := pc)))
    ensures End(Alone(d, Some(r)), 0) == Alone(d, None)
  {
    assert (map[0 := r])[0 := r.(pc := pc)] == map[0 := r.(pc := pc)];
    assert map[0 := r] - {0} == map[];
  }

  lemma WriteAlone(d: Store, r: Run, outcome: Outcome, d': Store, next: Option<Pc>, failed: Option<Pc>)
    ensures
      Write(Alone(d, Some(r)), 0, outcome, d', next, failed)
      == Alone(if outcome.NoEffectError? then d else d',
               match (if outcome.EffectOk? then next else failed) case Some(pc) => Some(r.(pc := pc)) case None => None)
  {
    var target := if outcome.EffectOk? then next else failed;
    if target.Some? {
      GotoAlone(d, r, target.value);
      GotoAlone(d', r, target.value);
    } else {
      GotoAlone(d, r, r.pc);
      GotoAlone(d', r, r.pc);
    }
  }

  class Database {
    const t: Terms
    var status: Lifecycle.Status
    var receipt: Receipt
    var settledAt: Option<nat>
    var submission: Option<Submission>
    var rail: seq<Transfer>
    var book: Ledger.Book
    var journal: seq<Accounting.JournalEntry>
    var matched: seq<MatchedSource>

    function Stored(): Store
      reads this
    {
      Store(status, receipt, settledAt, submission, rail, book, journal, matched)
    }

    constructor (t: Terms, book: Ledger.Book)
      ensures this.t == t
      ensures Stored() == Store(Lifecycle.Executing, NoReceipt, None, None, [], book, [], [])
    {
      this.t := t;
      status, receipt, settledAt, submission := Lifecycle.Executing, NoReceipt, None, None;
      rail, this.book, journal, matched := [], book, [], [];
    }

    /** `failPayment`: guarded by the current status. */
    method FailPaymentIfExecuting(outcome: Outcome)
      modifies this`status
      ensures status == if !outcome.NoEffectError? && old(status) == Lifecycle.Executing then Lifecycle.Failed else old(status)
    {
      if !outcome.NoEffectError? && status == Lifecycle.Executing {
        status := Lifecycle.Failed;
      }
    }

    /** `ensureProviderSubmission`: insert unless the row exists, then read it. */
    method EnsureProviderSubmission(outcome: Outcome) returns (row: Option<Submission>)
      modifies this`submission
      ensures submission == if old(submission).None? && !outcome.NoEffectError? then Some(Submission(Pending, None)) else old(submission)
      ensures row == if outcome.EffectOk? then submission else None
      ensures outcome.EffectOk? ==> row.Some?
    {
      if submission.None? && !outcome.NoEffectError? {
        submission := Some(Submission(Pending, None));
      }
      row := if outcome.EffectOk? then submission else None;
    }

    /** The try block: call the adapter, record its result. `held` is the run's local reference. */
    method CallProviderAndRecord(a: Answers, ghost r: Run) returns (caught: bool, result: Receipt, ghost held: Receipt)
      requires a.issued.providerRef != "" && submission.Some?
      modifies this`submission, this`rail
      ensures submission.Some? && (!caught ==> held == result)
      ensures caught <==> !ProviderAnswers(a)
      ensures !caught ==> (rail, result) == Submit(old(rail), a.adapter.value, RailKey(t), a.issued)
      ensures !caught ==> submission == Some(Submission(Submitted, Some(result)))
      ensures
        RunAll(t, Alone(old(Stored()), Some(r.(pc := CallProvider))), SubmitScript(a)[2..])
        == RunAll(t, Alone(Stored(), Some(r.(pc := if caught then RecordFailed else PersistReceipt, receipt := held))), SubmitScript(a)[4..])
    {
      ghost var d0 := Stored();
      result, held := NoReceipt, r.receipt;
      if a.adapter.None? || a.call.NoEffectError? {
        CallFails(t, d0, r, a);
        return true, result, held;
      }
      var submitted := Submit(rail, a.adapter.value, RailKey(t), a.issued);
      rail := submitted.0;
      if !a.call.EffectOk? {
        CallIsLost(t, d0, r, a);
        return true, result, held;
      }
      CallReturns(t, d0, r, a);
      result, held := submitted.1, submitted.1;
      if !a.recordSubmitted.NoEffectError? {
        submission := Some(Submission(Submitted, Some(result)));
      }
      caught := !a.recordSubmitted.EffectOk?;
    }

    /** The catch block: mark the submission failed, then the payment. */
    method FailSubmission(a: Answers, ghost r: Run)
      requires submission.Some?
      modifies this`submission, this`status
      ensures status == if a.recordFailed.EffectOk? && !a.fail.NoEffectError? && old(status) == Lifecycle.Executing then Lifecycle.Failed
                        else old(status)
      ensures !a.recordFailed.NoEffectError? ==> submission.Some? && submission.value.status == Rejected
      ensures RunAll(t, Alone(old(Stored()), Some(r.(pc := RecordFailed))), SubmitScript(a)[4..]) == Alone(Stored(), None)
    {
      AfterCaught(t, Stored(), r, a);
      if !a.recordFailed.NoEffectError? {
        submission := Some(submission.value.(status := Rejected));
      }
      if a.recordFailed.EffectOk? {
        FailPaymentIfExecuting(a.fail);
      }
    }

    method PersistReference(a: Answers, result: Receipt, ghost r: Run) returns (go: bool)
      requires r.receipt == result
      modifies this`receipt
      ensures go <==> a.persist.EffectOk?
      ensures receipt == if a.persist.NoEffectError? then old(receipt) else result
      ensures
        RunAll(t, Alone(old(Stored()), Some(r.(pc := PersistReceipt))), SubmitScript(a)[6..])
        == Alone(Stored(), if go then Some(r.(pc := Debit)) else None)
    {
      AfterPersist(t, Stored(), r, a);
      if !a.persist.NoEffectError? {
        receipt := result;
      }
      go := a.persist.EffectOk?;
    }

    /** Step 2: the provider submission. `go` is false when the handler has returned or thrown. */
    method SubmitToProvider(a: Answers, ghost r: Run) returns (go: bool, result: Receipt)
      requires r.pc == InsertSubmission && a.issued.providerRef != ""
      modifies this`submission, this`rail, this`status, this`receipt
      ensures go <==> a.insertSubmission.EffectOk? && (OnRecord(old(Stored())) || ProviderAnswers(a)) && a.persist.EffectOk?
      ensures go ==> receipt == result && status == old(status)
      ensures go && OnRecord(old(Stored())) ==> result == old(submission).value.receipt.value && rail == old(rail)
      ensures go && !OnRecord(old(Stored())) ==> (rail, result) == Submit(old(rail), a.adapter.value, RailKey(t), a.issued)
      ensures status == if old(status) == Lifecycle.Executing && a.insertSubmission.EffectOk? && !OnRecord(old(Stored()))
                           && !ProviderAnswers(a) && a.recordFailed.EffectOk? && !a.fail.NoEffectError? then Lifecycle.Failed
                        else old(status)
      ensures
        RunAll(t, Alone(old(Stored()), Some(r)), SubmitScript(a))
        == Alone(Stored(), if go then Some(r.(pc := Debit, receipt := result)) else None)
    {
      AfterInsert(t, Stored(), r, a);
      result := NoReceipt;
      var row := EnsureProviderSubmission(a.insertSubmission);
      if row.None? {
        return false, result;
      }
      if row.value.status == Submitted && row.value.receipt.Some? && row.value.receipt.value.providerRef != "" {
        result := row.value.receipt.value;
      } else {
        var caught;
        ghost var held;
        caught, result, held := CallProviderAndRecord(a, r);
        if caught {
          FailSubmission(a, r.(receipt := held));
          return false, result;
        }
        SkipCatch(t, Stored(), r.(receipt := result), a);
      }
      go := PersistReference(a, result, r.(receipt := result));
    }

    method DebitStep(a: Answers, ghost r: Run) returns (go: bool)
      requires r.pc == Debit && r.context == a.context
      modifies this`book
      ensures go <==> GetsDebited(t, old(Stored()), a)
      ensures go ==> book == Ledger.DebitResult(old(book), DebitRequestOf(t, a.context)).0
      ensures
        RunAll(t, Alone(old(Stored()), Some(r)), Booking(a))
        == if go then RunAll(t, Alone(Stored(), Some(r.(pc := SelectJournal))), Booking(a)[1..]) else Alone(Stored(), None)
    {
      AfterDebit(t, Stored(), r, a);
      var debited := Ledger.DebitResult(book, DebitRequestOf(t, a.context));
      if debited.1.Rejected? {
        return false;
      }
      if !a.debit.NoEffectError? {
        book := debited.0;
      }
      go := a.debit.EffectOk?;
    }

    method JournalStep(a: Answers, ghost r: Run) returns (go: bool)
      requires r.context == a.context
      modifies this`journal
      ensures go <==> PresentOr(old(journal) != [], a.journal)
      ensures go ==> journal == if old(journal) == [] then Accounting.Lines(BillOf(t, a.context)) else old(journal)
      ensures
        RunAll(t, Alone(old(Stored()), Some(r.(pc := SelectJournal))), Booking(a)[1..])
        == if go then RunAll(t, Alone(Stored(), Some(r.(pc := SelectMatched))), Booking(a)[3..]) else Alone(Stored(), None)
    {
      AfterJournal(t, Stored(), r, a);
      go := true;
      if journal == [] {
        if !a.journal.NoEffectError? {
          journal := Accounting.Lines(BillOf(t, a.context));
        }
        go := a.journal.EffectOk?;
      }
    }

    method MatchedStep(a: Answers, ghost r: Run) returns (go: bool)
      modifies this`matched
      ensures go <==> PresentOr(old(matched) != [], a.matched)
      ensures go ==> matched == if old(matched) == [] then [OnChainEvent] else old(matched)
      ensures
        RunAll(t, Alone(old(Stored()), Some(r.(pc := SelectMatched))), Booking(a)[3..])
        == if go then RunAll(t, Alone(Stored(), Some(r.(pc := Settle))), Booking(a)[5..]) else Alone(Stored(), None)
    {
      AfterMatched(t, Stored(), r, a);
      go := true;
      if matched == [] {
        if !a.matched.NoEffectError? {
          matched := [OnChainEvent];
        }
        go := a.matched.EffectOk?;
      }
    }

    method SettleStep(a: Answers, ghost r: Run)
      requires r.pc == Settle && r.seenSettledAt == settledAt
      modifies this`status, this`settledAt
      ensures status == (if old(status) == Lifecycle.Executing && !a.settle.NoEffectError? then Lifecycle.Settled else old(status))
      ensures settledAt == (if old(settledAt).None? && old(status) in {Lifecycle.Executing, Lifecycle.Settled} && !a.settle.NoEffectError?
                            then Some(a.now) else old(settledAt))
      ensures RunAll(t, Alone(old(Stored()), Some(r)), Booking(a)[5..]) == Alone(Stored(), None)
    {
      AfterSettle(t, Stored(), r, a);
      if Accepts(status, Lifecycle.Settled) && !a.settle.NoEffectError? {
        status, settledAt := Lifecycle.Settled, if settledAt.Some? then settledAt else Some(a.now);
      }
    }

    /** Steps 3 and 4: debit, journal, Matched row. */
    method Book(a: Answers, ghost r: Run) returns (go: bool)
      requires r.pc == Debit && r.context == a.context
      modifies this`book, this`journal, this`matched
      ensures go <==> GetsToTheEnd(t, old(Stored()), a)
      ensures go ==> HasBooked(t, old(Stored()), Stored(), a)
      ensures
        RunAll(t, Alone(old(Stored()), Some(r)), Booking(a))
        == if go then RunAll(t, Alone(Stored(), Some(r.(pc := Settle))), Booking(a)[5..]) else Alone(Stored(), None)
    {
      go := DebitStep(a, r);
      if go {
        go := JournalStep(a, r);
        if go {
          go := MatchedStep(a, r);
        }
      }
    }

    /** Steps 3 to 5. */
    method BookAndSettle(a: Answers, ghost r: Run)
      requires r.pc == Debit && r.context == a.context && r.seenSettledAt == settledAt
      modifies this`book, this`journal, this`matched, this`status, this`settledAt
      ensures status == if old(status) == Lifecycle.Executing && GetsToTheEnd(t, old(Stored()), a) && !a.settle.NoEffectError?
                        then Lifecycle.Settled else old(status)
      ensures GetsToTheEnd(t, old(Stored()), a) ==> HasBooked(t, old(Stored()), Stored(), a)
      ensures RunAll(t, Alone(old(Stored()), Some(r)), Booking(a)) == Alone(Stored(), None)
    {
      var go := Book(a, r);
      if go {
        SettleStep(a, r.(pc := Settle));
      }
    }

    /** Steps 2 to 5: the submission unless a reference is persisted already, and then the others. */
    method SubmitAndBook(a: Answers, providerRef: Receipt, ghost r: Run)
      requires r.pc == (if providerRef.providerRef == "" then InsertSubmission else Debit)
      requires r.context == a.context && r.seenSettledAt == settledAt && a.issued.providerRef != "" && providerRef == receipt
      modifies this
      ensures old(status) == Lifecycle.Executing ==>
        && (status == Lifecycle.Settled <==> Settles(t, old(Stored()), a)) && (status == Lifecycle.Failed <==> Fails(old(Stored()), a))
        && status in {Lifecycle.Executing, Lifecycle.Settled, Lifecycle.Failed}
      ensures old(status) == Lifecycle.Executing && status == Lifecycle.Settled ==> HasBooked(t, old(Stored()), Stored(), a)
      ensures RunAll(t, RunAll(t, Alone(old(Stored()), Some(r)), SubmitScript(a)), Booking(a)) == Alone(Stored(), None)
    {
      ghost var booking := r;
      if providerRef.providerRef == "" {
        var go, result := SubmitToProvider(a, r);
        if !go {
          EndedIsOver(t, Stored(), Booking(a));
          return;
        }
        booking := r.(pc := Debit, receipt := result);
      } else {
        SkipSubmission(t, Stored(), r, a);
      }
      BookAndSettle(a, booking);
    }

    /** `executePaymentSaga`: with no other run in between, one run of the step system. It settles or fails an
        executing payment exactly when its calls end as these predicates say. */
    method ExecutePaymentSaga(a: Answers)
      requires a.issued.providerRef != ""
      modifies this
      ensures old(status) != Lifecycle.Executing ==> Stored() == old(Stored())
      ensures old(status) == Lifecycle.Executing ==>
        && (status == Lifecycle.Settled <==> a.verdict == Some(Policy.Clear) && Settles(t, old(Stored()), a))
        && (status == Lifecycle.Failed <==>
              (a.verdict == Some(Policy.Blocked) && !a.fail.NoEffectError?)
              || (a.verdict == Some(Policy.Clear) && Fails(old(Stored()), a)))
        && status in {Lifecycle.Executing, Lifecycle.Settled, Lifecycle.Failed}
      ensures old(status) == Lifecycle.Executing && status == Lifecycle.Settled ==> HasBooked(t, old(Stored()), Stored(), a)
      ensures Alone(Stored(), None) == RunAll(t, Alone(old(Stored()), None), Script(a))
    {
      ghost var d0 := Stored();
      Phases(t, Alone(d0, None), a);
      OpeningRuns(t, d0, a);
      if status == Lifecycle.Settled {
        OverAfterOpening(t, d0, a);
        return;
      }
      if status != Lifecycle.Executing {
        OverAfterOpening(t, d0, a);
        return;
      }
      var providerRef := receipt;
      if a.verdict == Some(Policy.Blocked) {
        BlockedPath(t, d0, Run(FailPayment, a.context, receipt, settledAt, receipt), a);
        FailPaymentIfExecuting(a.fail);
        return;
      }
      if a.verdict != Some(Policy.Clear) {
        OverAfterOpening(t, d0, a);
        return;
      }
      SubmitAndBook(a, providerRef, Run(if receipt.providerRef == "" then InsertSubmission else Debit, a.context, receipt, settledAt, receipt));
    }
  }

  // ---------------------------------------------------------------- the same, step by step

  lemma Phases(t: Terms, s: State, a: Answers)
    ensures RunAll(t, s, Script(a)) == RunAll(t, RunAll(t, RunAll(t, s, Opening(a)), SubmitScript(a)), Booking(a))
  {
    assert Script(a) == Opening(a) + (SubmitScript(a) + Booking(a));
    SagaTheorems.RunConcat(t, s, Opening(a), SubmitScript(a) + Booking(a));
    SagaTheorems.RunConcat(t, RunAll(t, s, Opening(a)), SubmitScript(a), Booking(a));
  }

  /** Where the opening leaves a run on a payment in execution. */
  function Decided(d: Store, a: Answers): Option<Run> {
    var r := Run(Evaluate, a.context, d.receipt, d.settledAt, d.receipt);
    match a.verdict
    case Some(Blocked) => Some(r.(pc := FailPayment))
    case Some(Clear) => Some(r.(pc := if d.receipt.providerRef == "" then InsertSubmission else Debit))
    case _ => None
  }

  lemma DecisionRuns(t: Terms, d: Store, r: Run, verdict: Option<Policy.Verdict>)
    requires r.pc == Evaluate
    ensures
      Apply(t, Alone(d, Some(r)), Decide(0, verdict))
      == Alone(d, match verdict
                  case Some(Blocked) => Some(r.(pc := FailPayment))
                  case Some(Clear) => Some(r.(pc := if r.seen.providerRef == "" then InsertSubmission else Debit))
                  case _ => None)
  {
    GotoAlone(d, r, FailPayment);
    GotoAlone(d, r, if r.seen.providerRef == "" then InsertSubmission else Debit);
  }

  lemma TwoSteps(t: Terms, s: State, st: seq<Step>)
    requires |st| == 2
    ensures RunAll(t, s, st) == Apply(t, Apply(t, s, st[0]), st[1])
  {
    assert st[0..] == st && st[2..] == [];
    Take(t, s, st, 0);
    Take(t, Apply(t, s, st[0]), st, 1);
  }

  lemma OpeningRuns(t: Terms, d: Store, a: Answers)
    ensures RunAll(t, Alone(d, None), Opening(a)) == Alone(d, if d.status == Lifecycle.Executing then Decided(d, a) else None)
  {
    var st := Opening(a);
    TwoSteps(t, Alone(d, None), st);
    if d.status == Lifecycle.Executing {
      var r := Run(Evaluate, a.context, d.receipt, d.settledAt, d.receipt);
      assert Apply(t, Alone(d, None), st[0]) == Alone(d, Some(r));
      DecisionRuns(t, d, r, a.verdict);
    }
  }

  /** A run that has ended in the opening does nothing more. */
  lemma OverAfterOpening(t: Terms, d: Store, a: Answers)
    requires RunAll(t, Alone(d, None), Opening(a)) == Alone(d, None)
    ensures RunAll(t, RunAll(t, RunAll(t, Alone(d, None), Opening(a)), SubmitScript(a)), Booking(a)) == Alone(d, None)
  {
    EndedIsOver(t, d, SubmitScript(a));
    EndedIsOver(t, d, Booking(a));
  }

  lemma OverFrom(t: Terms, d: Store, st: seq<Step>, i: nat)
    requires i <= |st|
    requires forall k :: i <= k < |st| ==> !st[k].Start? && IsStatementOf(st[k], 0)
    ensures RunAll(t, Alone(d, None), st[i..]) == Alone(d, None)
  {
    EndedIsOver(t, d, st[i..]);
  }

  lemma AfterInsert(t: Terms, d: Store, r: Run, a: Answers)
    requires r.pc == InsertSubmission
    ensures
      var st := SubmitScript(a);
      var d' := d.(submission := if d.submission.None? && !a.insertSubmission.NoEffectError? then Some(Submission(Pending, None)) else d.submission);
      RunAll(t, Alone(d, Some(r)), st) ==
      if !a.insertSubmission.EffectOk? then Alone(d', None)
      else
        var row := d'.submission.value;
        if row.status == Submitted && row.receipt.Some? && row.receipt.value.providerRef != ""
        then RunAll(t, Alone(d', Some(r.(pc := PersistReceipt, receipt := row.receipt.value))), st[6..])
        else RunAll(t, Alone(d', Some(r.(pc := CallProvider))), st[2..])
  {
    var st, s := SubmitScript(a), Alone(d, Some(r));
    var d1 := d.(submission := if d.submission.None? then Some(Submission(Pending, None)) else d.submission);
    assert st[0..] == st;
    Take(t, s, st, 0);
    WriteAlone(d, r, a.insertSubmission, d1, Some(SelectSubmission), None);
    if !a.insertSubmission.EffectOk? {
      OverFrom(t, Apply(t, s, st[0]).store, st, 1);
    } else {
      ReadRow(t, d1, r.(pc := SelectSubmission), a);
    }
  }

  lemma ReadRow(t: Terms, d: Store, r: Run, a: Answers)
    requires r.pc == SelectSubmission && d.submission.Some?
    ensures
      var st := SubmitScript(a);
      var row := d.submission.value;
      RunAll(t, Alone(d, Some(r)), st[1..]) ==
      if row.status == Submitted && row.receipt.Some? && row.receipt.value.providerRef != ""
      then RunAll(t, Alone(d, Some(r.(pc := PersistReceipt, receipt := row.receipt.value))), st[6..])
      else RunAll(t, Alone(d, Some(r.(pc := CallProvider))), st[2..])
  {
    var row := d.submission.value;
    Take(t, Alone(d, Some(r)), SubmitScript(a), 1);
    if row.status == Submitted && row.receipt.Some? && row.receipt.value.providerRef != "" {
      RecordedIsResumed(t, d, r, a);
    } else {
      GotoAlone(d, r, CallProvider);
    }
  }

  lemma RecordedIsResumed(t: Terms, d: Store, r: Run, a: Answers)
    requires r.pc == SelectSubmission && d.submission.Some?
    requires var row := d.submission.value; row.status == Submitted && row.receipt.Some? && row.receipt.value.providerRef != ""
    ensures
      var st, q := SubmitScript(a), r.(pc := PersistReceipt, receipt := d.submission.value.receipt.value);
      RunAll(t, Apply(t, Alone(d, Some(r)), st[1]), st[2..]) == RunAll(t, Alone(d, Some(q)), st[6..])
  {
    var st, q := SubmitScript(a), r.(pc := PersistReceipt, receipt := d.submission.value.receipt.value);
    assert (map[0 := r])[0 := q] == map[0 := q];
    assert Apply(t, Alone(d, Some(r)), st[1]) == Alone(d, Some(q));
    SkipTo(t, Alone(d, Some(q)), st, 2, 6);
  }

  /** The call fails with no effect, or there is no adapter. */
  lemma CallFails(t: Terms, d: Store, r: Run, a: Answers)
    requires a.issued.providerRef != "" && (a.adapter.None? || a.call.NoEffectError?)
    ensures
      var st := SubmitScript(a);
      RunAll(t, Alone(d, Some(r.(pc := CallProvider))), st[2..]) == RunAll(t, Alone(d, Some(r.(pc := RecordFailed))), st[4..])
  {
    var st := SubmitScript(a);
    Take(t, Alone(d, Some(r.(pc := CallProvider))), st, 2);
    CallFailsStep(t, d, r.(pc := CallProvider), a);
    SkipTo(t, Alone(d, Some(r.(pc := RecordFailed))), st, 3, 4);
  }

  lemma CallFailsStep(t: Terms, d: Store, r: Run, a: Answers)
    requires r.pc == CallProvider && a.issued.providerRef != "" && (a.adapter.None? || a.call.NoEffectError?)
    ensures Apply(t, Alone(d, Some(r)), SubmitScript(a)[2]) == Alone(d, Some(r.(pc := RecordFailed)))
  {
    GotoAlone(d, r, RecordFailed);
  }

  /** The transfer is made, and the reply is lost. */
  lemma CallIsLost(t: Terms, d: Store, r: Run, a: Answers)
    requires a.issued.providerRef != "" && a.adapter.Some? && a.call.EffectError?
    ensures
      var st := SubmitScript(a);
      var rail := Submit(d.rail, a.adapter.value, RailKey(t), a.issued).0;
      RunAll(t, Alone(d, Some(r.(pc := CallProvider))), st[2..])
      == RunAll(t, Alone(d.(rail := rail), Some(r.(pc := RecordFailed))), st[4..])
  {
    var st, rail := SubmitScript(a), Submit(d.rail, a.adapter.value, RailKey(t), a.issued).0;
    Take(t, Alone(d, Some(r.(pc := CallProvider))), st, 2);
    CallIsLostStep(t, d, r.(pc := CallProvider), a);
    SkipTo(t, Alone(d.(rail := rail), Some(r.(pc := RecordFailed))), st, 3, 4);
  }

  lemma CallIsLostStep(t: Terms, d: Store, r: Run, a: Answers)
    requires r.pc == CallProvider && a.issued.providerRef != "" && a.adapter.Some? && a.call.EffectError?
    ensures
      var rail := Submit(d.rail, a.adapter.value, RailKey(t), a.issued).0;
      Apply(t, Alone(d, Some(r)), SubmitScript(a)[2]) == Alone(d.(rail := rail), Some(r.(pc := RecordFailed)))
  {
    GotoAlone(d.(rail := Submit(d.rail, a.adapter.value, RailKey(t), a.issued).0), r, RecordFailed);
  }

  lemma CallReturnsStep(t: Terms, d: Store, r: Run, a: Answers)
    requires r.pc == CallProvider && a.issued.providerRef != "" && a.adapter.Some? && a.call.EffectOk?
    ensures
      var (rail, q) := Submit(d.rail, a.adapter.value, RailKey(t), a.issued);
      Apply(t, Alone(d, Some(r)), SubmitScript(a)[2]) == Alone(d.(rail := rail), Some(r.(pc := RecordSubmitted, receipt := q)))
  {
    var (rail, q) := Submit(d.rail, a.adapter.value, RailKey(t), a.issued);
    assert (map[0 := r])[0 := r.(pc := RecordSubmitted, receipt := q)] == map[0 := r.(pc := RecordSubmitted, receipt := q)];
  }

  /** The transfer is made and the receipt comes back, to be recorded. */
  lemma CallReturns(t: Terms, d: Store, r: Run, a: Answers)
    requires a.issued.providerRef != "" && a.adapter.Some? && a.call.EffectOk?
    ensures
      var st := SubmitScript(a);
      var (rail, q) := Submit(d.rail, a.adapter.value, RailKey(t), a.issued);
      var recorded := if a.recordSubmitted.NoEffectError? then d.submission else Some(Submission(Submitted, Some(q)));
      RunAll(t, Alone(d, Some(r.(pc := CallProvider))), st[2..])
      == RunAll(t, Alone(d.(rail := rail, submission := recorded),
                         Some(r.(pc := if a.recordSubmitted.EffectOk? then PersistReceipt else RecordFailed, receipt := q))), st[4..])
  {
    var st := SubmitScript(a);
    var (rail, q) := Submit(d.rail, a.adapter.value, RailKey(t), a.issued);
    var d3, r3 := d.(rail := rail), r.(pc := RecordSubmitted, receipt := q);
    Take(t, Alone(d, Some(r.(pc := CallProvider))), st, 2);
    CallReturnsStep(t, d, r.(pc := CallProvider), a);
    Take(t, Alone(d3, Some(r3)), st, 3);
    WriteAlone(d3, r3, a.recordSubmitted, d3.(submission := Some(Submission(Submitted, Some(q)))), Some(PersistReceipt), Some(RecordFailed));
  }

  lemma AfterCaught(t: Terms, d: Store, r: Run, a: Answers)
    requires d.submission.Some?
    ensures
      var st := SubmitScript(a);
      var d1 := if a.recordFailed.NoEffectError? then d else d.(submission := Some(d.submission.value.(status := Rejected)));
      var d2 := if a.recordFailed.EffectOk? && !a.fail.NoEffectError? && d1.status == Lifecycle.Executing then d1.(status := Lifecycle.Failed) else d1;
      RunAll(t, Alone(d, Some(r.(pc := RecordFailed))), st[4..]) == Alone(d2, None)
  {
    var st, r4 := SubmitScript(a), r.(pc := RecordFailed);
    var s := Alone(d, Some(r4));
    Take(t, s, st, 4);
    WriteAlone(d, r4, a.recordFailed, d.(submission := Some(d.submission.value.(status := Rejected))), Some(FailPayment), None);
    var d1 := if a.recordFailed.NoEffectError? then d else d.(submission := Some(d.submission.value.(status := Rejected)));
    if a.recordFailed.EffectOk? {
      FailAndEnd(t, d1, r.(pc := FailPayment), a);
    } else {
      OverFrom(t, d1, st, 5);
    }
  }

  lemma FailAndEnd(t: Terms, d: Store, r: Run, a: Answers)
    requires r.pc == FailPayment
    ensures
      RunAll(t, Alone(d, Some(r)), SubmitScript(a)[5..])
      == Alone(if !a.fail.NoEffectError? && d.status == Lifecycle.Executing then d.(status := Lifecycle.Failed) else d, None)
  {
    var st, s := SubmitScript(a), Alone(d, Some(r));
    Take(t, s, st, 5);
    WriteAlone(d, r, a.fail, if d.status == Lifecycle.Executing then d.(status := Lifecycle.Failed) else d, None, None);
    OverFrom(t, Apply(t, s, st[5]).store, st, 6);
  }

  lemma SkipCatch(t: Terms, d: Store, r: Run, a: Answers)
    ensures
      RunAll(t, Alone(d, Some(r.(pc := PersistReceipt))), SubmitScript(a)[4..])
      == RunAll(t, Alone(d, Some(r.(pc := PersistReceipt))), SubmitScript(a)[6..])
  {
    SkipTo(t, Alone(d, Some(r.(pc := PersistReceipt))), SubmitScript(a), 4, 6);
  }

  lemma AfterPersist(t: Terms, d: Store, r: Run, a: Answers)
    ensures
      RunAll(t, Alone(d, Some(r.(pc := PersistReceipt))), SubmitScript(a)[6..])
      == Alone(if a.persist.NoEffectError? then d else d.(receipt := r.receipt),
               if a.persist.EffectOk? then Some(r.(pc := Debit)) else None)
  {
    var st, r6 := SubmitScript(a), r.(pc := PersistReceipt);
    Take(t, Alone(d, Some(r6)), st, 6);
    assert st[7..] == [];
    WriteAlone(d, r6, a.persist, d.(receipt := r.receipt), Some(Debit), None);
  }

  lemma BlockedPath(t: Terms, d: Store, r: Run, a: Answers)
    requires r.pc == FailPayment
    ensures
      var d' := if !a.fail.NoEffectError? && d.status == Lifecycle.Executing then d.(status := Lifecycle.Failed) else d;
      RunAll(t, RunAll(t, Alone(d, Some(r)), SubmitScript(a)), Booking(a)) == Alone(d', None)
  {
    var st := SubmitScript(a);
    assert st[0..] == st;
    SkipTo(t, Alone(d, Some(r)), st, 0, 5);
    FailAndEnd(t, d, r, a);
    EndedIsOver(t, RunAll(t, Alone(d, Some(r)), st).store, Booking(a));
  }

  lemma SkipSubmission(t: Terms, d: Store, r: Run, a: Answers)
    requires r.pc == Debit
    ensures RunAll(t, Alone(d, Some(r)), SubmitScript(a)) == Alone(d, Some(r))
  {
    var st := SubmitScript(a);
    assert st[0..] == st && st[7..] == [];
    SkipTo(t, Alone(d, Some(r)), st, 0, 7);
  }

  lemma AfterDebit(t: Terms, d: Store, r: Run, a: Answers)
    requires r.pc == Debit && r.context == a.context
    ensures
      var st := Booking(a);
      var (book, reply) := Ledger.DebitResult(d.book, DebitRequestOf(t, a.context));
      RunAll(t, Alone(d, Some(r)), st) ==
      if reply.Rejected? then Alone(d, None)
      else
        var d1 := if a.debit.NoEffectError? then d else d.(book := book);
        if a.debit.EffectOk? then RunAll(t, Alone(d1, Some(r.(pc := SelectJournal))), st[1..]) else Alone(d1, None)
  {
    var st, s := Booking(a), Alone(d, Some(r));
    var (book, reply) := Ledger.DebitResult(d.book, DebitRequestOf(t, a.context));
    assert st[0..] == st;
    Take(t, s, st, 0);
    GotoAlone(d, r, r.pc);
    WriteAlone(d, r, a.debit, d.(book := book), Some(SelectJournal), None);
    OverFrom(t, d, st, 1);
    OverFrom(t, d.(book := book), st, 1);
  }

  lemma JournalIsRead(t: Terms, d: Store, r: Run, a: Answers)
    ensures
      RunAll(t, Alone(d, Some(r.(pc := SelectJournal))), Booking(a)[1..])
      == RunAll(t, Alone(d, Some(r.(pc := if d.journal == [] then InsertJournal else SelectMatched))), Booking(a)[2..])
  {
    var r1 := r.(pc := SelectJournal);
    Take(t, Alone(d, Some(r1)), Booking(a), 1);
    GotoAlone(d, r1, if d.journal == [] then InsertJournal else SelectMatched);
  }

  lemma AfterJournal(t: Terms, d: Store, r: Run, a: Answers)
    requires r.context == a.context
    ensures
      var st := Booking(a);
      var d1 := if d.journal == [] && !a.journal.NoEffectError? then d.(journal := Accounting.Lines(BillOf(t, a.context))) else d;
      RunAll(t, Alone(d, Some(r.(pc := SelectJournal))), st[1..]) ==
      if d.journal == [] && !a.journal.EffectOk? then Alone(d1, None)
      else RunAll(t, Alone(d1, Some(r.(pc := SelectMatched))), st[3..])
  {
    JournalIsRead(t, d, r, a);
    if d.journal == [] {
      AfterInsertJournal(t, d, r, a);
    } else {
      SkipTo(t, Alone(d, Some(r.(pc := SelectMatched))), Booking(a), 2, 3);
    }
  }

  lemma AfterInsertJournal(t: Terms, d: Store, r: Run, a: Answers)
    requires r.context == a.context && d.journal == []
    ensures
      var st := Booking(a);
      var d1 := if !a.journal.NoEffectError? then d.(journal := Accounting.Lines(BillOf(t, a.context))) else d;
      RunAll(t, Alone(d, Some(r.(pc := InsertJournal))), st[2..]) ==
      if !a.journal.EffectOk? then Alone(d1, None)
      else RunAll(t, Alone(d1, Some(r.(pc := SelectMatched))), st[3..])
  {
    var st := Booking(a);
    var r2, d2 := r.(pc := InsertJournal), d.(journal := Accounting.Lines(BillOf(t, a.context)));
    Take(t, Alone(d, Some(r2)), st, 2);
    WriteAlone(d, r2, a.journal, d2, Some(SelectMatched), None);
    OverFrom(t, d, st, 3);
    OverFrom(t, d2, st, 3);
  }

  lemma MatchedIsRead(t: Terms, d: Store, r: Run, a: Answers)
    ensures
      RunAll(t, Alone(d, Some(r.(pc := SelectMatched))), Booking(a)[3..])
      == RunAll(t, Alone(d, Some(r.(pc := if d.matched == [] then InsertMatched else Settle))), Booking(a)[4..])
  {
    var r3 := r.(pc := SelectMatched);
    Take(t, Alone(d, Some(r3)), Booking(a), 3);
    GotoAlone(d, r3, if d.matched == [] then InsertMatched else Settle);
  }

  lemma AfterInsertMatched(t: Terms, d: Store, r: Run, a: Answers)
    requires d.matched == []
    ensures
      var st := Booking(a);
      var d1 := if !a.matched.NoEffectError? then d.(matched := [OnChainEvent]) else d;
      RunAll(t, Alone(d, Some(r.(pc := InsertMatched))), st[4..]) ==
      if !a.matched.EffectOk? then Alone(d1, None) else RunAll(t, Alone(d1, Some(r.(pc := Settle))), st[5..])
  {
    var st, r4, d4 := Booking(a), r.(pc := InsertMatched), d.(matched := [OnChainEvent]);
    Take(t, Alone(d, Some(r4)), st, 4);
    WriteAlone(d, r4, a.matched, d4, Some(Settle), None);
    OverFrom(t, d, st, 5);
    OverFrom(t, d4, st, 5);
  }

  lemma AfterMatched(t: Terms, d: Store, r: Run, a: Answers)
    ensures
      var st := Booking(a);
      var d1 := if d.matched == [] && !a.matched.NoEffectError? then d.(matched := [OnChainEvent]) else d;
      RunAll(t, Alone(d, Some(r.(pc := SelectMatched))), st[3..]) ==
      if d.matched == [] && !a.matched.EffectOk? then Alone(d1, None)
      else RunAll(t, Alone(d1, Some(r.(pc := Settle))), st[5..])
  {
    MatchedIsRead(t, d, r, a);
    if d.matched == [] {
      AfterInsertMatched(t, d, r, a);
    } else {
      SkipTo(t, Alone(d, Some(r.(pc := Settle))), Booking(a), 4, 5);
    }
  }

  lemma AfterSettle(t: Terms, d: Store, r: Run, a: Answers)
    requires r.pc == Settle && r.seenSettledAt == d.settledAt
    ensures
      RunAll(t, Alone(d, Some(r)), Booking(a)[5..])
      == Alone(if Accepts(d.status, Lifecycle.Settled) && !a.settle.NoEffectError?
               then d.(status := Lifecycle.Settled, settledAt := if d.settledAt.Some? then d.settledAt else Some(a.now)) else d, None)
  {
    var st := Booking(a);
    Take(t, Alone(d, Some(r)), st, 5);
    assert st[6..] == [];
    GotoAlone(d, r, r.pc);
    WriteAlone(d, r, a.settle, d.(status := Lifecycle.Settled, settledAt := if d.settledAt.Some? then d.settledAt else Some(a.now)), None, None);
  }
}

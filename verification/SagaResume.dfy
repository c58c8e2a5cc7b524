/** Resume correctness: whatever earlier runs left behind, one uninterrupted run adds exactly the
    missing effects. */
module SagaResume {
  import opened Basics
  import opened Custody
  import opened Saga
  import opened SagaTheorems
  import Lifecycle
  import Ledger
  import Accounting
  import Policy

  /** A run that is not interrupted, is cleared by the policy, and whose calls all succeed. The
      statements of branches it does not take are not enabled and do nothing. */
  function SubmissionPart(run: RunId, c: Context, a: string, issued: Receipt): seq<Step> {
    [Start(run, c), Decide(run, Some(Policy.Clear)), AddSubmission(run, EffectOk), ReadSubmission(run),
     CallAdapter(run, Some(a), issued, EffectOk), MarkSubmitted(run, EffectOk), Persist(run, EffectOk)]
  }

  function BookingPart(run: RunId, now: nat): seq<Step> {
    [DebitWallet(run, EffectOk), ReadJournal(run), AddJournal(run, EffectOk), ReadMatched(run), AddMatched(run, EffectOk),
     MarkSettled(run, now, EffectOk)]
  }

  function Uninterrupted(run: RunId, c: Context, a: string, issued: Receipt, now: nat): seq<Step> {
    SubmissionPart(run, c, a, issued) + BookingPart(run, now)
  }

  /** The store once the provider step is behind the run. */
  function WithTransfer(t: Terms, d: Store, a: string, issued: Receipt): Store {
    if d.receipt.providerRef != "" then d
    else if d.submission.Some? && d.submission.value.status == Submitted && d.submission.value.receipt.Some?
            && d.submission.value.receipt.value.providerRef != ""
    then d.(receipt := d.submission.value.receipt.value)
    else
      var (rail, receipt) := Submit(d.rail, a, RailKey(t), issued);
      d.(rail := rail, receipt := receipt, submission := Some(Submission(Submitted, Some(receipt))))
  }

  function WithBooking(t: Terms, d: Store, c: Context, now: nat): Store {
    d.(book := Ledger.DebitResult(d.book, DebitRequestOf(t, c)).0,
       journal := if d.journal == [] then Accounting.Lines(BillOf(t, c)) else d.journal,
       matched := if d.matched == [] then [OnChainEvent] else d.matched,
       status := Lifecycle.Settled,
       settledAt := if d.settledAt.Some? then d.settledAt else Some(now))
  }

  lemma Take(t: Terms, s: State, steps: seq<Step>, i: nat)
    requires i < |steps|
    ensures RunAll(t, s, steps[i..]) == RunAll(t, Apply(t, s, steps[i]), steps[i + 1..])
  {
    assert steps[i..][1..] == steps[i + 1..];
  }

  /** Steps that do nothing where the run now stands. */
  lemma SkipTo(t: Terms, s: State, st: seq<Step>, i: nat, j: nat)
    requires i <= j <= |st|
    requires forall k :: i <= k < j ==> Apply(t, s, st[k]) == s
    ensures RunAll(t, s, st[i..]) == RunAll(t, s, st[j..])
    decreases j - i
  {
    if i < j {
      Take(t, s, st, i);
      SkipTo(t, s, st, i + 1, j);
    }
  }

  lemma Overwrite(runs: map<RunId, Run>, run: RunId, r: Run, q: Run)
    ensures runs[run := r][run := q] == runs[run := q]
  {
  }

  /** A successful write of a run moves it on and leaves the written store. */
  lemma WriteOk(d: Store, runs: map<RunId, Run>, run: RunId, r: Run, d': Store, next: Pc, failed: Option<Pc>)
    ensures Write(State(d, runs[run := r]), run, EffectOk, d', Some(next), failed) == State(d', runs[run := r.(pc := next)])
  {
    Overwrite(runs, run, r, r.(pc := next));
  }

  lemma GotoRun(d: Store, runs: map<RunId, Run>, run: RunId, r: Run, next: Pc)
    ensures Goto(State(d, runs[run := r]), run, next) == State(d, runs[run := r.(pc := next)])
  {
    Overwrite(runs, run, r, r.(pc := next));
  }

  lemma PartStarts(t: Terms, s: State, run: RunId, c: Context, st: seq<Step>, rest: seq<Step>)
    requires run !in s.runs && s.store.status == Lifecycle.Executing
    requires st == [Start(run, c), Decide(run, Some(Policy.Clear))] + rest
    ensures
      var pc := if s.store.receipt.providerRef != "" then Debit else InsertSubmission;
      RunAll(t, s, st) == RunAll(t, State(s.store, s.runs[run := Run(pc, c, s.store.receipt, s.store.settledAt, s.store.receipt)]), st[2..])
  {
    var r := Run(Evaluate, c, s.store.receipt, s.store.settledAt, s.store.receipt);
    var s1 := State(s.store, s.runs[run := r]);
    assert st[0..] == st;
    Take(t, s, st, 0);
    Take(t, s1, st, 1);
    Overwrite(s.runs, run, r, r.(pc := Debit));
    Overwrite(s.runs, run, r, r.(pc := InsertSubmission));
  }

  lemma SubmissionPartRuns(t: Terms, s: State, run: RunId, c: Context, a: string, issued: Receipt)
    requires run !in s.runs && s.store.status == Lifecycle.Executing && issued.providerRef != ""
    ensures
      var d' := WithTransfer(t, s.store, a, issued);
      RunAll(t, s, SubmissionPart(run, c, a, issued))
      == State(d', s.runs[run := Run(Debit, c, s.store.receipt, s.store.settledAt, d'.receipt)])
  {
    var st := SubmissionPart(run, c, a, issued);
    PartStarts(t, s, run, c, st, st[2..]);
    var r := Run(Evaluate, c, s.store.receipt, s.store.settledAt, s.store.receipt);
    if s.store.receipt.providerRef != "" {
      Idle(t, State(s.store, s.runs[run := r.(pc := Debit)]), st, 2);
    } else {
      SubmissionRuns(t, s.store, s.runs, run, r, st, a, issued);
    }
  }

  /** With the run already at the debit, the statements of the submission branch do nothing. */
  lemma Idle(t: Terms, s: State, st: seq<Step>, i: nat)
    requires i <= |st|
    requires forall k :: i <= k < |st| ==> SkippedAtDebit(s, st[k])
    ensures RunAll(t, s, st[i..]) == s
    decreases |st| - i
  {
    if i < |st| {
      Take(t, s, st, i);
      assert Apply(t, s, st[i]) == s;
      Idle(t, s, st, i + 1);
    }
  }

  predicate SkippedAtDebit(s: State, step: Step) {
    && (step.AddSubmission? || step.ReadSubmission? || step.CallAdapter? || step.MarkSubmitted? || step.Persist?)
    && At(s, step.run, Debit)
  }

  lemma SubmissionRuns(t: Terms, d: Store, runs: map<RunId, Run>, run: RunId, r: Run, st: seq<Step>, a: string, issued: Receipt)
    requires d.receipt.providerRef == "" && issued.providerRef != ""
    requires st == SubmissionPart(run, r.context, a, issued)
    ensures
      var d' := WithTransfer(t, d, a, issued);
      RunAll(t, State(d, runs[run := r.(pc := InsertSubmission)]), st[2..])
      == State(d', runs[run := r.(pc := Debit, receipt := d'.receipt)])
  {
    var s2 := State(d, runs[run := r.(pc := InsertSubmission)]);
    var row := if d.submission.None? then Submission(Pending, None) else d.submission.value;
    var d3 := d.(submission := Some(row));
    var s3 := State(d3, runs[run := r.(pc := SelectSubmission)]);
    assert Apply(t, s2, st[2]) == s3;
    Take(t, s2, st, 2);
    Take(t, s3, st, 3);
    if row.status == Submitted && row.receipt.Some? && row.receipt.value.providerRef != "" {
      ResumeRecorded(t, d3, runs, run, r, st, a, issued);
    } else {
      CallAndRecord(t, d3, runs, run, r, st, a, issued);
    }
  }

  lemma ResumeRecorded(t: Terms, d: Store, runs: map<RunId, Run>, run: RunId, r: Run, st: seq<Step>, a: string, issued: Receipt)
    requires st == SubmissionPart(run, r.context, a, issued)
    requires d.submission.Some? && d.submission.value.status == Submitted && d.submission.value.receipt.Some?
    requires d.submission.value.receipt.value.providerRef != ""
    ensures
      var q := d.submission.value.receipt.value;
      RunAll(t, Apply(t, State(d, runs[run := r.(pc := SelectSubmission)]), st[3]), st[4..])
      == State(d.(receipt := q), runs[run := r.(pc := Debit, receipt := q)])
  {
    var q := d.submission.value.receipt.value;
    var s4 := State(d, runs[run := r.(pc := PersistReceipt, receipt := q)]);
    assert Apply(t, State(d, runs[run := r.(pc := SelectSubmission)]), st[3]) == s4 by {
      Overwrite(runs, run, r.(pc := SelectSubmission), r.(pc := PersistReceipt, receipt := q));
    }
    SkipTo(t, s4, st, 4, 6);
    PersistIsLast(t, d, runs, run, r.(pc := PersistReceipt, receipt := q), st, a, issued);
  }

  lemma PersistIsLast(t: Terms, d: Store, runs: map<RunId, Run>, run: RunId, r: Run, st: seq<Step>, a: string, issued: Receipt)
    requires st == SubmissionPart(run, r.context, a, issued) && r.pc == PersistReceipt
    ensures RunAll(t, State(d, runs[run := r]), st[6..]) == State(d.(receipt := r.receipt), runs[run := r.(pc := Debit)])
  {
    Take(t, State(d, runs[run := r]), st, 6);
    WriteOk(d, runs, run, r, d.(receipt := r.receipt), Debit, None);
    assert st[7..] == [];
  }

  lemma CallAndRecord(t: Terms, d: Store, runs: map<RunId, Run>, run: RunId, r: Run, st: seq<Step>, a: string, issued: Receipt)
    requires st == SubmissionPart(run, r.context, a, issued)
    requires issued.providerRef != "" && d.submission.Some?
    requires !(d.submission.value.status == Submitted && d.submission.value.receipt.Some? && d.submission.value.receipt.value.providerRef != "")
    ensures
      var (rail, q) := Submit(d.rail, a, RailKey(t), issued);
      RunAll(t, Apply(t, State(d, runs[run := r.(pc := SelectSubmission)]), st[3]), st[4..])
      == State(d.(rail := rail, receipt := q, submission := Some(Submission(Submitted, Some(q)))), runs[run := r.(pc := Debit, receipt := q)])
  {
    var (rail, q) := Submit(d.rail, a, RailKey(t), issued);
    var s3, s4 := State(d, runs[run := r.(pc := SelectSubmission)]), State(d, runs[run := r.(pc := CallProvider)]);
    assert Apply(t, s3, st[3]) == s4 by { GotoRun(d, runs, run, r.(pc := SelectSubmission), CallProvider); }
    var d5, r5 := d.(rail := rail), r.(pc := RecordSubmitted, receipt := q);
    var s5 := State(d5, runs[run := r5]);
    assert Apply(t, s4, st[4]) == s5 by { Overwrite(runs, run, r.(pc := CallProvider), r5); }
    RecordAndPersist(t, d5, runs, run, r5, st, issued, a);
    Take(t, s4, st, 4);
  }

  lemma RecordAndPersist(t: Terms, d: Store, runs: map<RunId, Run>, run: RunId, r: Run, st: seq<Step>, issued: Receipt, a: string)
    requires st == SubmissionPart(run, r.context, a, issued) && r.pc == RecordSubmitted
    ensures
      RunAll(t, State(d, runs[run := r]), st[5..])
      == State(d.(receipt := r.receipt, submission := Some(Submission(Submitted, Some(r.receipt)))), runs[run := r.(pc := Debit)])
  {
    var d6 := d.(submission := Some(Submission(Submitted, Some(r.receipt))));
    var s5, s6 := State(d, runs[run := r]), State(d6, runs[run := r.(pc := PersistReceipt)]);
    WriteOk(d, runs, run, r, d6, PersistReceipt, Some(RecordFailed));
    assert Apply(t, s5, st[5]) == s6;
    WriteOk(d6, runs, run, r.(pc := PersistReceipt), d6.(receipt := r.receipt), Debit, None);
    Take(t, s5, st, 5);
    Take(t, s6, st, 6);
    assert st[7..] == [];
  }

  lemma DebitRuns(t: Terms, d: Store, runs: map<RunId, Run>, run: RunId, r: Run, now: nat)
    requires r.pc == Debit && !Ledger.DebitResult(d.book, DebitRequestOf(t, r.context)).1.Rejected?
    ensures
      var st, d1 := BookingPart(run, now), d.(book := Ledger.DebitResult(d.book, DebitRequestOf(t, r.context)).0);
      RunAll(t, State(d, runs[run := r]), st) == RunAll(t, State(d1, runs[run := r.(pc := SelectJournal)]), st[1..])
  {
    var st := BookingPart(run, now);
    assert st[0..] == st;
    Take(t, State(d, runs[run := r]), st, 0);
    WriteOk(d, runs, run, r, d.(book := Ledger.DebitResult(d.book, DebitRequestOf(t, r.context)).0), SelectJournal, None);
  }

  lemma BookingPartRuns(t: Terms, d: Store, runs: map<RunId, Run>, run: RunId, r: Run, now: nat)
    requires run !in runs && r.pc == Debit && d.status == Lifecycle.Executing && d.settledAt == r.seenSettledAt
    requires !Ledger.DebitResult(d.book, DebitRequestOf(t, r.context)).1.Rejected?
    ensures RunAll(t, State(d, runs[run := r]), BookingPart(run, now)) == State(WithBooking(t, d, r.context, now), runs)
  {
    var st := BookingPart(run, now);
    var d1 := d.(book := Ledger.DebitResult(d.book, DebitRequestOf(t, r.context)).0);
    DebitRuns(t, d, runs, run, r, now);
    JournalRuns(t, d1, runs, run, r, st, now);
    var d2 := d1.(journal := if d1.journal == [] then Accounting.Lines(BillOf(t, r.context)) else d1.journal);
    SettleRuns(t, d2, runs, run, r, st, now);
  }

  lemma JournalIsMissed(t: Terms, d: Store, runs: map<RunId, Run>, run: RunId, r: Run, st: seq<Step>, now: nat)
    requires st == BookingPart(run, now) && d.journal == []
    ensures
      RunAll(t, State(d, runs[run := r.(pc := SelectJournal)]), st[1..])
      == RunAll(t, State(d, runs[run := r.(pc := InsertJournal)]), st[2..])
  {
    Take(t, State(d, runs[run := r.(pc := SelectJournal)]), st, 1);
    GotoRun(d, runs, run, r.(pc := SelectJournal), InsertJournal);
  }

  lemma JournalIsWritten(t: Terms, d: Store, runs: map<RunId, Run>, run: RunId, r: Run, st: seq<Step>, now: nat)
    requires st == BookingPart(run, now) && d.journal == []
    ensures
      RunAll(t, State(d, runs[run := r.(pc := InsertJournal)]), st[2..])
      == RunAll(t, State(d.(journal := Accounting.Lines(BillOf(t, r.context))), runs[run := r.(pc := SelectMatched)]), st[3..])
  {
    Take(t, State(d, runs[run := r.(pc := InsertJournal)]), st, 2);
    WriteOk(d, runs, run, r.(pc := InsertJournal), d.(journal := Accounting.Lines(BillOf(t, r.context))), SelectMatched, None);
  }

  lemma JournalIsFound(t: Terms, d: Store, runs: map<RunId, Run>, run: RunId, r: Run, st: seq<Step>, now: nat)
    requires st == BookingPart(run, now) && d.journal != []
    ensures
      RunAll(t, State(d, runs[run := r.(pc := SelectJournal)]), st[1..])
      == RunAll(t, State(d, runs[run := r.(pc := SelectMatched)]), st[3..])
  {
    var s1, s2 := State(d, runs[run := r.(pc := SelectJournal)]), State(d, runs[run := r.(pc := SelectMatched)]);
    Take(t, s1, st, 1);
    GotoRun(d, runs, run, r.(pc := SelectJournal), SelectMatched);
    assert Apply(t, s1, st[1]) == s2;
    Take(t, s2, st, 2);
    assert Apply(t, s2, st[2]) == s2;
  }

  lemma JournalRuns(t: Terms, d: Store, runs: map<RunId, Run>, run: RunId, r: Run, st: seq<Step>, now: nat)
    requires st == BookingPart(run, now)
    ensures
      var d' := d.(journal := if d.journal == [] then Accounting.Lines(BillOf(t, r.context)) else d.journal);
      RunAll(t, State(d, runs[run := r.(pc := SelectJournal)]), st[1..]) == RunAll(t, State(d', runs[run := r.(pc := SelectMatched)]), st[3..])
  {
    if d.journal == [] {
      JournalIsMissed(t, d, runs, run, r, st, now);
      JournalIsWritten(t, d, runs, run, r, st, now);
    } else {
      JournalIsFound(t, d, runs, run, r, st, now);
      assert d.(journal := d.journal) == d;
    }
  }

  lemma SettleRuns(t: Terms, d: Store, runs: map<RunId, Run>, run: RunId, r: Run, st: seq<Step>, now: nat)
    requires run !in runs && st == BookingPart(run, now) && d.status == Lifecycle.Executing && d.settledAt == r.seenSettledAt
    ensures
      var d' := d.(matched := if d.matched == [] then [OnChainEvent] else d.matched, status := Lifecycle.Settled,
                   settledAt := if d.settledAt.Some? then d.settledAt else Some(now));
      RunAll(t, State(d, runs[run := r.(pc := SelectMatched)]), st[3..]) == State(d', runs)
  {
    var s3 := State(d, runs[run := r.(pc := SelectMatched)]);
    Take(t, s3, st, 3);
    if d.matched == [] {
      var s4, d5 := State(d, runs[run := r.(pc := InsertMatched)]), d.(matched := [OnChainEvent]);
      GotoRun(d, runs, run, r.(pc := SelectMatched), InsertMatched);
      assert Apply(t, s3, st[3]) == s4;
      Take(t, s4, st, 4);
      WriteOk(d, runs, run, r.(pc := InsertMatched), d5, Settle, None);
      assert Apply(t, s4, st[4]) == State(d5, runs[run := r.(pc := Settle)]);
      LastWrite(t, d5, runs, run, r.(pc := Settle), st, now);
    } else {
      var s4 := State(d, runs[run := r.(pc := Settle)]);
      GotoRun(d, runs, run, r.(pc := SelectMatched), Settle);
      assert Apply(t, s3, st[3]) == s4;
      Take(t, s4, st, 4);
      assert Apply(t, s4, st[4]) == s4;
      LastWrite(t, d, runs, run, r.(pc := Settle), st, now);
    }
  }

  lemma LastWrite(t: Terms, d: Store, runs: map<RunId, Run>, run: RunId, r: Run, st: seq<Step>, now: nat)
    requires run !in runs && st == BookingPart(run, now) && r.pc == Settle
    requires d.status == Lifecycle.Executing && d.settledAt == r.seenSettledAt
    ensures
      RunAll(t, State(d, runs[run := r]), st[5..])
      == State(d.(status := Lifecycle.Settled, settledAt := if d.settledAt.Some? then d.settledAt else Some(now)), runs)
  {
    Take(t, State(d, runs[run := r]), st, 5);
    assert st[6..] == [];
    assert runs[run := r] - {run} == runs;
  }

  lemma UninterruptedRuns(t: Terms, s: State, run: RunId, c: Context, a: string, issued: Receipt, now: nat)
    requires run !in s.runs && s.store.status == Lifecycle.Executing && issued.providerRef != ""
    requires !Ledger.DebitResult(s.store.book, DebitRequestOf(t, c)).1.Rejected?
    ensures
      RunAll(t, s, Uninterrupted(run, c, a, issued, now))
      == State(WithBooking(t, WithTransfer(t, s.store, a, issued), c, now), s.runs)
  {
    RunConcat(t, s, SubmissionPart(run, c, a, issued), BookingPart(run, now));
    SubmissionPartRuns(t, s, run, c, a, issued);
    var d' := WithTransfer(t, s.store, a, issued);
    BookingPartRuns(t, d', s.runs, run, Run(Debit, c, s.store.receipt, s.store.settledAt, d'.receipt), now);
  }

  // ---------------------------------------------------------------- only what is missing

  /** From any reachable Executing state an uninterrupted run settles the payment, leaves every
      effect that is already there as it is, and adds the others once. */
  lemma AddsOnlyWhatIsMissing(t: Terms, s: State, run: RunId, c: Context, a: string, issued: Receipt, now: nat)
    requires Inv(t, s) && CarriedBy(t, s.store.rail, {a})
    requires run !in s.runs && s.store.status == Lifecycle.Executing && issued.providerRef != ""
    requires !Ledger.DebitResult(s.store.book, DebitRequestOf(t, c)).1.Rejected?
    ensures
      var d, d' := s.store, RunAll(t, s, Uninterrupted(run, c, a, issued, now)).store;
      && d'.status == Lifecycle.Settled
      && d'.rail == (if Under(d.rail, RailKey(t)) == [] then d.rail + [Transfer(a, RailKey(t), issued)] else d.rail)
      && WasAccepted(t, d', d'.receipt)
      && (d.receipt.providerRef != "" ==> d'.receipt == d.receipt)
      && (Posting(d.book, t).Some? ==> d'.book == d.book)
      && (Posting(d.book, t).None? ==> t.wallet in d.book.wallets && Posting(d'.book, t) == Some(Ledger.DebitLines(d.book.wallets, DebitRequestOf(t, c))))
      && d'.journal == (if d.journal == [] then Accounting.Lines(BillOf(t, c)) else d.journal)
      && d'.matched == (if d.matched == [] then [OnChainEvent] else d.matched)
      && RunAll(t, s, Uninterrupted(run, c, a, issued, now)).runs == s.runs
  {
    UninterruptedRuns(t, s, run, c, a, issued, now);
    TransferOnce(t, s, a, issued);
    DebitShows(s.store.book, t, c);
  }

  lemma TransferOnce(t: Terms, s: State, a: string, issued: Receipt)
    requires Core(t, s) && CarriedBy(t, s.store.rail, {a}) && issued.providerRef != ""
    ensures
      var d, d' := s.store, WithTransfer(t, s.store, a, issued);
      && d'.rail == (if Under(d.rail, RailKey(t)) == [] then d.rail + [Transfer(a, RailKey(t), issued)] else d.rail)
      && WasAccepted(t, d', d'.receipt)
      && d'.book == d.book
  {
    var d := s.store;
    UnderMembers(d.rail, RailKey(t));
    LookupFinds(d.rail, a, RailKey(t));
    SubmitFacts(t, d, a, RailKey(t), issued);
    AcceptedMeansUnder(t, d);
    var rail := Submit(d.rail, a, RailKey(t), issued).0;
    if Under(d.rail, RailKey(t)) != [] {
      var x := Under(d.rail, RailKey(t))[0];
      assert x in d.rail && x.adapter == a;
      var i :| 0 <= i < |d.rail| && d.rail[i] == x;
      assert Lookup(d.rail, a, RailKey(t)).Some?;
    }
  }

  lemma AcceptedMeansUnder(t: Terms, d: Store)
    ensures forall r :: WasAccepted(t, d, r) ==> Under(d.rail, RailKey(t)) != []
  {
    UnderMembers(d.rail, RailKey(t));
  }

  /** The transfer an uninterrupted run ends with is the one already made, if there is one. */
  lemma ResumesTheSameTransfer(t: Terms, s: State, run: RunId, c: Context, a: string, issued: Receipt, now: nat, r: Receipt)
    requires Inv(t, s) && CarriedBy(t, s.store.rail, {a}) && WasAccepted(t, s.store, r)
    requires run !in s.runs && s.store.status == Lifecycle.Executing && issued.providerRef != ""
    requires !Ledger.DebitResult(s.store.book, DebitRequestOf(t, c)).1.Rejected?
    ensures RunAll(t, s, Uninterrupted(run, c, a, issued, now)).store.receipt == r
  {
    AddsOnlyWhatIsMissing(t, s, run, c, a, issued, now);
    AcceptedMeansUnder(t, s.store);
    OneCarrierOneTransfer(t, s, a);
  }

  // ---------------------------------------------------------------- compared with a crash-free run

  /** Every run fetched the context c, and the wallets table stayed as it is. */
  ghost predicate Steady(steps: seq<Step>, c: Context, wallets: map<string, Ledger.Wallet>) {
    && (forall i :: 0 <= i < |steps| && steps[i].Start? ==> steps[i].context == c)
    && (forall i :: 0 <= i < |steps| && steps[i].OtherLedger? ==> steps[i].next.wallets == wallets)
  }

  predicate SteadyState(t: Terms, s: State, c: Context, wallets: map<string, Ledger.Wallet>) {
    && s.store.book.wallets == wallets
    && (forall run :: run in s.runs ==> s.runs[run].context == c)
    && (Posting(s.store.book, t).Some? ==> t.wallet in wallets && Posting(s.store.book, t) == Some(Ledger.DebitLines(wallets, DebitRequestOf(t, c))))
    && (s.store.journal != [] ==> s.store.journal == Accounting.Lines(BillOf(t, c)))
  }

  lemma StepStaysSteady(t: Terms, s: State, step: Step, c: Context, wallets: map<string, Ledger.Wallet>)
    requires Ledger.Sound(s.store.book) && SteadyState(t, s, c, wallets)
    requires step.Start? ==> step.context == c
    requires step.OtherLedger? ==> step.next.wallets == wallets
    ensures SteadyState(t, Apply(t, s, step), c, wallets)
  {
    ContextsStay(t, s, step, c);
    if step.DebitWallet? {
      DebitStaysSteady(t, s, step.run, step.outcome, c, wallets);
    } else {
      BookAndJournalStay(t, s, step, c);
    }
  }

  lemma DebitStaysSteady(t: Terms, s: State, run: RunId, outcome: Outcome, c: Context, wallets: map<string, Ledger.Wallet>)
    requires Ledger.Sound(s.store.book) && SteadyState(t, s, c, wallets)
    ensures SteadyState(t, DoDebit(t, s, run, outcome), c, wallets)
  {
    var s' := DoDebit(t, s, run, outcome);
    DebitTouches(t, s, run, outcome);
    if s'.store.book != s.store.book {
      DebitedBookStaysSteady(t, s.store.book, c, wallets);
    }
  }

  /** A debit statement writes nothing but the ledger, and there what the ledger makes of the request. */
  lemma DebitTouches(t: Terms, s: State, run: RunId, outcome: Outcome)
    ensures
      var s' := DoDebit(t, s, run, outcome);
      && s'.store.(book := s.store.book) == s.store
      && (forall q :: q in s'.runs ==> q in s.runs && s'.runs[q].context == s.runs[q].context)
      && (s'.store.book == s.store.book ||
          (run in s.runs && s'.store.book == Ledger.DebitResult(s.store.book, DebitRequestOf(t, s.runs[run].context)).0))
  {
  }

  lemma DebitedBookStaysSteady(t: Terms, book: Ledger.Book, c: Context, wallets: map<string, Ledger.Wallet>)
    requires Ledger.Sound(book) && book.wallets == wallets
    requires Posting(book, t).Some? ==> t.wallet in wallets && Posting(book, t) == Some(Ledger.DebitLines(wallets, DebitRequestOf(t, c)))
    ensures
      var next := Ledger.DebitResult(book, DebitRequestOf(t, c)).0;
      && next.wallets == wallets
      && (Posting(next, t).Some? ==> t.wallet in wallets && Posting(next, t) == Some(Ledger.DebitLines(wallets, DebitRequestOf(t, c))))
  {
    DebitShows(book, t, c);
  }

  predicate AllContexts(s: State, c: Context) {
    forall run :: run in s.runs ==> s.runs[run].context == c
  }

  lemma SubmissionStepKeepsContexts(t: Terms, s: State, step: Step, c: Context)
    requires AllContexts(s, c)
    requires step.Decide? || step.AddSubmission? || step.ReadSubmission? || step.CallAdapter? || step.MarkSubmitted? || step.MarkFailed?
    ensures AllContexts(Apply(t, s, step), c)
  {
  }

  lemma BookingStepKeepsContexts(t: Terms, s: State, step: Step, c: Context)
    requires AllContexts(s, c)
    requires step.Fail? || step.Persist? || step.DebitWallet? || step.ReadJournal? || step.AddJournal? || step.ReadMatched? || step.AddMatched?
    ensures AllContexts(Apply(t, s, step), c)
  {
  }

  lemma ContextsStay(t: Terms, s: State, step: Step, c: Context)
    requires AllContexts(s, c)
    requires step.Start? ==> step.context == c
    ensures AllContexts(Apply(t, s, step), c)
  {
    if step.Decide? || step.AddSubmission? || step.ReadSubmission? || step.CallAdapter? || step.MarkSubmitted? || step.MarkFailed? {
      SubmissionStepKeepsContexts(t, s, step, c);
    } else if step.Fail? || step.Persist? || step.DebitWallet? || step.ReadJournal? || step.AddJournal? || step.ReadMatched? || step.AddMatched? {
      BookingStepKeepsContexts(t, s, step, c);
    }
  }

  lemma BookAndJournalStay(t: Terms, s: State, step: Step, c: Context)
    requires !step.DebitWallet?
    requires forall run :: run in s.runs ==> s.runs[run].context == c
    ensures
      var d, d' := s.store, Apply(t, s, step).store;
      && Posting(d'.book, t) == Posting(d.book, t)
      && (d'.book == d.book || (step.OtherLedger? && d'.book == step.next))
      && (d'.journal == d.journal || (d.journal == [] && d'.journal == Accounting.Lines(BillOf(t, c))))
  {
    if !step.OtherLedger? {
      OnlyDebitsTouchTheBook(t, s, step);
      if !step.AddJournal? {
        OnlyAddJournalWritesIt(t, s, step);
      }
    }
  }

  lemma OnlyAddJournalWritesIt(t: Terms, s: State, step: Step)
    requires !step.AddJournal?
    ensures Apply(t, s, step).store.journal == s.store.journal
  {
  }

  lemma {:induction false} RunsStaySteady(t: Terms, s: State, steps: seq<Step>, c: Context, wallets: map<string, Ledger.Wallet>)
    requires Ledger.Sound(s.store.book) && SteadyState(t, s, c, wallets) && Steady(steps, c, wallets)
    ensures SteadyState(t, RunAll(t, s, steps), c, wallets)
    decreases |steps|
  {
    if steps != [] {
      StepStaysSteady(t, s, steps[0], c, wallets);
      StepKeepsBookSound(t, s, steps[0]);
      RunsStaySteady(t, Apply(t, s, steps[0]), steps[1..], c, wallets);
    }
  }

  /** What the outside world sees of one payment. */
  datatype Effects = Effects(transfers: seq<Transfer>, receipt: Receipt, posting: Option<seq<Ledger.Line>>, journal: seq<Accounting.JournalEntry>, matched: seq<MatchedSource>, settled: bool)

  function EffectsOf(t: Terms, d: Store): Effects {
    Effects(Under(d.rail, RailKey(t)), d.receipt, Posting(d.book, t), d.journal, d.matched, d.status == Lifecycle.Settled)
  }

  /** Only the statement matcher inserts a Matched row other than the saga's own. */
  predicate NoStatementMatch(steps: seq<Step>) {
    forall i :: 0 <= i < |steps| ==> !steps[i].StatementMatch?
  }

  lemma StepKeepsOwnMatch(t: Terms, s: State, step: Step)
    requires s.store.matched in {[], [OnChainEvent]} && !step.StatementMatch?
    ensures Apply(t, s, step).store.matched in {[], [OnChainEvent]}
  {
  }

  lemma {:induction false} RunsKeepOwnMatch(t: Terms, s: State, steps: seq<Step>)
    requires s.store.matched in {[], [OnChainEvent]} && NoStatementMatch(steps)
    ensures RunAll(t, s, steps).store.matched in {[], [OnChainEvent]}
    decreases |steps|
  {
    if steps != [] {
      StepKeepsOwnMatch(t, s, steps[0]);
      RunsKeepOwnMatch(t, Apply(t, s, steps[0]), steps[1..]);
    }
  }

  /** Resume correctness: crash, retry and duplicate as often as you like; an uninterrupted run from
      whatever Executing state results ends with the very effects of a run that never crashed, except
      that a Matched row inserted by the statement matcher in the meantime is kept. So the effects are
      the same exactly when there is no such row, and there is none unless the matcher ran. */
  lemma ResumeEqualsCrashFree(t: Terms, s0: State, steps: seq<Step>, run: RunId, c: Context, a: string, issued: Receipt, now: nat)
    requires Fresh(t, s0) && s0.store.status == Lifecycle.Executing
    requires UsesOnly(steps, {a}) && Steady(steps, c, s0.store.book.wallets)
    requires run !in RunAll(t, s0, steps).runs && RunAll(t, s0, steps).store.status == Lifecycle.Executing
    requires issued.providerRef != ""
    requires !Ledger.DebitResult(s0.store.book, DebitRequestOf(t, c)).1.Rejected?
    requires !Ledger.DebitResult(RunAll(t, s0, steps).store.book, DebitRequestOf(t, c)).1.Rejected?
    ensures
      var before := RunAll(t, s0, steps).store.matched;
      var resumed := RunAll(t, RunAll(t, s0, steps), Uninterrupted(run, c, a, issued, now)).store;
      var crashFree := RunAll(t, s0, Uninterrupted(run, c, a, resumed.receipt, now)).store;
      && EffectsOf(t, resumed).(matched := [OnChainEvent]) == EffectsOf(t, crashFree)
      && resumed.matched == (if before == [ProviderStatement] then [ProviderStatement] else [OnChainEvent])
      && (EffectsOf(t, resumed) == EffectsOf(t, crashFree) <==> before != [ProviderStatement])
      && (NoStatementMatch(steps) ==> EffectsOf(t, resumed) == EffectsOf(t, crashFree))
  {
    var s := RunAll(t, s0, steps);
    FreshIsInv(t, s0);
    RunsKeepInv(t, s0, steps);
    UnderMembers(s0.store.rail, RailKey(t));
    RunsCarriedBy(t, s0, steps, {a});
    RunsStaySteady(t, s0, steps, c, s0.store.book.wallets);
    EffectsOfUninterrupted(t, s, run, c, a, issued, now, s0.store.book.wallets);
    var resumed := RunAll(t, s, Uninterrupted(run, c, a, issued, now)).store;
    EffectsOfUninterrupted(t, s0, run, c, a, resumed.receipt, now, s0.store.book.wallets);
    MatchedIsOneOf(s.store.matched);
    if NoStatementMatch(steps) {
      RunsKeepOwnMatch(t, s0, steps);
    }
  }

  lemma MatchedIsOneOf(matched: seq<MatchedSource>)
    requires |matched| <= 1
    ensures matched in {[], [OnChainEvent], [ProviderStatement]}
  {
    if matched != [] {
      assert matched == [matched[0]];
      match matched[0]
      case OnChainEvent => assert matched == [OnChainEvent];
      case ProviderStatement => assert matched == [ProviderStatement];
    }
  }

  /** The effects after an uninterrupted run depend on nothing but the payment, the context, the
      wallets, the reference the provider issued and a Matched row that was there already. */
  lemma EffectsOfUninterrupted(t: Terms, s: State, run: RunId, c: Context, a: string, issued: Receipt, now: nat, wallets: map<string, Ledger.Wallet>)
    requires Inv(t, s) && CarriedBy(t, s.store.rail, {a}) && SteadyState(t, s, c, wallets)
    requires run !in s.runs && s.store.status == Lifecycle.Executing && issued.providerRef != ""
    requires !Ledger.DebitResult(s.store.book, DebitRequestOf(t, c)).1.Rejected?
    ensures
      var d := RunAll(t, s, Uninterrupted(run, c, a, issued, now)).store;
      && t.wallet in wallets
      && EffectsOf(t, d) == Effects([Transfer(a, RailKey(t), d.receipt)], d.receipt, Some(Ledger.DebitLines(wallets, DebitRequestOf(t, c))),
                                    Accounting.Lines(BillOf(t, c)), if s.store.matched == [] then [OnChainEvent] else s.store.matched, true)
      && d.receipt.providerRef != ""
      && (Under(s.store.rail, RailKey(t)) == [] ==> d.receipt == issued)
  {
    AddsOnlyWhatIsMissing(t, s, run, c, a, issued, now);
    EndsWithOneTransfer(t, s, run, c, a, issued, now);
  }

  lemma EndsWithOneTransfer(t: Terms, s: State, run: RunId, c: Context, a: string, issued: Receipt, now: nat)
    requires Inv(t, s) && CarriedBy(t, s.store.rail, {a})
    requires run !in s.runs && s.store.status == Lifecycle.Executing && issued.providerRef != ""
    requires !Ledger.DebitResult(s.store.book, DebitRequestOf(t, c)).1.Rejected?
    ensures
      var d := RunAll(t, s, Uninterrupted(run, c, a, issued, now)).store;
      && Under(d.rail, RailKey(t)) == [Transfer(a, RailKey(t), d.receipt)] && d.receipt.providerRef != ""
      && (Under(s.store.rail, RailKey(t)) == [] ==> d.receipt == issued)
  {
    var steps := Uninterrupted(run, c, a, issued, now);
    AddsOnlyWhatIsMissing(t, s, run, c, a, issued, now);
    RunsKeepInv(t, s, steps);
    OneCarrierOneTransfer(t, RunAll(t, s, steps), a);
    if Under(s.store.rail, RailKey(t)) == [] {
      UnderMembers(s.store.rail, RailKey(t));
    }
  }

  /** A run delivered for a settled payment does nothing at all. */
  lemma {:induction false} SettledRunsDoNothing(t: Terms, s: State, run: RunId, steps: seq<Step>)
    requires s.store.status == Lifecycle.Settled && run !in s.runs
    requires forall i :: 0 <= i < |steps| ==> IsStatementOf(steps[i], run)
    ensures RunAll(t, s, steps) == s
    decreases |steps|
  {
    if steps != [] {
      assert IsStatementOf(steps[0], run);
      assert s.runs - {run} == s.runs;
      assert Apply(t, s, steps[0]) == s;
      SettledRunsDoNothing(t, s, run, steps[1..]);
    }
  }

  predicate IsStatementOf(step: Step, run: RunId) {
    match step
    case Command(_) => false
    case Retry => false
    case StatementMatch => false
    case OtherTransfer(_, _, _) => false
    case OtherLedger(_) => false
    case _ => step.run == run
  }
}

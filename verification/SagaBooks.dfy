/** What a settled payment has moved: in the ledger, account by account, and in the journal; and what has
    to come first (services/job-worker/src/handlers/payment-saga.mjs:32-141). */
module SagaBooks {
  import opened Basics
  import opened Custody
  import opened Saga
  import SagaTheorems
  import DebitTheorems
  import Lifecycle
  import Ledger
  import Accounting
  import Policy

  // ---------------------------------------------------------------- the posting

  function NetOf(lines: seq<Ledger.Line>, filter: Ledger.Filter): int {
    Ledger.Net(Ledger.Numbered(0, lines), filter)
  }

  function SharedAccount(t: Terms, kind: Ledger.Kind, asset: string): Ledger.Filter {
    Ledger.OfAccounts({Ledger.Account(t.tenant, None, kind, asset)})
  }

  /** Amount and fee have left the source wallet; the amount has gone to one other wallet or to the
      tenant's clearing account, and the fee to its fee account. */
  ghost predicate PaidTo(t: Terms, lines: seq<Ledger.Line>, asset: string, receiver: Option<string>) {
    && receiver != Some(t.wallet)
    && NetOf(lines, Ledger.OfWallet(t.wallet)) == -(t.amount + t.fee)
    && (forall id :: id != t.wallet ==> NetOf(lines, Ledger.OfWallet(id)) == (if receiver == Some(id) then t.amount else 0))
    && NetOf(lines, SharedAccount(t, Ledger.SettlementClearing, asset)) == (if receiver.None? then t.amount else 0)
    && NetOf(lines, SharedAccount(t, Ledger.Fees, asset)) == t.fee
  }

  lemma DebitPays(wallets: map<string, Ledger.Wallet>, t: Terms, c: Context)
    requires t.wallet in wallets && t.amount > 0 && t.fee >= 0
    ensures
      var r := DebitRequestOf(t, c);
      PaidTo(t, Ledger.DebitLines(wallets, r), wallets[t.wallet].asset, Ledger.Destination(wallets, r))
  {
    var r := DebitRequestOf(t, c);
    var asset, receiver := wallets[t.wallet].asset, Ledger.Destination(wallets, r);
    forall id ensures NetOf(Ledger.DebitLines(wallets, r), Ledger.OfWallet(id)) ==
        (if id == t.wallet then -(t.amount + t.fee) else if receiver == Some(id) then t.amount else 0)
    {
      Ledger.DebitMoves(asset, r, receiver, 0, id);
    }
    DebitTheorems.SharedAccountsMove(asset, r, receiver, 0);
  }

  ghost predicate Paid(t: Terms, book: Ledger.Book) {
    Posting(book, t).Some? ==> exists asset, receiver :: PaidTo(t, Posting(book, t).value, asset, receiver)
  }

  lemma DebitLeavesPaid(t: Terms, book: Ledger.Book, c: Context)
    requires Ledger.Sound(book) && Paid(t, book) && t.amount > 0 && t.fee >= 0
    ensures Paid(t, Ledger.DebitResult(book, DebitRequestOf(t, c)).0)
  {
    DebitShows(book, t, c);
    if Posting(book, t).None? && !Ledger.DebitResult(book, DebitRequestOf(t, c)).1.Rejected? {
      DebitPays(book.wallets, t, c);
    }
  }

  lemma StepLeavesPaid(t: Terms, s: State, step: Step)
    requires Ledger.Sound(s.store.book) && Paid(t, s.store.book) && t.amount > 0 && t.fee >= 0
    ensures Paid(t, Apply(t, s, step).store.book)
  {
    match step
    case DebitWallet(run, outcome) =>
      DebitLeavesBook(t, s, run, outcome);
      if At(s, run, Debit) {
        DebitLeavesPaid(t, s.store.book, s.runs[run].context);
      }
    case OtherLedger(next) =>
      assert Posting(Surroundings(t, s.store, step).book, t) == Posting(s.store.book, t);
    case _ => OnlyDebitsTouchTheBook(t, s, step);
  }

  lemma {:induction false} RunsLeavePaid(t: Terms, s: State, steps: seq<Step>)
    requires Inv(t, s) && Paid(t, s.store.book)
    ensures Paid(t, RunAll(t, s, steps).store.book)
    decreases |steps|
  {
    if steps != [] {
      StepLeavesPaid(t, s, steps[0]);
      StepKeepsCore(t, s, steps[0]);
      StepKeepsBookSound(t, s, steps[0]);
      RunsLeavePaid(t, Apply(t, s, steps[0]), steps[1..]);
    }
  }

  /** The wallet a context names as the destination takes the amount: it is another active one of the
      payment's tenant, in the asset of the source. */
  predicate Takes(t: Terms, c: Context, wallets: map<string, Ledger.Wallet>, id: string) {
    && c.destination == Some(id) && id != t.wallet && id in wallets && t.wallet in wallets
    && wallets[id].active && wallets[id].tenant == t.tenant && wallets[id].asset == wallets[t.wallet].asset
  }

  /** Where a run's debit changes the ledger it posts one transaction for the payment under its own key,
      and the destination its context names gets the amount exactly if it takes it. */
  lemma DebitStepPosts(t: Terms, s: State, run: RunId, outcome: Outcome, id: string)
    requires At(s, run, Debit) && Apply(t, s, DebitWallet(run, outcome)).store.book != s.store.book
    ensures
      var book, next, c := s.store.book, Apply(t, s, DebitWallet(run, outcome)).store.book, s.runs[run].context;
      && next.transactions == book.transactions + [Ledger.Transaction(t.tenant, "debit:" + t.id, Some(t.id))]
      && Ledger.ViewBalance(next, id) == Ledger.ViewBalance(book, id)
           + (if id == t.wallet then -(t.amount + t.fee) else if Takes(t, c, book.wallets, id) then t.amount else 0)
  {
    var r := DebitRequestOf(t, s.runs[run].context);
    DebitLeavesBook(t, s, run, outcome);
    DebitTheorems.PostedDebitMoves(s.store.book, r, id);
    DebitTheorems.PostedDebitAppends(s.store.book, r);
  }

  // ---------------------------------------------------------------- the journal

  /** The batch of the payment: the sum leaves the cash equivalent, the fee is an expense, and the amount
      is owed by the group or settles a supplier. */
  predicate Booked(t: Terms, journal: seq<Accounting.JournalEntry>) {
    var cash, fees := "Stablecoin cash equivalent", "Network and provider fees";
    var other := if t.intraGroup then "Intercompany receivable" else "Supplier payable";
    && Accounting.Moved(journal, cash) == -(t.amount + t.fee)
    && Accounting.Moved(journal, fees) == t.fee
    && Accounting.Moved(journal, other) == t.amount
    && forall e :: e in journal ==> e.tenant == t.tenant && e.payment == t.id && e.account in [cash, fees, other]
  }

  lemma LinesAreBooked(t: Terms, c: Context)
    ensures
      var journal := Accounting.Lines(BillOf(t, c));
      Booked(t, journal) && forall e :: e in journal ==> e.entity == c.entity && e.currency == c.currency
  {
    Accounting.BatchMovesExactly(BillOf(t, c), "");
  }

  lemma FullBatchIsBooked(t: Terms, journal: seq<Accounting.JournalEntry>)
    requires FullBatch(t, journal)
    ensures Booked(t, journal)
  {
    LinesAreBooked(t, Context(None, journal[0].entity, journal[0].currency));
  }

  lemma JournalIsWritten(t: Terms, s: State, run: RunId, outcome: Outcome)
    requires At(s, run, InsertJournal)
    ensures
      var journal := Apply(t, s, AddJournal(run, outcome)).store.journal;
      journal == s.store.journal || (s.store.journal == [] && journal == Accounting.Lines(BillOf(t, s.runs[run].context)))
  {
  }

  /** Where a run writes the journal it is the payment's, in the entity and currency of the run's context. */
  lemma JournalStepWrites(t: Terms, s: State, run: RunId, outcome: Outcome)
    requires At(s, run, InsertJournal) && Apply(t, s, AddJournal(run, outcome)).store.journal != s.store.journal
    ensures
      var c, journal := s.runs[run].context, Apply(t, s, AddJournal(run, outcome)).store.journal;
      && s.store.journal == [] && Booked(t, journal)
      && forall e :: e in journal ==> e.entity == c.entity && e.currency == c.currency
  {
    JournalIsWritten(t, s, run, outcome);
    LinesAreBooked(t, s.runs[run].context);
  }

  /** Over every run, with any crashes, retries and duplicates: a settled payment has left the source
      wallet once with its fee, arrived once, in another wallet or in clearing, and is in the journal with
      the same amounts. */
  lemma SettledIsBookedEverywhere(t: Terms, s: State, steps: seq<Step>)
    requires Fresh(t, s)
    ensures
      var d := RunAll(t, s, steps).store;
      d.status == Lifecycle.Settled ==>
        && Posting(d.book, t).Some? && (exists asset, receiver :: PaidTo(t, Posting(d.book, t).value, asset, receiver))
        && Booked(t, d.journal)
  {
    SagaTheorems.FreshIsInv(t, s);
    RunsLeavePaid(t, s, steps);
    SagaTheorems.EffectsComeInOrder(t, s, steps);
    var d := RunAll(t, s, steps).store;
    if d.journal != [] {
      FullBatchIsBooked(t, d.journal);
    }
  }

  // ---------------------------------------------------------------- the policy comes first

  /** No run has got past the policy check, and there is no trace of the payment outside its own row. */
  predicate Untouched(t: Terms, s: State) {
    && (forall run :: run in s.runs ==> s.runs[run].pc in {Evaluate, FailPayment})
    && s.store.status != Lifecycle.Settled && s.store.receipt == NoReceipt && s.store.submission.None?
    && Under(s.store.rail, RailKey(t)) == [] && Posting(s.store.book, t).None? && s.store.journal == []
  }

  /** Some step of these is a policy check that cleared the payment. */
  predicate Cleared(steps: seq<Step>) {
    exists i :: 0 <= i < |steps| && steps[i].Decide? && steps[i].verdict == Some(Policy.Clear)
  }

  lemma OtherTransferKeepsUntouched(t: Terms, s: State, carrier: string, key: string, issued: Receipt)
    requires Untouched(t, s)
    ensures Untouched(t, Apply(t, s, OtherTransfer(carrier, key, issued)))
  {
    var d := s.store;
    if key != RailKey(t) && Submit(d.rail, carrier, key, issued).0 != d.rail {
      var x := Transfer(carrier, key, issued);
      assert (d.rail + [x])[..|d.rail|] == d.rail;
    }
  }

  lemma SurroundingsKeepUntouched(t: Terms, s: State, step: Step)
    requires Untouched(t, s) && IsSurrounding(step)
    ensures Untouched(t, Apply(t, s, step))
  {
    if step.OtherTransfer? {
      OtherTransferKeepsUntouched(t, s, step.carrier, step.key, step.issued);
    }
  }

  predicate IsEarly(step: Step) {
    step.Start? || step.Decide? || step.Fail? || step.Stop? || step.Outlive?
  }

  predicate IsSurrounding(step: Step) {
    step.Command? || step.Retry? || step.StatementMatch? || step.OtherLedger? || step.OtherTransfer?
  }

  lemma EarlyStepLeavesStore(t: Terms, s: State, step: Step)
    requires IsEarly(step)
    ensures
      var d' := Apply(t, s, step).store;
      d' == s.store || d' == s.store.(status := Lifecycle.Failed)
  {
  }

  lemma EarlyRunsStayEarly(t: Terms, s: State, step: Step)
    requires IsEarly(step) && !(step.Decide? && step.verdict == Some(Policy.Clear))
    requires forall run :: run in s.runs ==> s.runs[run].pc in {Evaluate, FailPayment}
    ensures forall run :: run in Apply(t, s, step).runs ==> Apply(t, s, step).runs[run].pc in {Evaluate, FailPayment}
  {
  }

  lemma EarlyStepKeepsUntouched(t: Terms, s: State, step: Step)
    requires Untouched(t, s) && IsEarly(step) && !(step.Decide? && step.verdict == Some(Policy.Clear))
    ensures Untouched(t, Apply(t, s, step))
  {
    EarlyStepLeavesStore(t, s, step);
    EarlyRunsStayEarly(t, s, step);
  }

  /** The later statements are not reached. */
  lemma LateStepDoesNothing(t: Terms, s: State, step: Step)
    requires Untouched(t, s) && !IsEarly(step) && !IsSurrounding(step)
    ensures Apply(t, s, step) == s
  {
  }

  lemma StepKeepsUntouched(t: Terms, s: State, step: Step)
    requires Untouched(t, s) && !(step.Decide? && step.verdict == Some(Policy.Clear))
    ensures Untouched(t, Apply(t, s, step))
  {
    if IsSurrounding(step) {
      SurroundingsKeepUntouched(t, s, step);
    } else if IsEarly(step) {
      EarlyStepKeepsUntouched(t, s, step);
    } else {
      LateStepDoesNothing(t, s, step);
    }
  }

  lemma {:induction false} RunsKeepUntouched(t: Terms, s: State, steps: seq<Step>)
    requires Untouched(t, s) && !Cleared(steps)
    ensures Untouched(t, RunAll(t, s, steps))
    decreases |steps|
  {
    if steps != [] {
      StepKeepsUntouched(t, s, steps[0]);
      assert forall i :: 0 <= i < |steps[1..]| ==> steps[1..][i] == steps[i + 1];
      RunsKeepUntouched(t, Apply(t, s, steps[0]), steps[1..]);
    }
  }

  /** Until a run of the saga has had the payment cleared by the policy service, nothing is submitted to a
      provider, debited, journalled or settled, whatever verdicts other runs have had. */
  lemma NothingMovesUncleared(t: Terms, s: State, steps: seq<Step>)
    requires Fresh(t, s) && !Cleared(steps)
    ensures
      var d := RunAll(t, s, steps).store;
      && Under(d.rail, RailKey(t)) == [] && d.submission.None? && d.receipt == NoReceipt
      && Posting(d.book, t).None? && d.journal == [] && d.status != Lifecycle.Settled
  {
    RunsKeepUntouched(t, s, steps);
  }

  /** What a run does with the verdict: a blocked payment fails, if it is executing still, and the run is
      over; a payment to be reviewed is left as it is. */
  lemma VerdictDecides(t: Terms, s: State, run: RunId, verdict: Option<Policy.Verdict>, outcome: Outcome)
    requires At(s, run, Evaluate)
    ensures
      var s' := Apply(t, Apply(t, s, Decide(run, verdict)), Fail(run, outcome));
      var fails := verdict == Some(Policy.Blocked) && s.store.status == Lifecycle.Executing && outcome != NoEffectError;
      && s'.store == s.store.(status := if fails then Lifecycle.Failed else s.store.status)
      && (run !in s'.runs <==> verdict != Some(Policy.Clear))
  {
  }

  // ---------------------------------------------------------------- for good

  /** What is booked stays as it is. */
  ghost predicate BookedStays(t: Terms, d: Store, d': Store) {
    && (Posting(d.book, t).Some? ==> Posting(d'.book, t) == Posting(d.book, t))
    && (d.journal != [] ==> d'.journal == d.journal)
    && (d.matched != [] ==> d'.matched == d.matched)
  }

  predicate SameRows(d: Store, d': Store) {
    d'.journal == d.journal && d'.matched == d.matched
  }

  predicate OfSubmission(step: Step) {
    step.AddSubmission? || step.ReadSubmission? || step.CallAdapter? || step.MarkSubmitted? || step.MarkFailed? || step.Persist?
  }

  lemma SubmissionLeavesRows(t: Terms, s: State, step: Step)
    requires OfSubmission(step)
    ensures SameRows(s.store, Apply(t, s, step).store)
  {
  }

  lemma OthersLeaveRows(t: Terms, s: State, step: Step)
    requires !OfSubmission(step) && !step.AddJournal? && !step.AddMatched? && !step.StatementMatch?
    ensures SameRows(s.store, Apply(t, s, step).store)
  {
  }

  lemma RowsStay(t: Terms, s: State, step: Step)
    ensures
      var d, d' := s.store, Apply(t, s, step).store;
      (d.journal != [] ==> d'.journal == d.journal) && (d.matched != [] ==> d'.matched == d.matched)
  {
    if OfSubmission(step) {
      SubmissionLeavesRows(t, s, step);
    } else if !step.AddJournal? && !step.AddMatched? && !step.StatementMatch? {
      OthersLeaveRows(t, s, step);
    }
  }

  lemma PostingStays(t: Terms, s: State, step: Step)
    requires Ledger.Sound(s.store.book) && Posting(s.store.book, t).Some?
    ensures Posting(Apply(t, s, step).store.book, t) == Posting(s.store.book, t)
  {
    match step
    case DebitWallet(run, outcome) =>
      DebitLeavesBook(t, s, run, outcome);
      if At(s, run, Debit) {
        DebitShows(s.store.book, t, s.runs[run].context);
      }
    case OtherLedger(next) =>
      assert Posting(Surroundings(t, s.store, step).book, t) == Posting(s.store.book, t);
    case _ => OnlyDebitsTouchTheBook(t, s, step);
  }

  /** Whatever runs, retries, other payments and the statement matcher do afterwards: a debit posted, a
      journal written and a Matched row inserted, by whomever, are never changed or made again. */
  lemma {:induction false} BookedForGood(t: Terms, s: State, steps: seq<Step>)
    requires Inv(t, s)
    ensures BookedStays(t, s.store, RunAll(t, s, steps).store)
    decreases |steps|
  {
    if steps != [] {
      var step := steps[0];
      RowsStay(t, s, step);
      if Posting(s.store.book, t).Some? {
        PostingStays(t, s, step);
      }
      StepKeepsCore(t, s, step);
      StepKeepsBookSound(t, s, step);
      BookedForGood(t, Apply(t, s, step), steps[1..]);
    }
  }

  /** The statement matcher may insert the Matched row first; it never inserts a second. */
  lemma MatcherMayComeFirst(t: Terms, s: State)
    ensures
      var d' := Apply(t, s, StatementMatch).store;
      d' == s.store.(matched := if s.store.matched == [] then [ProviderStatement] else s.store.matched)
  {
  }

  /** A run whose caller has given up on it can go on beside the next one, from where it is. */
  lemma OutlivesItsCaller(t: Terms, s: State, run: RunId, twin: RunId)
    requires run in s.runs
    ensures
      var s' := Apply(t, Apply(t, s, Outlive(run, twin)), Stop(run));
      twin !in s.runs ==> s'.store == s.store && s'.runs == (s.runs - {run})[twin := s.runs[run]]
    ensures twin in s.runs ==> Apply(t, s, Outlive(run, twin)) == s
  {
  }
}

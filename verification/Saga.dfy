/** The settlement saga of services/job-worker/src/handlers/payment-saga.mjs as a step system: any
    number of runs of one payment, interleaved, duplicated, or stopped between any two statements,
    against the services they call. */
module Saga {
  import opened Basics
  import opened Custody
  import Lifecycle
  import Ledger
  import Accounting
  import Policy

  // ---------------------------------------------------------------- what is stored

  /** The columns of the payment row that never change. */
  datatype Terms = Terms(id: string, tenant: string, intraGroup: bool, wallet: string, amount: int, fee: int)

  datatype SubmissionStatus = Pending | Submitted | Rejected

  /** The row of provider_submissions; its provider_ref is NULL until a result is recorded. */
  datatype Submission = Submission(status: SubmissionStatus, receipt: Option<Receipt>)

  datatype MatchedSource = OnChainEvent | ProviderStatement

  /** All persistent state the saga of one payment reads or writes. The rail and the ledger are
      shared with all other payments. */
  datatype Store = Store(
    status: Lifecycle.Status, receipt: Receipt, settledAt: Option<nat>,
    submission: Option<Submission>, rail: seq<Transfer>, book: Ledger.Book,
    journal: seq<Accounting.JournalEntry>, matched: seq<MatchedSource>)

  const NoReceipt := Receipt("", "")

  function RailKey(t: Terms): string {
    "payment:" + t.id
  }

  function DebitKey(t: Terms): string {
    "debit:" + t.id
  }

  /** What `getPaymentContext` has fetched for a run. */
  datatype Context = Context(destination: Option<string>, entity: string, currency: string)

  function DebitRequestOf(t: Terms, c: Context): Ledger.DebitRequest {
    Ledger.DebitRequest(t.tenant, t.wallet, Some(DebitKey(t)), t.amount, t.fee, c.destination, Some(t.id))
  }

  function BillOf(t: Terms, c: Context): Accounting.Bill {
    Accounting.Bill(t.tenant, t.id, t.intraGroup, t.amount, t.fee, c.entity, c.currency)
  }

  // ---------------------------------------------------------------- a run

  /** The statement a run executes next. */
  datatype Pc =
    | Evaluate | InsertSubmission | SelectSubmission | CallProvider | RecordSubmitted | RecordFailed | FailPayment
    | PersistReceipt | Debit | SelectJournal | InsertJournal | SelectMatched | InsertMatched | Settle

  /** The locals of a run: `seen` and `seenSettledAt` are its snapshot of the payment row, `receipt` the reassigned
      providerRef and chainRef. */
  datatype Run = Run(pc: Pc, context: Context, seen: Receipt, seenSettledAt: Option<nat>, receipt: Receipt)

  type RunId = nat

  datatype State = State(store: Store, runs: map<RunId, Run>)

  datatype Step =
    // one statement of a run
    | Start(run: RunId, context: Context)
    | Decide(run: RunId, verdict: Option<Policy.Verdict>)
    | AddSubmission(run: RunId, outcome: Outcome)
    | ReadSubmission(run: RunId)
    | CallAdapter(run: RunId, adapter: Option<string>, issued: Receipt, outcome: Outcome)
    | MarkSubmitted(run: RunId, outcome: Outcome)
    | MarkFailed(run: RunId, outcome: Outcome)
    | Fail(run: RunId, outcome: Outcome)
    | Persist(run: RunId, outcome: Outcome)
    | DebitWallet(run: RunId, outcome: Outcome)
    | ReadJournal(run: RunId)
    | AddJournal(run: RunId, outcome: Outcome)
    | ReadMatched(run: RunId)
    | AddMatched(run: RunId, outcome: Outcome)
    | MarkSettled(run: RunId, now: nat, outcome: Outcome)
    // a process dies; a request outlives the caller that gave up on it
    | Stop(run: RunId)
    | Outlive(run: RunId, twin: RunId)
    // everything else that touches the same state
    | Command(to: Lifecycle.Status)
    | Retry
    | StatementMatch
    | OtherTransfer(carrier: string, key: string, issued: Receipt)
    | OtherLedger(next: Ledger.Book)

  function Goto(s: State, run: RunId, pc: Pc): State
    requires run in s.runs
  {
    s.(runs := s.runs[run := s.runs[run].(pc := pc)])
  }

  function End(s: State, run: RunId): State {
    s.(runs := s.runs - {run})
  }

  /** A write as seen by a run: the effect may happen without the run learning of it, and a run
      that is told of an error goes to `failed` or, with None, throws. */
  function Write(s: State, run: RunId, outcome: Outcome, written: Store, next: Option<Pc>, failed: Option<Pc>): State
    requires run in s.runs
  {
    var s' := if outcome.NoEffectError? then s else s.(store := written);
    var target := if outcome.EffectOk? then next else failed;
    match target case Some(pc) => Goto(s', run, pc) case None => End(s', run)
  }

  predicate At(s: State, run: RunId, pc: Pc) {
    run in s.runs && s.runs[run].pc == pc
  }

  /** What other payments and the wallet service may do to the ledger: anything that keeps it sound
      and leaves the posting under this payment's key as it is. */
  ghost predicate LeavesPostingAlone(t: Terms, book: Ledger.Book, next: Ledger.Book) {
    && Ledger.Sound(next)
    && Posting(next, t) == Posting(book, t)
  }

  function IndexOf(txs: seq<Ledger.Transaction>, tenant: string, key: string): Option<nat> {
    if txs == [] then None
    else if txs[|txs| - 1].tenant == tenant && txs[|txs| - 1].key == key then Some(|txs| - 1)
    else IndexOf(txs[..|txs| - 1], tenant, key)
  }

  function LinesAt(entries: seq<Ledger.Entry>, index: nat): seq<Ledger.Line> {
    if entries == [] then []
    else
      var last := entries[|entries| - 1];
      LinesAt(entries[..|entries| - 1], index) + (if last.transaction == index then [last.line] else [])
  }

  /** The lines posted under the payment's debit key, if it has been posted. */
  function Posting(book: Ledger.Book, t: Terms): Option<seq<Ledger.Line>> {
    match IndexOf(book.transactions, t.tenant, DebitKey(t))
    case None => None
    case Some(i) => Some(LinesAt(book.entries, i))
  }

  /** Status changes the payment service makes before execution. */
  predicate IsCommand(from: Lifecycle.Status, to: Lifecycle.Status) {
    from in {Lifecycle.PendingApproval, Lifecycle.Approved} && Lifecycle.Allowed(from, to)
  }

  /** The transition trigger lets an UPDATE to `to` through. */
  predicate Accepts(from: Lifecycle.Status, to: Lifecycle.Status) {
    Lifecycle.OnUpdate([], from, to).Some?
  }

  // ---------------------------------------------------------------- the statements

  function DoStart(s: State, run: RunId, c: Context): State {
    // A settled payment returns at once, any other status than Executing throws.
    if run in s.runs || s.store.status != Lifecycle.Executing then s
    else s.(runs := s.runs[run := Run(Evaluate, c, s.store.receipt, s.store.settledAt, s.store.receipt)])
  }

  function DoDecide(s: State, run: RunId, verdict: Option<Policy.Verdict>): State {
    if !At(s, run, Evaluate) then s
    else (match verdict
          case Some(Blocked) => Goto(s, run, FailPayment)
          case Some(Clear) => Goto(s, run, if s.runs[run].seen.providerRef == "" then InsertSubmission else Debit)
          case _ => End(s, run))
  }

  function DoInsertSubmission(s: State, run: RunId, outcome: Outcome): State {
    var d := s.store;
    if !At(s, run, InsertSubmission) then s
    else Write(s, run, outcome, d.(submission := if d.submission.None? then Some(Submission(Pending, None)) else d.submission),
               Some(SelectSubmission), None)
  }

  function DoSelectSubmission(s: State, run: RunId): State {
    if !At(s, run, SelectSubmission) || s.store.submission.None? then s
    else
      var row := s.store.submission.value;
      if row.status == Submitted && row.receipt.Some? && row.receipt.value.providerRef != ""
      then s.(runs := s.runs[run := s.runs[run].(pc := PersistReceipt, receipt := row.receipt.value)])
      else Goto(s, run, CallProvider)
  }

  /** The adapter is the one the context's provider resolves to now; the provider id kept in the
      submission row is not consulted. */
  function DoCallProvider(t: Terms, s: State, run: RunId, adapter: Option<string>, issued: Receipt, outcome: Outcome): State {
    if !At(s, run, CallProvider) || issued.providerRef == "" then s
    else if adapter.None? || outcome.NoEffectError? then Goto(s, run, RecordFailed)
    else
      var (rail, receipt) := Submit(s.store.rail, adapter.value, RailKey(t), issued);
      var s' := s.(store := s.store.(rail := rail));
      if outcome.EffectOk?
      then s'.(runs := s.runs[run := s.runs[run].(pc := RecordSubmitted, receipt := receipt)])
      else Goto(s', run, RecordFailed)
  }

  function DoRecordSubmitted(s: State, run: RunId, outcome: Outcome): State {
    if !At(s, run, RecordSubmitted) then s
    else Write(s, run, outcome, s.store.(submission := Some(Submission(Submitted, Some(s.runs[run].receipt)))),
               Some(PersistReceipt), Some(RecordFailed))
  }

  function DoRecordFailed(s: State, run: RunId, outcome: Outcome): State {
    var d := s.store;
    if !At(s, run, RecordFailed) || d.submission.None? then s
    else Write(s, run, outcome, d.(submission := Some(d.submission.value.(status := Rejected))), Some(FailPayment), None)
  }

  function DoFailPayment(s: State, run: RunId, outcome: Outcome): State {
    var d := s.store;
    if !At(s, run, FailPayment) then s
    else Write(s, run, outcome, if d.status == Lifecycle.Executing then d.(status := Lifecycle.Failed) else d, None, None)
  }

  function DoPersistReceipt(s: State, run: RunId, outcome: Outcome): State {
    if !At(s, run, PersistReceipt) then s
    else Write(s, run, outcome, s.store.(receipt := s.runs[run].receipt), Some(Debit), None)
  }

  function DoDebit(t: Terms, s: State, run: RunId, outcome: Outcome): State {
    if !At(s, run, Debit) then s
    else
      var (book, reply) := Ledger.DebitResult(s.store.book, DebitRequestOf(t, s.runs[run].context));
      if reply.Rejected? then End(s, run)
      else Write(s, run, outcome, s.store.(book := book), Some(SelectJournal), None)
  }

  function DoSelectJournal(s: State, run: RunId): State {
    if !At(s, run, SelectJournal) then s
    else Goto(s, run, if s.store.journal == [] then InsertJournal else SelectMatched)
  }

  /** The unique constraint turns a second batch into the answer that it exists. */
  function DoInsertJournal(t: Terms, s: State, run: RunId, outcome: Outcome): State {
    var d := s.store;
    if !At(s, run, InsertJournal) then s
    else Write(s, run, outcome, if d.journal == [] then d.(journal := Accounting.Lines(BillOf(t, s.runs[run].context))) else d,
               Some(SelectMatched), None)
  }

  function DoSelectMatched(s: State, run: RunId): State {
    if !At(s, run, SelectMatched) then s
    else Goto(s, run, if s.store.matched == [] then InsertMatched else Settle)
  }

  function DoInsertMatched(s: State, run: RunId, outcome: Outcome): State {
    var d := s.store;
    if !At(s, run, InsertMatched) then s
    else Write(s, run, outcome, if d.matched == [] then d.(matched := [OnChainEvent]) else d, Some(Settle), None)
  }

  /** Not guarded by the current status: only the trigger stands between Failed and Settled. */
  function DoSettle(s: State, run: RunId, now: nat, outcome: Outcome): State {
    if !At(s, run, Settle) then s
    else if !Accepts(s.store.status, Lifecycle.Settled) then End(s, run)
    else
      var at := if s.runs[run].seenSettledAt.Some? then s.runs[run].seenSettledAt else Some(now);
      Write(s, run, outcome, s.store.(status := Lifecycle.Settled, settledAt := at), None, None)
  }

  function DoOutlive(s: State, run: RunId, twin: RunId): State {
    if run in s.runs && twin !in s.runs then s.(runs := s.runs[twin := s.runs[run]]) else s
  }

  /** Everything else that touches the same state. */
  ghost function Surroundings(t: Terms, d: Store, step: Step): Store {
    match step
    case Command(to) => if IsCommand(d.status, to) then d.(status := to) else d
    case Retry => if d.status == Lifecycle.Failed then d.(status := Lifecycle.Executing) else d
    case StatementMatch => if d.matched == [] then d.(matched := [ProviderStatement]) else d
    case OtherTransfer(carrier, key, issued) =>
      if key != RailKey(t) then d.(rail := Submit(d.rail, carrier, key, issued).0) else d
    case OtherLedger(next) => if LeavesPostingAlone(t, d.book, next) then d.(book := next) else d
    case _ => d
  }

  /** One step; a step that is not enabled leaves the state alone. */
  ghost function Apply(t: Terms, s: State, step: Step): State {
    match step
    case Start(run, c) => DoStart(s, run, c)
    case Decide(run, verdict) => DoDecide(s, run, verdict)
    case AddSubmission(run, outcome) => DoInsertSubmission(s, run, outcome)
    case ReadSubmission(run) => DoSelectSubmission(s, run)
    case CallAdapter(run, adapter, issued, outcome) => DoCallProvider(t, s, run, adapter, issued, outcome)
    case MarkSubmitted(run, outcome) => DoRecordSubmitted(s, run, outcome)
    case MarkFailed(run, outcome) => DoRecordFailed(s, run, outcome)
    case Fail(run, outcome) => DoFailPayment(s, run, outcome)
    case Persist(run, outcome) => DoPersistReceipt(s, run, outcome)
    case DebitWallet(run, outcome) => DoDebit(t, s, run, outcome)
    case ReadJournal(run) => DoSelectJournal(s, run)
    case AddJournal(run, outcome) => DoInsertJournal(t, s, run, outcome)
    case ReadMatched(run) => DoSelectMatched(s, run)
    case AddMatched(run, outcome) => DoInsertMatched(s, run, outcome)
    case MarkSettled(run, now, outcome) => DoSettle(s, run, now, outcome)
    case Stop(run) => End(s, run)
    case Outlive(run, twin) => DoOutlive(s, run, twin)
    case _ => s.(store := Surroundings(t, s.store, step))
  }

  ghost function RunAll(t: Terms, s: State, steps: seq<Step>): State
    decreases |steps|
  {
    if steps == [] then s else RunAll(t, Apply(t, s, steps[0]), steps[1..])
  }

  /** A payment nothing has happened to yet, on a rail and a ledger that know nothing of it. */
  ghost predicate Fresh(t: Terms, s: State) {
    && s.runs == map[]
    && s.store.status in {Lifecycle.PendingApproval, Lifecycle.Approved, Lifecycle.Executing, Lifecycle.Blocked, Lifecycle.Cancelled}
    && s.store.receipt == NoReceipt && s.store.settledAt.None? && s.store.submission.None?
    && s.store.journal == [] && s.store.matched == []
    && Idempotent(s.store.rail) && Under(s.store.rail, RailKey(t)) == []
    && Ledger.Sound(s.store.book) && Posting(s.store.book, t).None?
    && t.amount > 0 && t.fee >= 0
  }

  // ---------------------------------------------------------------- the invariant

  /** The provider holds a transfer of this payment with this receipt. */
  predicate WasAccepted(t: Terms, d: Store, r: Receipt) {
    r.providerRef != "" && exists x :: x in d.rail && x.key == RailKey(t) && x.receipt == r
  }

  /** The three lines of a complete batch, for whatever entity and currency the context named. */
  predicate FullBatch(t: Terms, journal: seq<Accounting.JournalEntry>) {
    && |journal| == 3
    && journal == Accounting.Lines(BillOf(t, Context(None, journal[0].entity, journal[0].currency)))
  }

  /** What posted lines take from the payment's source wallet. */
  function TakenFrom(lines: seq<Ledger.Line>, wallet: string): int {
    -Ledger.Net(Ledger.Numbered(0, lines), Ledger.OfWallet(wallet))
  }

  predicate PostingTakesTotal(t: Terms, d: Store) {
    Posting(d.book, t).Some? ==> TakenFrom(Posting(d.book, t).value, t.wallet) == t.amount + t.fee
  }

  predicate HoldsReceipt(pc: Pc) {
    pc in {RecordSubmitted, PersistReceipt, Debit, SelectJournal, InsertJournal, SelectMatched, InsertMatched, Settle}
  }

  predicate HasPersisted(pc: Pc) {
    pc in {Debit, SelectJournal, InsertJournal, SelectMatched, InsertMatched, Settle}
  }

  predicate HasDebited(pc: Pc) {
    pc in {SelectJournal, InsertJournal, SelectMatched, InsertMatched, Settle}
  }

  predicate Submitting(pc: Pc) {
    pc in {InsertSubmission, SelectSubmission, CallProvider, RecordSubmitted, RecordFailed, PersistReceipt}
  }

  predicate HasSubmissionRow(pc: Pc) {
    pc in {SelectSubmission, CallProvider, RecordSubmitted, RecordFailed}
  }

  /** What a run's program counter and locals say about the stored state. */
  predicate RunAgrees(t: Terms, d: Store, run: Run) {
    && (run.seen.providerRef != "" ==> d.receipt.providerRef != "" && run.receipt == run.seen && WasAccepted(t, d, run.seen))
    && (HoldsReceipt(run.pc) ==> WasAccepted(t, d, run.receipt))
    && (HasPersisted(run.pc) ==> d.receipt.providerRef != "")
    && (HasDebited(run.pc) ==> Posting(d.book, t).Some?)
    && (run.pc in {SelectMatched, InsertMatched, Settle} ==> d.journal != [])
    && (run.pc == Settle ==> d.matched != [])
    && (HasSubmissionRow(run.pc) ==> d.submission.Some?)
    && (Submitting(run.pc) ==> run.seen.providerRef == "")
  }

  predicate Ordered(t: Terms, d: Store) {
    && (d.status == Lifecycle.Settled ==> d.journal != [] && d.matched != [])
    && (d.journal != [] ==> FullBatch(t, d.journal) && Posting(d.book, t).Some?)
    && |d.matched| <= 1
    && (Posting(d.book, t).Some? ==> d.receipt.providerRef != "")
    && (d.receipt.providerRef != "" ==> WasAccepted(t, d, d.receipt))
    && (d.submission.Some? && d.submission.value.receipt.Some? ==> WasAccepted(t, d, d.submission.value.receipt.value))
    && PostingTakesTotal(t, d)
  }

  predicate ReceiptsNamed(t: Terms, rail: seq<Transfer>) {
    forall x :: x in rail && x.key == RailKey(t) ==> x.receipt.providerRef != ""
  }

  predicate Core(t: Terms, s: State) {
    && t.amount > 0 && t.fee >= 0
    && Idempotent(s.store.rail)
    && ReceiptsNamed(t, s.store.rail)
    && Ordered(t, s.store)
    && (forall run :: run in s.runs ==> RunAgrees(t, s.store, s.runs[run]))
    && (s.runs != map[] ==> UnderWay(s.store.status))
  }

  predicate UnderWay(status: Lifecycle.Status) {
    status in {Lifecycle.Executing, Lifecycle.Failed, Lifecycle.Settled}
  }

  ghost predicate Inv(t: Terms, s: State) {
    Core(t, s) && Ledger.Sound(s.store.book)
  }

  // ---------------------------------------------------------------- postings

  lemma {:induction false} IndexOfFinds(txs: seq<Ledger.Transaction>, tenant: string, key: string)
    ensures IndexOf(txs, tenant, key).Some? <==> exists i :: 0 <= i < |txs| && txs[i].tenant == tenant && txs[i].key == key
    ensures IndexOf(txs, tenant, key).Some? ==>
      var i := IndexOf(txs, tenant, key).value; i < |txs| && txs[i].tenant == tenant && txs[i].key == key
  {
    if txs != [] && !(txs[|txs| - 1].tenant == tenant && txs[|txs| - 1].key == key) {
      IndexOfFinds(txs[..|txs| - 1], tenant, key);
    }
  }

  lemma {:induction false} LinesAtConcat(a: seq<Ledger.Entry>, b: seq<Ledger.Entry>, index: nat)
    ensures LinesAt(a + b, index) == LinesAt(a, index) + LinesAt(b, index)
  {
    if b == [] {
      assert a + b == a;
    } else {
      assert (a + b)[..|a + b| - 1] == a + b[..|b| - 1];
      LinesAtConcat(a, b[..|b| - 1], index);
    }
  }

  lemma {:induction false} LinesAtNumbered(index: nat, lines: seq<Ledger.Line>, other: nat)
    ensures LinesAt(Ledger.Numbered(index, lines), other) == if other == index then lines else []
  {
    if lines != [] {
      assert Ledger.Numbered(index, lines)[..|lines| - 1] == Ledger.Numbered(index, lines[..|lines| - 1]);
      LinesAtNumbered(index, lines[..|lines| - 1], other);
    }
  }

  lemma {:induction false} LinesAtUnused(entries: seq<Ledger.Entry>, index: nat)
    requires forall e :: e in entries ==> e.transaction != index
    ensures LinesAt(entries, index) == []
  {
    if entries != [] {
      LinesAtUnused(entries[..|entries| - 1], index);
    }
  }

  lemma PostingIsKeyUsed(book: Ledger.Book, t: Terms)
    ensures Posting(book, t).Some? <==> Ledger.KeyUsed(book, t.tenant, DebitKey(t))
  {
    IndexOfFinds(book.transactions, t.tenant, DebitKey(t));
  }

  /** A posting under the debit key is found again line by line; one under another key changes nothing for it. */
  lemma PostShows(book: Ledger.Book, tx: Ledger.Transaction, lines: seq<Ledger.Line>, t: Terms)
    requires Ledger.EntriesOwned(book)
    ensures
      Posting(Ledger.Post(book, tx, lines), t) ==
      if tx.tenant == t.tenant && tx.key == DebitKey(t) && Posting(book, t).None? then Some(lines) else Posting(book, t)
  {
    PostingIsKeyUsed(book, t);
    if !Ledger.KeyUsed(book, tx.tenant, tx.key) {
      var n := |book.transactions|;
      var next := Ledger.Post(book, tx, lines);
      assert next.transactions[..n] == book.transactions;
      if tx.tenant == t.tenant && tx.key == DebitKey(t) {
        LinesAtUnused(book.entries, n);
        LinesAtConcat(book.entries, Ledger.Numbered(n, lines), n);
        LinesAtNumbered(n, lines, n);
        assert LinesAt(next.entries, n) == lines;
      } else if IndexOf(book.transactions, t.tenant, DebitKey(t)).Some? {
        var i := IndexOf(book.transactions, t.tenant, DebitKey(t)).value;
        IndexOfFinds(book.transactions, t.tenant, DebitKey(t));
        LinesAtConcat(book.entries, Ledger.Numbered(n, lines), i);
        LinesAtNumbered(n, lines, i);
        assert LinesAt(next.entries, i) == LinesAt(book.entries, i);
      }
    }
  }

  /** What the saga's own debit leaves under its key: lines that take amount plus fee from the source. */
  lemma DebitShows(book: Ledger.Book, t: Terms, c: Context)
    requires Ledger.Sound(book)
    ensures
      var r := DebitRequestOf(t, c);
      var (next, reply) := Ledger.DebitResult(book, r);
      && (Posting(book, t).Some? ==> next == book)
      && (reply.Rejected? ==> next == book)
      && (Posting(book, t).None? && !reply.Rejected? ==>
            && r.wallet in book.wallets && Posting(next, t) == Some(Ledger.DebitLines(book.wallets, r))
            && TakenFrom(Posting(next, t).value, t.wallet) == t.amount + t.fee)
  {
    PostingIsKeyUsed(book, t);
    var r := DebitRequestOf(t, c);
    if Posting(book, t).None? && !Ledger.DebitResult(book, r).1.Rejected? {
      var lines := Ledger.DebitLines(book.wallets, r);
      var widened := book.(accounts := book.accounts + Ledger.LineAccounts(lines));
      PostShows(widened, Ledger.DebitTransaction(r), lines, t);
      DebitTakesTotal(book.wallets, t, c);
    }
  }

  lemma DebitTakesTotal(wallets: map<string, Ledger.Wallet>, t: Terms, c: Context)
    requires t.wallet in wallets && t.amount > 0 && t.fee >= 0
    ensures TakenFrom(Ledger.DebitLines(wallets, DebitRequestOf(t, c)), t.wallet) == t.amount + t.fee
  {
    var r := DebitRequestOf(t, c);
    Ledger.DebitMoves(wallets[t.wallet].asset, r, Ledger.Destination(wallets, r), 0, t.wallet);
  }

  /** The debits of other payments are among the things the model lets the ledger do. */
  lemma OtherDebitsLeaveItAlone(book: Ledger.Book, r: Ledger.DebitRequest, t: Terms)
    requires Ledger.Sound(book) && (r.tenant != t.tenant || r.key != Some(DebitKey(t)))
    ensures LeavesPostingAlone(t, book, Ledger.DebitResult(book, r).0)
  {
    Ledger.DebitKeepsSound(book, r);
    if Ledger.DebitResult(book, r).1.Posted? {
      var lines := Ledger.DebitLines(book.wallets, r);
      var widened := book.(accounts := book.accounts + Ledger.LineAccounts(lines));
      PostShows(widened, Ledger.DebitTransaction(r), lines, t);
    }
  }

  // ---------------------------------------------------------------- every step keeps the invariant

  /** Nothing the saga relies on is ever taken back. */
  predicate Grows(t: Terms, d: Store, d': Store) {
    && d.rail <= d'.rail
    && (d.receipt.providerRef != "" ==> d'.receipt.providerRef != "")
    && (Posting(d.book, t).Some? ==> Posting(d'.book, t).Some?)
    && (d.journal != [] ==> d'.journal == d.journal)
    && (d.matched != [] ==> d'.matched == d.matched)
    && (d.submission.Some? ==> d'.submission.Some?)
  }

  lemma AcceptedStays(t: Terms, d: Store, d': Store)
    requires d.rail <= d'.rail
    ensures forall r :: WasAccepted(t, d, r) ==> WasAccepted(t, d', r)
  {
    forall x | x in d.rail
      ensures x in d'.rail
    {
      var i :| 0 <= i < |d.rail| && d.rail[i] == x;
      assert d'.rail[i] == x;
    }
  }

  lemma RunsStillAgree(t: Terms, d: Store, d': Store, run: Run)
    requires Grows(t, d, d') && RunAgrees(t, d, run)
    ensures RunAgrees(t, d', run)
  {
    AcceptedStays(t, d, d');
  }

  /** A step that only adds to the store, and leaves its own run in agreement, keeps the invariant. */
  lemma Combine(t: Terms, s: State, s': State, run: RunId)
    requires Core(t, s) && run in s.runs
    requires Grows(t, s.store, s'.store) && Ordered(t, s'.store)
    requires Idempotent(s'.store.rail) && ReceiptsNamed(t, s'.store.rail)
    requires forall r :: r in s'.runs && r != run ==> r in s.runs && s'.runs[r] == s.runs[r]
    requires run in s'.runs ==> RunAgrees(t, s'.store, s'.runs[run])
    requires UnderWay(s'.store.status)
    ensures Core(t, s')
  {
    forall r | r in s'.runs
      ensures RunAgrees(t, s'.store, s'.runs[r])
    {
      if r != run {
        RunsStillAgree(t, s.store, s'.store, s.runs[r]);
      }
    }
  }

  /** The same for a step that ends in `Write`: it is enough to look at the written store and at
      the run's next two program counters. */
  lemma WriteKeepsCore(t: Terms, s: State, run: RunId, outcome: Outcome, d': Store, next: Option<Pc>, failed: Option<Pc>)
    requires Core(t, s) && run in s.runs
    requires Grows(t, s.store, d') && Ordered(t, d') && d'.rail == s.store.rail
    requires UnderWay(d'.status)
    requires next.Some? ==> RunAgrees(t, d', s.runs[run].(pc := next.value))
    requires failed.Some? ==> RunAgrees(t, d', s.runs[run].(pc := failed.value)) && RunAgrees(t, s.store, s.runs[run].(pc := failed.value))
    ensures Core(t, Write(s, run, outcome, d', next, failed))
  {
    if outcome.NoEffectError? {
      match failed
      case Some(pc) => GotoKeepsCore(t, s, run, s.runs[run].(pc := pc));
      case None => EndKeepsCore(t, s, run);
    } else {
      EffectKeepsCore(t, s, run, d', if outcome.EffectOk? then next else failed);
    }
  }

  lemma EffectKeepsCore(t: Terms, s: State, run: RunId, d': Store, target: Option<Pc>)
    requires Core(t, s) && run in s.runs
    requires Grows(t, s.store, d') && Ordered(t, d') && d'.rail == s.store.rail
    requires UnderWay(d'.status)
    requires target.Some? ==> RunAgrees(t, d', s.runs[run].(pc := target.value))
    ensures target.Some? ==> Core(t, Goto(s.(store := d'), run, target.value))
    ensures target.None? ==> Core(t, End(s.(store := d'), run))
  {
    match target
    case Some(pc) => Combine(t, s, Goto(s.(store := d'), run, pc), run);
    case None => Combine(t, s, End(s.(store := d'), run), run);
  }

  lemma StartKeepsCore(t: Terms, s: State, run: RunId, c: Context)
    requires Core(t, s)
    ensures Core(t, DoStart(s, run, c))
  {
  }

  lemma GotoKeepsCore(t: Terms, s: State, run: RunId, next: Run)
    requires Core(t, s) && run in s.runs && RunAgrees(t, s.store, next)
    ensures Core(t, s.(runs := s.runs[run := next]))
  {
  }

  lemma DecideKeepsCore(t: Terms, s: State, run: RunId, verdict: Option<Policy.Verdict>)
    requires Core(t, s)
    ensures Core(t, DoDecide(s, run, verdict))
  {
    EndKeepsCore(t, s, run);
    if At(s, run, Evaluate) {
      var r := s.runs[run];
      assert RunAgrees(t, s.store, r);
      GotoKeepsCore(t, s, run, r.(pc := FailPayment));
      GotoKeepsCore(t, s, run, r.(pc := if r.seen.providerRef == "" then InsertSubmission else Debit));
    }
  }

  lemma SelectSubmissionKeepsCore(t: Terms, s: State, run: RunId)
    requires Core(t, s)
    ensures Core(t, DoSelectSubmission(s, run))
  {
    if At(s, run, SelectSubmission) && s.store.submission.Some? {
      var r, row := s.runs[run], s.store.submission.value;
      assert RunAgrees(t, s.store, r);
      if row.status == Submitted && row.receipt.Some? && row.receipt.value.providerRef != "" {
        GotoKeepsCore(t, s, run, r.(pc := PersistReceipt, receipt := row.receipt.value));
      } else {
        GotoKeepsCore(t, s, run, r.(pc := CallProvider));
      }
    }
  }

  lemma SelectJournalKeepsCore(t: Terms, s: State, run: RunId)
    requires Core(t, s)
    ensures Core(t, DoSelectJournal(s, run))
  {
    if At(s, run, SelectJournal) {
      assert RunAgrees(t, s.store, s.runs[run]);
      GotoKeepsCore(t, s, run, s.runs[run].(pc := if s.store.journal == [] then InsertJournal else SelectMatched));
    }
  }

  lemma SelectMatchedKeepsCore(t: Terms, s: State, run: RunId)
    requires Core(t, s)
    ensures Core(t, DoSelectMatched(s, run))
  {
    if At(s, run, SelectMatched) {
      assert RunAgrees(t, s.store, s.runs[run]);
      GotoKeepsCore(t, s, run, s.runs[run].(pc := if s.store.matched == [] then InsertMatched else Settle));
    }
  }

  lemma EndKeepsCore(t: Terms, s: State, run: RunId)
    requires Core(t, s)
    ensures Core(t, End(s, run))
  {
  }

  lemma OutliveKeepsCore(t: Terms, s: State, run: RunId, twin: RunId)
    requires Core(t, s)
    ensures Core(t, DoOutlive(s, run, twin))
  {
  }

  lemma InsertSubmissionKeepsCore(t: Terms, s: State, run: RunId, outcome: Outcome)
    requires Core(t, s)
    ensures Core(t, DoInsertSubmission(s, run, outcome))
  {
    if At(s, run, InsertSubmission) {
      var d := s.store;
      var d' := d.(submission := if d.submission.None? then Some(Submission(Pending, None)) else d.submission);
      AcceptedStays(t, d, d');
      WriteKeepsCore(t, s, run, outcome, d', Some(SelectSubmission), None);
    }
  }

  lemma RecordFailedKeepsCore(t: Terms, s: State, run: RunId, outcome: Outcome)
    requires Core(t, s)
    ensures Core(t, DoRecordFailed(s, run, outcome))
  {
    var d := s.store;
    if At(s, run, RecordFailed) && d.submission.Some? {
      var d' := d.(submission := Some(d.submission.value.(status := Rejected)));
      AcceptedStays(t, d, d');
      WriteKeepsCore(t, s, run, outcome, d', Some(FailPayment), None);
    }
  }

  lemma RecordSubmittedKeepsCore(t: Terms, s: State, run: RunId, outcome: Outcome)
    requires Core(t, s)
    ensures Core(t, DoRecordSubmitted(s, run, outcome))
  {
    if At(s, run, RecordSubmitted) {
      var d' := s.store.(submission := Some(Submission(Submitted, Some(s.runs[run].receipt))));
      AcceptedStays(t, s.store, d');
      WriteKeepsCore(t, s, run, outcome, d', Some(PersistReceipt), Some(RecordFailed));
    }
  }

  lemma SubmitFacts(t: Terms, d: Store, adapter: string, key: string, issued: Receipt)
    requires Idempotent(d.rail) && ReceiptsNamed(t, d.rail)
    requires key == RailKey(t) ==> issued.providerRef != ""
    ensures
      var (rail, receipt) := Submit(d.rail, adapter, key, issued);
      && Idempotent(rail) && ReceiptsNamed(t, rail)
      && (key == RailKey(t) ==> WasAccepted(t, d.(rail := rail), receipt))
  {
    SubmitKeepsIdempotent(d.rail, adapter, key, issued);
  }

  lemma CallProviderKeepsCore(t: Terms, s: State, run: RunId, adapter: Option<string>, issued: Receipt, outcome: Outcome)
    requires Core(t, s)
    ensures Core(t, DoCallProvider(t, s, run, adapter, issued, outcome))
  {
    if At(s, run, CallProvider) && issued.providerRef != "" {
      if adapter.None? || outcome.NoEffectError? {
        assert RunAgrees(t, s.store, s.runs[run]);
        GotoKeepsCore(t, s, run, s.runs[run].(pc := RecordFailed));
      } else {
        SubmitFacts(t, s.store, adapter.value, RailKey(t), issued);
        var (rail, receipt) := Submit(s.store.rail, adapter.value, RailKey(t), issued);
        var r := s.runs[run].(pc := RecordFailed);
        SubmittedKeepsCore(t, s, run, rail, if outcome.EffectOk? then r.(pc := RecordSubmitted, receipt := receipt) else r);
      }
    }
  }

  /** The provider's books grow, and the caller learns of the receipt or does not. */
  lemma SubmittedKeepsCore(t: Terms, s: State, run: RunId, rail: seq<Transfer>, next: Run)
    requires Core(t, s) && At(s, run, CallProvider)
    requires s.store.rail <= rail && Idempotent(rail) && ReceiptsNamed(t, rail)
    requires next == s.runs[run].(pc := next.pc, receipt := next.receipt)
    requires if next.pc == RecordSubmitted then WasAccepted(t, s.store.(rail := rail), next.receipt)
             else next.pc == RecordFailed && next.receipt == s.runs[run].receipt
    ensures Core(t, State(s.store.(rail := rail), s.runs[run := next]))
  {
    assert RunAgrees(t, s.store, s.runs[run]);
    AcceptedStays(t, s.store, s.store.(rail := rail));
    Combine(t, s, State(s.store.(rail := rail), s.runs[run := next]), run);
  }

  lemma FailPaymentKeepsCore(t: Terms, s: State, run: RunId, outcome: Outcome)
    requires Core(t, s)
    ensures Core(t, DoFailPayment(s, run, outcome))
  {
    if At(s, run, FailPayment) {
      var d := s.store;
      var d' := if d.status == Lifecycle.Executing then d.(status := Lifecycle.Failed) else d;
      AcceptedStays(t, d, d');
      WriteKeepsCore(t, s, run, outcome, d', None, None);
    }
  }

  lemma PersistReceiptKeepsCore(t: Terms, s: State, run: RunId, outcome: Outcome)
    requires Core(t, s)
    ensures Core(t, DoPersistReceipt(s, run, outcome))
  {
    if At(s, run, PersistReceipt) {
      assert RunAgrees(t, s.store, s.runs[run]);
      var d' := s.store.(receipt := s.runs[run].receipt);
      AcceptedStays(t, s.store, d');
      WriteKeepsCore(t, s, run, outcome, d', Some(Debit), None);
    }
  }

  lemma SettleKeepsCore(t: Terms, s: State, run: RunId, now: nat, outcome: Outcome)
    requires Core(t, s)
    ensures Core(t, DoSettle(s, run, now, outcome))
  {
    EndKeepsCore(t, s, run);
    if At(s, run, Settle) && Accepts(s.store.status, Lifecycle.Settled) {
      assert RunAgrees(t, s.store, s.runs[run]);
      var at := if s.runs[run].seenSettledAt.Some? then s.runs[run].seenSettledAt else Some(now);
      var d' := s.store.(status := Lifecycle.Settled, settledAt := at);
      AcceptedStays(t, s.store, d');
      WriteKeepsCore(t, s, run, outcome, d', None, None);
    }
  }

  lemma DebitKeepsCore(t: Terms, s: State, run: RunId, outcome: Outcome)
    requires Inv(t, s)
    ensures Core(t, DoDebit(t, s, run, outcome))
  {
    EndKeepsCore(t, s, run);
    if At(s, run, Debit) {
      var c := s.runs[run].context;
      var (book, reply) := Ledger.DebitResult(s.store.book, DebitRequestOf(t, c));
      DebitShows(s.store.book, t, c);
      PostingIsKeyUsed(s.store.book, t);
      if t.wallet in s.store.book.wallets {
        DebitTakesTotal(s.store.book.wallets, t, c);
      }
      if !reply.Rejected? {
        DebitedStore(t, s, run, outcome, book);
      }
    }
  }

  lemma DebitedStore(t: Terms, s: State, run: RunId, outcome: Outcome, book: Ledger.Book)
    requires Core(t, s) && At(s, run, Debit)
    requires Posting(book, t).Some? && TakenFrom(Posting(book, t).value, t.wallet) == t.amount + t.fee
    ensures Core(t, Write(s, run, outcome, s.store.(book := book), Some(SelectJournal), None))
  {
    assert RunAgrees(t, s.store, s.runs[run]);
    var d' := s.store.(book := book);
    AcceptedStays(t, s.store, d');
    WriteKeepsCore(t, s, run, outcome, d', Some(SelectJournal), None);
  }

  lemma InsertJournalKeepsCore(t: Terms, s: State, run: RunId, outcome: Outcome)
    requires Core(t, s)
    ensures Core(t, DoInsertJournal(t, s, run, outcome))
  {
    if At(s, run, InsertJournal) {
      var d := s.store;
      assert RunAgrees(t, d, s.runs[run]);
      var d' := if d.journal == [] then d.(journal := Accounting.Lines(BillOf(t, s.runs[run].context))) else d;
      AcceptedStays(t, d, d');
      WriteKeepsCore(t, s, run, outcome, d', Some(SelectMatched), None);
    }
  }

  lemma InsertMatchedKeepsCore(t: Terms, s: State, run: RunId, outcome: Outcome)
    requires Core(t, s)
    ensures Core(t, DoInsertMatched(s, run, outcome))
  {
    if At(s, run, InsertMatched) {
      var d := s.store;
      var d' := if d.matched == [] then d.(matched := [OnChainEvent]) else d;
      AcceptedStays(t, d, d');
      WriteKeepsCore(t, s, run, outcome, d', Some(Settle), None);
    }
  }

  lemma StoreKeepsCore(t: Terms, s: State, d': Store)
    requires Core(t, s) && Grows(t, s.store, d') && Ordered(t, d')
    requires Idempotent(d'.rail) && ReceiptsNamed(t, d'.rail) && (UnderWay(s.store.status) ==> UnderWay(d'.status))
    ensures Core(t, s.(store := d'))
  {
    forall r | r in s.runs
      ensures RunAgrees(t, d', s.runs[r])
    {
      RunsStillAgree(t, s.store, d', s.runs[r]);
    }
  }

  lemma SurroundingsGrow(t: Terms, d: Store, step: Step)
    requires Idempotent(d.rail) && ReceiptsNamed(t, d.rail) && Ordered(t, d)
    ensures
      var d' := Surroundings(t, d, step);
      Grows(t, d, d') && Ordered(t, d') && Idempotent(d'.rail) && ReceiptsNamed(t, d'.rail) && (UnderWay(d.status) ==> UnderWay(d'.status))
  {
    AcceptedStays(t, d, Surroundings(t, d, step));
    if step.OtherTransfer? && step.key != RailKey(t) {
      SubmitFacts(t, d, step.carrier, step.key, step.issued);
    }
  }

  lemma SurroundingsKeepCore(t: Terms, s: State, step: Step)
    requires Core(t, s)
    ensures Core(t, s.(store := Surroundings(t, s.store, step)))
  {
    SurroundingsGrow(t, s.store, step);
    StoreKeepsCore(t, s, Surroundings(t, s.store, step));
  }

  predicate InSubmission(step: Step) {
    step.Start? || step.Decide? || step.AddSubmission? || step.ReadSubmission? || step.CallAdapter?
    || step.MarkSubmitted? || step.MarkFailed? || step.Fail? || step.Persist?
  }

  lemma SubmissionStepKeepsCore(t: Terms, s: State, step: Step)
    requires Inv(t, s) && InSubmission(step)
    ensures Core(t, Apply(t, s, step))
  {
    match step
    case Start(run, c) => StartKeepsCore(t, s, run, c);
    case Decide(run, verdict) => DecideKeepsCore(t, s, run, verdict);
    case AddSubmission(run, outcome) => InsertSubmissionKeepsCore(t, s, run, outcome);
    case ReadSubmission(run) => SelectSubmissionKeepsCore(t, s, run);
    case CallAdapter(run, adapter, issued, outcome) => CallProviderKeepsCore(t, s, run, adapter, issued, outcome);
    case MarkSubmitted(run, outcome) => RecordSubmittedKeepsCore(t, s, run, outcome);
    case MarkFailed(run, outcome) => RecordFailedKeepsCore(t, s, run, outcome);
    case Fail(run, outcome) => FailPaymentKeepsCore(t, s, run, outcome);
    case Persist(run, outcome) => PersistReceiptKeepsCore(t, s, run, outcome);
  }

  lemma BookingStepKeepsCore(t: Terms, s: State, step: Step)
    requires Inv(t, s) && !InSubmission(step)
    ensures Core(t, Apply(t, s, step))
  {
    match step
    case DebitWallet(run, outcome) => DebitKeepsCore(t, s, run, outcome);
    case ReadJournal(run) => SelectJournalKeepsCore(t, s, run);
    case AddJournal(run, outcome) => InsertJournalKeepsCore(t, s, run, outcome);
    case ReadMatched(run) => SelectMatchedKeepsCore(t, s, run);
    case AddMatched(run, outcome) => InsertMatchedKeepsCore(t, s, run, outcome);
    case MarkSettled(run, now, outcome) => SettleKeepsCore(t, s, run, now, outcome);
    case Stop(run) => EndKeepsCore(t, s, run);
    case Outlive(run, twin) => OutliveKeepsCore(t, s, run, twin);
    case _ => SurroundingsKeepCore(t, s, step);
  }

  lemma StepKeepsCore(t: Terms, s: State, step: Step)
    requires Inv(t, s)
    ensures Core(t, Apply(t, s, step))
  {
    if InSubmission(step) {
      SubmissionStepKeepsCore(t, s, step);
    } else {
      BookingStepKeepsCore(t, s, step);
    }
  }

  lemma DebitLeavesBook(t: Terms, s: State, run: RunId, outcome: Outcome)
    ensures
      var book := DoDebit(t, s, run, outcome).store.book;
      || book == s.store.book
      || (At(s, run, Debit) && book == Ledger.DebitResult(s.store.book, DebitRequestOf(t, s.runs[run].context)).0)
  {
  }

  lemma DebitKeepsBookSound(t: Terms, s: State, run: RunId, outcome: Outcome)
    requires Ledger.Sound(s.store.book)
    ensures Ledger.Sound(DoDebit(t, s, run, outcome).store.book)
  {
    DebitLeavesBook(t, s, run, outcome);
    if At(s, run, Debit) {
      Ledger.DebitKeepsSound(s.store.book, DebitRequestOf(t, s.runs[run].context));
    }
  }

  lemma OthersKeepBookSound(t: Terms, s: State, next: Ledger.Book)
    requires Ledger.Sound(s.store.book)
    ensures Ledger.Sound(Surroundings(t, s.store, OtherLedger(next)).book)
  {
  }

  lemma StepKeepsBookSound(t: Terms, s: State, step: Step)
    requires Ledger.Sound(s.store.book)
    ensures Ledger.Sound(Apply(t, s, step).store.book)
  {
    match step
    case DebitWallet(run, outcome) => DebitKeepsBookSound(t, s, run, outcome);
    case OtherLedger(next) => OthersKeepBookSound(t, s, next);
    case _ => OnlyDebitsTouchTheBook(t, s, step);
  }

  lemma OnlyDebitsTouchTheBook(t: Terms, s: State, step: Step)
    requires !step.DebitWallet? && !step.OtherLedger?
    ensures Apply(t, s, step).store.book == s.store.book
  {
  }
}

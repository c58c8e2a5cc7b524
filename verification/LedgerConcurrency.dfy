/** Concurrent debit transactions (services/wallet-service/src/index.mjs:52-117): every statement
    is a step of its own, only the row of the source wallet is locked, and credits reach a wallet
    without its lock. */
module LedgerConcurrency {
  import opened Basics
  import opened Ledger

  type RunId = nat

  /** How far a debit transaction has come since it took the lock of its source wallet. */
  datatype Stage = Locked | NotReplayed | Funded | Ready(destination: Option<string>)

  datatype Run = Run(request: DebitRequest, stage: Stage)

  datatype State = State(book: Book, locks: map<string, RunId>, runs: map<RunId, Run>)

  datatype Step =
    | Begin(run: RunId, request: DebitRequest)
    | CheckReplay(run: RunId)
    | CheckFunds(run: RunId)
    | ReadDestination(run: RunId)
    | Commit(run: RunId)
    | Rollback(run: RunId)
    | SetActive(wallet: string, active: bool)
    | TopUp(wallet: string, key: string, amount: int)

  /** Ends a transaction: its lock goes with it. */
  function End(s: State, run: RunId): State
    requires run in s.runs
  {
    s.(locks := s.locks - {s.runs[run].request.wallet}, runs := s.runs - {run})
  }

  function AtStage(s: State, run: RunId, stage: Stage): State
    requires run in s.runs
  {
    s.(runs := s.runs[run := s.runs[run].(stage := stage)])
  }

  /** An opening-balance posting: it credits the wallet and takes no lock. */
  function TopUpLines(tenant: string, id: string, asset: string, amount: int): seq<Line> {
    [Line(SharedAccountOf(tenant, OpeningBalance, asset), Debit, amount),
     Line(WalletAccountOf(tenant, id, asset), Credit, amount)]
  }

  function Credited(book: Book, id: string, key: string, amount: int): Book
    requires id in book.wallets
  {
    var w := book.wallets[id];
    var lines := TopUpLines(w.tenant, id, w.asset, amount);
    Post(book.(accounts := book.accounts + LineAccounts(lines)), Transaction(w.tenant, key, None), lines)
  }

  /** One step; a step that is not enabled leaves the state alone. */
  function Apply(s: State, step: Step): State {
    match step
    case Begin(run, r) =>
      if WellFormed(r) && Found(s.book, r) && r.wallet !in s.locks && run !in s.runs
      then s.(locks := s.locks[r.wallet := run], runs := s.runs[run := Run(r, Locked)])
      else s
    case CheckReplay(run) =>
      if run in s.runs && s.runs[run].stage == Locked then
        var r := s.runs[run].request;
        if r.key.Some? && KeyUsed(s.book, r.tenant, r.key.value) then End(s, run) else AtStage(s, run, NotReplayed)
      else s
    case CheckFunds(run) =>
      if run in s.runs && s.runs[run].stage == NotReplayed && s.runs[run].request.wallet in s.book.wallets then
        var r := s.runs[run].request;
        if !s.book.wallets[r.wallet].active || Balance(s.book, r.wallet) < r.principal + r.fee
        then End(s, run) else AtStage(s, run, Funded)
      else s
    case ReadDestination(run) =>
      if run in s.runs && s.runs[run].stage == Funded && s.runs[run].request.wallet in s.book.wallets
      then AtStage(s, run, Ready(Destination(s.book.wallets, s.runs[run].request)))
      else s
    case Commit(run) =>
      if run in s.runs && s.runs[run].stage.Ready? && WellFormed(s.runs[run].request) && Found(s.book, s.runs[run].request)
      then End(s, run).(book := PostDebit(s.book, s.runs[run].request, s.runs[run].stage.destination))
      else s
    case Rollback(run) =>
      if run in s.runs then End(s, run) else s
    case SetActive(id, active) =>
      if id in s.book.wallets && id !in s.locks
      then s.(book := s.book.(wallets := s.book.wallets[id := s.book.wallets[id].(active := active)]))
      else s
    case TopUp(id, key, amount) =>
      if id in s.book.wallets && amount > 0 then s.(book := Credited(s.book, id, key, amount)) else s
  }

  function RunAll(s: State, steps: seq<Step>): State {
    if steps == [] then s else Apply(RunAll(s, steps[..|steps| - 1]), steps[|steps| - 1])
  }

  // ---------------------------------------------------------------- the invariant

  /** What a transaction knows, at each stage, about the committed book. */
  predicate RunAgrees(book: Book, run: Run) {
    && WellFormed(run.request)
    && Found(book, run.request)
    && (run.stage.Funded? || run.stage.Ready? ==> Balance(book, run.request.wallet) >= run.request.principal + run.request.fee)
    && (run.stage.Ready? ==> MayReceive(book, run.request, run.stage.destination))
  }

  predicate LocksAgree(s: State) {
    && (forall run :: run in s.runs ==> s.runs[run].request.wallet in s.locks && s.locks[s.runs[run].request.wallet] == run)
    && (forall id :: id in s.locks ==> s.locks[id] in s.runs && s.runs[s.locks[id]].request.wallet == id)
  }

  predicate Inv(s: State) {
    && Sound(s.book)
    && NoNegativeBalance(s.book)
    && LocksAgree(s)
    && (forall run :: run in s.runs ==> RunAgrees(s.book, s.runs[run]))
  }

  lemma CommitKeepsInv(s: State, run: RunId)
    requires Inv(s)
    ensures Inv(Apply(s, Commit(run)))
  {
    if run in s.runs && s.runs[run].stage.Ready? {
      var r, destination := s.runs[run].request, s.runs[run].stage.destination;
      var next := Apply(s, Commit(run));
      PostDebitKeepsSound(s.book, r, destination);
      forall id
        ensures id != r.wallet ==> Balance(next.book, id) >= Balance(s.book, id)
        ensures id in next.book.wallets ==> Balance(next.book, id) >= 0
      {
        PostDebitMoves(s.book, r, destination, id);
      }
    }
  }

  lemma TopUpMoves(book: Book, id: string, key: string, amount: int, other: string)
    requires id in book.wallets && amount > 0
    ensures Balance(Credited(book, id, key, amount), other) >= Balance(book, other)
  {
    var w := book.wallets[id];
    var added := Numbered(|book.transactions|, TopUpLines(w.tenant, id, w.asset, amount));
    NetConcat(book.entries, added, OfWallet(other));
    assert added[..1] == [added[0]] && added[..1][..0] == [];
    assert Net(added[..1], OfWallet(other)) == 0;
  }

  lemma TopUpKeepsSound(book: Book, id: string, key: string, amount: int)
    requires Sound(book) && id in book.wallets && amount > 0
    ensures Sound(Credited(book, id, key, amount))
  {
    var w := book.wallets[id];
    var lines := TopUpLines(w.tenant, id, w.asset, amount);
    assert lines[..1] == [lines[0]] && lines[..1][..0] == [];
    assert LineTotal(lines[..1]) == -amount;
    PostKeepsSound(book.(accounts := book.accounts + LineAccounts(lines)), Transaction(w.tenant, key, None), lines);
  }

  lemma TopUpKeepsInv(s: State, id: string, key: string, amount: int)
    requires Inv(s) && id in s.book.wallets && amount > 0
    ensures Inv(Apply(s, TopUp(id, key, amount)))
  {
    TopUpKeepsSound(s.book, id, key, amount);
    var book := Credited(s.book, id, key, amount);
    forall other
      ensures Balance(book, other) >= Balance(s.book, other)
    {
      TopUpMoves(s.book, id, key, amount, other);
    }
    forall run | run in s.runs
      ensures RunAgrees(book, s.runs[run])
    {
      assert RunAgrees(s.book, s.runs[run]);
    }
  }

  lemma BeginKeepsInv(s: State, run: RunId, r: DebitRequest)
    requires Inv(s)
    ensures Inv(Apply(s, Begin(run, r)))
  {
  }

  lemma CheckReplayKeepsInv(s: State, run: RunId)
    requires Inv(s) && run in s.runs
    ensures Inv(Apply(s, CheckReplay(run)))
  {
    assert RunAgrees(s.book, s.runs[run]);
  }

  lemma CheckFundsKeepsInv(s: State, run: RunId)
    requires Inv(s) && run in s.runs
    ensures Inv(Apply(s, CheckFunds(run)))
  {
    assert RunAgrees(s.book, s.runs[run]);
  }

  lemma ReadDestinationKeepsInv(s: State, run: RunId)
    requires Inv(s) && run in s.runs
    ensures Inv(Apply(s, ReadDestination(run)))
  {
    assert RunAgrees(s.book, s.runs[run]);
  }

  lemma RollbackKeepsInv(s: State, run: RunId)
    requires Inv(s)
    ensures Inv(Apply(s, Rollback(run)))
  {
  }

  lemma SetActiveKeepsInv(s: State, id: string, active: bool)
    requires Inv(s)
    ensures Inv(Apply(s, SetActive(id, active)))
  {
  }

  lemma StepKeepsInv(s: State, step: Step)
    requires Inv(s)
    ensures Inv(Apply(s, step))
  {
    match step
    case Begin(run, r) => BeginKeepsInv(s, run, r);
    case CheckReplay(run) => if run in s.runs { CheckReplayKeepsInv(s, run); }
    case CheckFunds(run) => if run in s.runs { CheckFundsKeepsInv(s, run); }
    case ReadDestination(run) => if run in s.runs { ReadDestinationKeepsInv(s, run); }
    case Commit(run) => CommitKeepsInv(s, run);
    case Rollback(run) => RollbackKeepsInv(s, run);
    case SetActive(id, active) => SetActiveKeepsInv(s, id, active);
    case TopUp(id, key, amount) =>
      if id in s.book.wallets && amount > 0 {
        TopUpKeepsInv(s, id, key, amount);
      }
  }

  /** No wallet is ever overdrawn and the book stays sound, whatever the interleaving. */
  lemma {:induction false} NeverOverdrawn(s: State, steps: seq<Step>)
    requires Inv(s)
    ensures Inv(RunAll(s, steps))
    ensures forall id :: id in RunAll(s, steps).book.wallets ==> ViewBalance(RunAll(s, steps).book, id) >= 0
  {
    if steps != [] {
      NeverOverdrawn(s, steps[..|steps| - 1]);
      StepKeepsInv(RunAll(s, steps[..|steps| - 1]), steps[|steps| - 1]);
    }
    forall id | id in RunAll(s, steps).book.wallets
      ensures ViewBalance(RunAll(s, steps).book, id) >= 0
    {
      ViewIsNet(RunAll(s, steps).book.entries, id);
    }
  }

  /** An empty book with no transaction under way is where every run starts. */
  lemma InitialInv(wallets: map<string, Wallet>)
    ensures Inv(State(Book(wallets, {}, [], []), map[], map[]))
  {
  }

  /** So from an empty book on no wallet is ever overdrawn and every asset nets to zero. */
  lemma SoundFromTheStart(wallets: map<string, Wallet>, steps: seq<Step>, asset: string)
    ensures
      var book := RunAll(State(Book(wallets, {}, [], []), map[], map[]), steps).book;
      Net(book.entries, OfAsset(asset)) == 0 && forall id :: id in book.wallets ==> ViewBalance(book, id) >= 0
  {
    InitialInv(wallets);
    NeverOverdrawn(State(Book(wallets, {}, [], []), map[], map[]), steps);
    ConservedAlways(State(Book(wallets, {}, [], []), map[], map[]), steps, asset);
  }

  /** Conservation holds in every reachable state, per asset. */
  lemma ConservedAlways(s: State, steps: seq<Step>, asset: string)
    requires Inv(s)
    ensures Net(RunAll(s, steps).book.entries, OfAsset(asset)) == 0
  {
    NeverOverdrawn(s, steps);
    Conservation(RunAll(s, steps).book, asset);
  }

  /** The five statements of one transaction with no step of another in between. */
  function Serial(s: State, run: RunId, r: DebitRequest): State {
    Apply(Apply(Apply(Apply(Apply(s, Begin(run, r)), CheckReplay(run)), CheckFunds(run)), ReadDestination(run)), Commit(run))
  }

  lemma EndUndoesBegin(s: State, run: RunId, r: DebitRequest, stage: Stage)
    requires run !in s.runs && r.wallet !in s.locks
    ensures End(s.(locks := s.locks[r.wallet := run], runs := s.runs[run := Run(r, stage)]), run) == s
  {
    assert s.locks[r.wallet := run] - {r.wallet} == s.locks;
    assert s.runs[run := Run(r, stage)] - {run} == s.runs;
  }

  /** Run alone, the statements have the effect of the handler taken as one transaction. */
  lemma AloneIsOneTransaction(s: State, run: RunId, r: DebitRequest)
    requires run !in s.runs && r.wallet !in s.locks && WellFormed(r) && Found(s.book, r)
    ensures Serial(s, run, r) == s.(book := DebitResult(s.book, r).0)
  {
    EndUndoesBegin(s, run, r, Locked);
    EndUndoesBegin(s, run, r, NotReplayed);
    if KeyUsed(s.book, r.tenant, r.key.value) {
      assert Apply(Apply(s, Begin(run, r)), CheckReplay(run)) == s;
    }
  }

  // ---------------------------------------------------------------- what the steps are

  function Place(stage: Stage): nat {
    match stage case Locked => 0 case NotReplayed => 1 case Funded => 2 case Ready(_) => 3
  }

  /** A transaction makes its statements once and in this order, or ends; no other transaction moves it. */
  lemma StagesAdvance(s: State, step: Step, run: RunId)
    requires run in s.runs
    ensures
      var s' := Apply(s, step);
      run in s'.runs && s'.runs[run] != s.runs[run] ==>
        s'.runs[run].request == s.runs[run].request && Place(s'.runs[run].stage) == Place(s.runs[run].stage) + 1
  {
  }

  /** A transaction that is rolled back has not been there. */
  lemma RollbackLeaves(s: State, run: RunId, r: DebitRequest)
    requires run !in s.runs && r.wallet !in s.locks && WellFormed(r) && Found(s.book, r)
    ensures Apply(Apply(s, Begin(run, r)), Rollback(run)) == s
  {
    EndUndoesBegin(s, run, r, Locked);
  }

  /** A credit reaches its wallet whoever holds the lock, once per key, and no other wallet. */
  lemma TopUpCredits(s: State, id: string, key: string, amount: int, other: string)
    requires id in s.book.wallets && amount > 0
    ensures
      var s', seen := Apply(s, TopUp(id, key, amount)), KeyUsed(s.book, s.book.wallets[id].tenant, key);
      && ViewBalance(s'.book, other) == ViewBalance(s.book, other) + (if other == id && !seen then amount else 0)
      && s'.locks == s.locks && s'.runs == s.runs
  {
    var w := s.book.wallets[id];
    var lines := TopUpLines(w.tenant, id, w.asset, amount);
    var added := Numbered(|s.book.transactions|, lines);
    ViewIsNet(s.book.entries, other);
    ViewIsNet(Credited(s.book, id, key, amount).entries, other);
    NetConcat(s.book.entries, added, OfWallet(other));
    assert added[..1] == [added[0]] && added[..1][..0] == [];
    assert Net(added[..1], OfWallet(other)) == 0;
  }

  /** It is funded from the tenant's opening-balance account of the asset. */
  lemma TopUpIsFunded(s: State, id: string, key: string, amount: int)
    requires id in s.book.wallets && amount > 0
    ensures
      var w := s.book.wallets[id];
      var opening := OfAccounts({Account(w.tenant, None, OpeningBalance, w.asset)});
      Net(Apply(s, TopUp(id, key, amount)).book.entries, opening)
      == Net(s.book.entries, opening) - (if KeyUsed(s.book, w.tenant, key) then 0 else amount)
  {
    var w := s.book.wallets[id];
    var opening := OfAccounts({Account(w.tenant, None, OpeningBalance, w.asset)});
    var added := Numbered(|s.book.transactions|, TopUpLines(w.tenant, id, w.asset, amount));
    NetConcat(s.book.entries, added, opening);
    assert added[..1] == [added[0]] && added[..1][..0] == [];
    assert Net(added[..1], opening) == -amount;
  }

  /** A wallet can be opened or closed exactly while no debit of it is under way. */
  lemma WalletChangesBetweenDebits(s: State, id: string, active: bool)
    requires Inv(s) && id in s.book.wallets
    ensures
      var s' := Apply(s, SetActive(id, active));
      if exists run :: run in s.runs && s.runs[run].request.wallet == id then s' == s
      else s'.book == s.book.(wallets := s.book.wallets[id := s.book.wallets[id].(active := active)]) && s'.runs == s.runs
  {
    if id in s.locks {
      assert s.locks[id] in s.runs && s.runs[s.locks[id]].request.wallet == id;
    }
  }
}

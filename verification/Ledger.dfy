/** The append-only double-entry ledger: services/wallet-service/src/ledger.mjs, the debit handler
    of services/wallet-service/src/index.mjs, and the trigger and view of
    db/migrations/0010_ledger.sql. Amounts are whole cents. */
module Ledger {
  import opened Basics

  // ---------------------------------------------------------------- tables

  datatype Wallet = Wallet(tenant: string, asset: string, active: bool)

  datatype Kind = WalletFunds | Fees | SettlementClearing | OpeningBalance

  /** An account row, named by its unique natural key. */
  datatype Account = Account(tenant: string, wallet: Option<string>, kind: Kind, asset: string)

  datatype Direction = Debit | Credit

  /** A line of a posting, before it is written. */
  datatype Line = Line(account: Account, direction: Direction, amount: int)

  /** A row of ledger_entries; `transaction` is the position of its ledger_transactions row. */
  datatype Entry = Entry(transaction: nat, line: Line)

  datatype Transaction = Transaction(tenant: string, key: string, payment: Option<string>)

  datatype Book = Book(wallets: map<string, Wallet>, accounts: set<Account>, transactions: seq<Transaction>, entries: seq<Entry>)

  // ---------------------------------------------------------------- sums over entries

  datatype Filter =
    | OfWallet(id: string)
    | OfTransaction(index: nat)
    | OfAsset(asset: string)
    | OfAssetBefore(asset: string, limit: nat)
    | OfAccounts(accounts: set<Account>)

  predicate Selects(f: Filter, e: Entry) {
    match f
    case OfWallet(id) => e.line.account.kind == WalletFunds && e.line.account.wallet == Some(id)
    case OfTransaction(index) => e.transaction == index
    case OfAsset(asset) => e.line.account.asset == asset
    case OfAssetBefore(asset, limit) => e.line.account.asset == asset && e.transaction < limit
    case OfAccounts(accounts) => e.line.account in accounts
  }

  function Signed(line: Line): int {
    if line.direction == Credit then line.amount else -line.amount
  }

  /** Credits minus debits over the selected entries. */
  function Net(entries: seq<Entry>, f: Filter): int {
    if entries == [] then 0
    else
      var last := entries[|entries| - 1];
      Net(entries[..|entries| - 1], f) + (if Selects(f, last) then Signed(last.line) else 0)
  }

  lemma {:induction false} NetConcat(a: seq<Entry>, b: seq<Entry>, f: Filter)
    ensures Net(a + b, f) == Net(a, f) + Net(b, f)
  {
    if b == [] {
      assert a + b == a;
    } else {
      assert (a + b)[..|a + b| - 1] == a + b[..|b| - 1];
      NetConcat(a, b[..|b| - 1], f);
    }
  }

  lemma {:induction false} NetOfNone(entries: seq<Entry>, f: Filter)
    requires forall e :: e in entries ==> !Selects(f, e)
    ensures Net(entries, f) == 0
  {
    if entries != [] {
      NetOfNone(entries[..|entries| - 1], f);
    }
  }

  /** `wallet_balances`: the sum of the credits minus the sum of the debits of one wallet. */
  function Sum(entries: seq<Entry>, id: string, direction: Direction): int {
    if entries == [] then 0
    else
      var last := entries[|entries| - 1];
      Sum(entries[..|entries| - 1], id, direction)
      + (if Selects(OfWallet(id), last) && last.line.direction == direction then last.line.amount else 0)
  }

  function ViewBalance(book: Book, id: string): int {
    Sum(book.entries, id, Credit) - Sum(book.entries, id, Debit)
  }

  function Balance(book: Book, id: string): int {
    Net(book.entries, OfWallet(id))
  }

  lemma {:induction false} ViewIsNet(entries: seq<Entry>, id: string)
    ensures Sum(entries, id, Credit) - Sum(entries, id, Debit) == Net(entries, OfWallet(id))
  {
    if entries != [] {
      ViewIsNet(entries[..|entries| - 1], id);
    }
  }

  // ---------------------------------------------------------------- posting

  function Numbered(index: nat, lines: seq<Line>): (r: seq<Entry>)
    ensures |r| == |lines|
    ensures forall i :: 0 <= i < |r| ==> r[i] == Entry(index, lines[i])
  {
    seq(|lines|, i requires 0 <= i < |lines| => Entry(index, lines[i]))
  }

  predicate KeyUsed(book: Book, tenant: string, key: string) {
    exists i :: 0 <= i < |book.transactions| && book.transactions[i].tenant == tenant && book.transactions[i].key == key
  }

  /** `postTransaction`: a second posting under the same key leaves the book alone. */
  function Post(book: Book, t: Transaction, lines: seq<Line>): Book {
    if KeyUsed(book, t.tenant, t.key) then book
    else book.(transactions := book.transactions + [t],
               entries := book.entries + Numbered(|book.transactions|, lines))
  }

  function LineTotal(lines: seq<Line>): int {
    if lines == [] then 0 else LineTotal(lines[..|lines| - 1]) + Signed(lines[|lines| - 1])
  }

  /** What the deferred trigger asks of a posting at commit, what its amounts CHECK asks, and what
      the comment beside the trigger takes for granted: one asset throughout. */
  predicate Balanced(lines: seq<Line>) {
    && LineTotal(lines) == 0
    && (forall l :: l in lines ==> l.amount > 0)
    && (forall l, m :: l in lines && m in lines ==> l.account.asset == m.account.asset)
  }

  // ---------------------------------------------------------------- the debit handler

  datatype DebitRequest = DebitRequest(
    tenant: string, wallet: string, key: Option<string>, principal: int, fee: int,
    destination: Option<string>, payment: Option<string>)

  datatype Reason = IdempotencyRequired | InvalidAmount | WalletNotFound | WalletInactive | InsufficientBalance

  datatype Reply =
    | Posted(amount: int, balance: int)
    | Replayed(amount: int, balance: int)
    | Rejected(reason: Reason)

  function WalletAccountOf(tenant: string, id: string, asset: string): Account {
    Account(tenant, Some(id), WalletFunds, asset)
  }

  function SharedAccountOf(tenant: string, kind: Kind, asset: string): Account {
    Account(tenant, None, kind, asset)
  }

  /** The wallet the principal lands in: another active wallet of the tenant with the same asset. */
  function Destination(wallets: map<string, Wallet>, r: DebitRequest): Option<string>
    requires r.wallet in wallets
  {
    if r.destination.Some? && r.destination.value != r.wallet && r.destination.value in wallets
       && wallets[r.destination.value].tenant == r.tenant && wallets[r.destination.value].active
       && wallets[r.destination.value].asset == wallets[r.wallet].asset
    then r.destination else None
  }

  /** The account the principal is credited to, once the destination has been settled. */
  function CreditAccount(asset: string, r: DebitRequest, destination: Option<string>): Account {
    match destination
    case Some(id) => WalletAccountOf(r.tenant, id, asset)
    case None => SharedAccountOf(r.tenant, SettlementClearing, asset)
  }

  function LinesTo(asset: string, r: DebitRequest, destination: Option<string>): seq<Line> {
    [Line(WalletAccountOf(r.tenant, r.wallet, asset), Debit, r.principal + r.fee),
     Line(CreditAccount(asset, r, destination), Credit, r.principal)]
    + (if r.fee > 0 then [Line(SharedAccountOf(r.tenant, Fees, asset), Credit, r.fee)] else [])
  }

  function DebitLines(wallets: map<string, Wallet>, r: DebitRequest): seq<Line>
    requires r.wallet in wallets
  {
    LinesTo(wallets[r.wallet].asset, r, Destination(wallets, r))
  }

  predicate WellFormed(r: DebitRequest) {
    r.key.Some? && r.principal > 0 && r.fee >= 0
  }

  predicate Found(book: Book, r: DebitRequest) {
    r.wallet in book.wallets && book.wallets[r.wallet].tenant == r.tenant
  }

  function DebitTransaction(r: DebitRequest): Transaction
    requires r.key.Some?
  {
    Transaction(r.tenant, r.key.value, r.payment)
  }

  function LineAccounts(lines: seq<Line>): set<Account> {
    set l | l in lines :: l.account
  }

  /** The book after the handler's transaction, and its answer. */
  function DebitResult(book: Book, r: DebitRequest): (Book, Reply) {
    if r.key.None? then (book, Rejected(IdempotencyRequired))
    else if !(r.principal > 0) || !(r.fee >= 0) then (book, Rejected(InvalidAmount))
    else if !Found(book, r) then (book, Rejected(WalletNotFound))
    else if KeyUsed(book, r.tenant, r.key.value) then
      (book, Replayed(r.principal + r.fee, Balance(book, r.wallet)))
    else if !book.wallets[r.wallet].active then (book, Rejected(WalletInactive))
    else if Balance(book, r.wallet) < r.principal + r.fee then (book, Rejected(InsufficientBalance))
    else
      var posted := PostDebit(book, r, Destination(book.wallets, r));
      (posted, Posted(r.principal + r.fee, Balance(posted, r.wallet)))
  }

  // ---------------------------------------------------------------- the invariant

  predicate KeysUnique(book: Book) {
    forall i, j :: 0 <= i < j < |book.transactions| ==>
      book.transactions[i].tenant != book.transactions[j].tenant || book.transactions[i].key != book.transactions[j].key
  }

  predicate EntriesOwned(book: Book) {
    forall e :: e in book.entries ==> e.transaction < |book.transactions|
  }

  predicate AllBalanced(book: Book) {
    forall i :: 0 <= i < |book.transactions| ==> Net(book.entries, OfTransaction(i)) == 0
  }

  predicate SingleAsset(book: Book) {
    forall e, f :: e in book.entries && f in book.entries && e.transaction == f.transaction ==>
      e.line.account.asset == f.line.account.asset
  }

  predicate WalletLinesNameTheirAsset(book: Book) {
    forall e :: e in book.entries && e.line.account.kind == WalletFunds ==>
      && e.line.account.wallet.Some?
      && e.line.account.wallet.value in book.wallets
      && e.line.account == WalletAccountOf(book.wallets[e.line.account.wallet.value].tenant,
                                          e.line.account.wallet.value,
                                          book.wallets[e.line.account.wallet.value].asset)
  }

  predicate NoNegativeBalance(book: Book) {
    forall id :: id in book.wallets ==> Balance(book, id) >= 0
  }

  predicate Sound(book: Book) {
    && KeysUnique(book) && EntriesOwned(book) && AllBalanced(book) && SingleAsset(book)
    && WalletLinesNameTheirAsset(book)
    && (forall e :: e in book.entries ==> e.line.amount > 0)
    && (forall e :: e in book.entries ==> e.line.account in book.accounts)
  }

  // ---------------------------------------------------------------- posting keeps the invariant

  lemma {:induction false} NetNumbered(index: nat, lines: seq<Line>, other: nat)
    ensures Net(Numbered(index, lines), OfTransaction(other)) == if other == index then LineTotal(lines) else 0
  {
    if lines != [] {
      var front := lines[..|lines| - 1];
      assert Numbered(index, lines)[..|lines| - 1] == Numbered(index, front);
      NetNumbered(index, front, other);
    }
  }

  lemma PostKeepsSound(book: Book, t: Transaction, lines: seq<Line>)
    requires Sound(book) && Balanced(lines)
    requires LineAccounts(lines) <= book.accounts
    requires forall l :: l in lines && l.account.kind == WalletFunds ==>
      && l.account.wallet.Some? && l.account.wallet.value in book.wallets
      && l.account == WalletAccountOf(book.wallets[l.account.wallet.value].tenant, l.account.wallet.value, book.wallets[l.account.wallet.value].asset)
    ensures Sound(Post(book, t, lines))
  {
    var next := Post(book, t, lines);
    if next != book {
      var n := |book.transactions|;
      var added := Numbered(n, lines);
      forall e | e in added
        ensures e.transaction == n && e.line in lines
      {
      }
      forall i | 0 <= i < |next.transactions|
        ensures Net(next.entries, OfTransaction(i)) == 0
      {
        NetConcat(book.entries, added, OfTransaction(i));
        NetNumbered(n, lines, i);
        if i == n {
          NetOfNone(book.entries, OfTransaction(n));
        }
      }
      assert forall l :: l in lines ==> l.account in LineAccounts(lines);
    }
  }

  lemma LinesBalance(asset: string, r: DebitRequest, destination: Option<string>)
    requires WellFormed(r)
    ensures Balanced(LinesTo(asset, r, destination))
  {
    var lines := LinesTo(asset, r, destination);
    assert lines[..1] == [lines[0]] && lines[..1][..0] == [];
    assert lines[..2][..1] == lines[..1];
    assert LineTotal(lines[..1]) == -(r.principal + r.fee);
    assert LineTotal(lines[..2]) == -r.fee;
    if r.fee > 0 {
      assert LineTotal(lines) == 0;
    } else {
      assert lines[..2] == lines;
    }
  }

  /** What one debit does to the balance of each wallet. */
  lemma DebitMoves(asset: string, r: DebitRequest, destination: Option<string>, index: nat, id: string)
    requires WellFormed(r) && destination != Some(r.wallet)
    ensures
      Net(Numbered(index, LinesTo(asset, r, destination)), OfWallet(id)) ==
      if id == r.wallet then -(r.principal + r.fee)
      else if destination == Some(id) then r.principal
      else 0
  {
    var e := Numbered(index, LinesTo(asset, r, destination));
    assert e[..1] == [e[0]] && e[..1][..0] == [];
    assert e[..2][..1] == e[..1];
    var f := OfWallet(id);
    assert Net(e[..1], f) == if id == r.wallet then -(r.principal + r.fee) else 0;
    assert Net(e[..2], f) == Net(e[..1], f) + (if Selects(f, e[1]) then r.principal else 0);
    if r.fee > 0 {
      assert !Selects(f, e[2]);
      assert e[..2] == e[..|e| - 1];
    } else {
      assert e[..2] == e;
    }
  }

  /** A destination that some reading of the wallets table allowed. */
  predicate MayReceive(book: Book, r: DebitRequest, destination: Option<string>)
    requires r.wallet in book.wallets
  {
    destination.Some? ==>
      && destination.value != r.wallet && destination.value in book.wallets
      && book.wallets[destination.value].tenant == r.tenant
      && book.wallets[destination.value].asset == book.wallets[r.wallet].asset
  }

  function PostDebit(book: Book, r: DebitRequest, destination: Option<string>): Book
    requires WellFormed(r) && Found(book, r)
  {
    var lines := LinesTo(book.wallets[r.wallet].asset, r, destination);
    Post(book.(accounts := book.accounts + LineAccounts(lines)), DebitTransaction(r), lines)
  }

  /** Posting a debit takes principal and fee from the source, gives the principal to the
      destination, and touches no other wallet; under a used key it moves nothing. */
  lemma PostDebitMoves(book: Book, r: DebitRequest, destination: Option<string>, id: string)
    requires WellFormed(r) && Found(book, r) && MayReceive(book, r, destination)
    ensures
      Balance(PostDebit(book, r, destination), id) == Balance(book, id) +
      if KeyUsed(book, r.tenant, r.key.value) then 0
      else if id == r.wallet then -(r.principal + r.fee)
      else if destination == Some(id) then r.principal
      else 0
  {
    var lines := LinesTo(book.wallets[r.wallet].asset, r, destination);
    NetConcat(book.entries, Numbered(|book.transactions|, lines), OfWallet(id));
    DebitMoves(book.wallets[r.wallet].asset, r, destination, |book.transactions|, id);
  }

  lemma PostDebitKeepsSound(book: Book, r: DebitRequest, destination: Option<string>)
    requires Sound(book) && WellFormed(r) && Found(book, r) && MayReceive(book, r, destination)
    ensures Sound(PostDebit(book, r, destination))
  {
    var lines := LinesTo(book.wallets[r.wallet].asset, r, destination);
    LinesBalance(book.wallets[r.wallet].asset, r, destination);
    PostKeepsSound(book.(accounts := book.accounts + LineAccounts(lines)), DebitTransaction(r), lines);
  }

  /** One debit transaction keeps the whole book sound, and no balance goes below zero. */
  lemma DebitKeepsSound(book: Book, r: DebitRequest)
    requires Sound(book)
    ensures Sound(DebitResult(book, r).0)
    ensures NoNegativeBalance(book) ==> NoNegativeBalance(DebitResult(book, r).0)
  {
    if DebitResult(book, r).1.Posted? {
      var destination := Destination(book.wallets, r);
      PostDebitKeepsSound(book, r, destination);
      forall id | id in book.wallets && NoNegativeBalance(book)
        ensures Balance(PostDebit(book, r, destination), id) >= 0
      {
        PostDebitMoves(book, r, destination, id);
      }
    }
  }

  /** Replaying a key changes nothing at all, whatever else the request says. */
  lemma ReplayChangesNothing(book: Book, r: DebitRequest)
    requires r.key.Some? && KeyUsed(book, r.tenant, r.key.value)
    ensures DebitResult(book, r).0 == book
    ensures !DebitResult(book, r).1.Posted?
  {
  }

  /** A debit that reports success has posted under its key; doing it again is a replay that reports
      the same amount and the same balance. */
  lemma DebitThenReplay(book: Book, r: DebitRequest)
    requires !DebitResult(book, r).1.Rejected?
    ensures
      var (next, reply) := DebitResult(book, r);
      KeyUsed(next, r.tenant, r.key.value) && DebitResult(next, r) == (next, Replayed(reply.amount, reply.balance))
  {
    var next := DebitResult(book, r).0;
    if DebitResult(book, r).1.Posted? {
      assert next.transactions[|book.transactions|] == DebitTransaction(r);
    }
  }

  // ---------------------------------------------------------------- conservation

  lemma {:induction false} NetAdds(entries: seq<Entry>, f: Filter, g: Filter, h: Filter)
    requires forall e :: e in entries ==> (Selects(f, e) <==> Selects(g, e) || Selects(h, e))
    requires forall e :: e in entries ==> !(Selects(g, e) && Selects(h, e))
    ensures Net(entries, f) == Net(entries, g) + Net(entries, h)
  {
    if entries != [] {
      NetAdds(entries[..|entries| - 1], f, g, h);
    }
  }

  lemma {:induction false} NetSame(entries: seq<Entry>, f: Filter, g: Filter)
    requires forall e :: e in entries ==> (Selects(f, e) <==> Selects(g, e))
    ensures Net(entries, f) == Net(entries, g)
  {
    if entries != [] {
      NetSame(entries[..|entries| - 1], f, g);
    }
  }

  lemma {:induction false} AssetBeforeIsZero(book: Book, asset: string, limit: nat)
    requires Sound(book) && limit <= |book.transactions|
    ensures Net(book.entries, OfAssetBefore(asset, limit)) == 0
  {
    if limit == 0 {
      NetOfNone(book.entries, OfAssetBefore(asset, 0));
    } else {
      AssetBeforeIsZero(book, asset, limit - 1);
      var last := OfTransaction(limit - 1);
      if exists e :: e in book.entries && e.transaction == limit - 1 && e.line.account.asset == asset {
        NetAdds(book.entries, OfAssetBefore(asset, limit), OfAssetBefore(asset, limit - 1), last);
      } else {
        NetSame(book.entries, OfAssetBefore(asset, limit), OfAssetBefore(asset, limit - 1));
      }
    }
  }

  /** Conservation: if every transaction passes the trigger and keeps to one asset, then all
      entries of an asset, over every account, sum to zero. */
  lemma Conservation(book: Book, asset: string)
    requires Sound(book)
    ensures Net(book.entries, OfAsset(asset)) == 0
  {
    AssetBeforeIsZero(book, asset, |book.transactions|);
    NetSame(book.entries, OfAsset(asset), OfAssetBefore(asset, |book.transactions|));
  }

  ghost function TotalOver(accounts: set<Account>, entries: seq<Entry>): int {
    if accounts == {} then 0
    else
      var a :| a in accounts;
      Net(entries, OfAccounts({a})) + TotalOver(accounts - {a}, entries)
  }

  lemma {:induction false} TotalOverIsNet(accounts: set<Account>, entries: seq<Entry>)
    ensures TotalOver(accounts, entries) == Net(entries, OfAccounts(accounts))
  {
    if accounts == {} {
      NetOfNone(entries, OfAccounts({}));
    } else {
      var a :| a in accounts && TotalOver(accounts, entries) == Net(entries, OfAccounts({a})) + TotalOver(accounts - {a}, entries);
      TotalOverIsNet(accounts - {a}, entries);
      NetAdds(entries, OfAccounts(accounts), OfAccounts({a}), OfAccounts(accounts - {a}));
    }
  }

  /** The balances of all accounts of an asset add up to zero. */
  lemma AccountsOfAnAssetSumToZero(book: Book, asset: string)
    requires Sound(book)
    ensures TotalOver((set a | a in book.accounts && a.asset == asset), book.entries) == 0
  {
    var accounts := set a | a in book.accounts && a.asset == asset;
    TotalOverIsNet(accounts, book.entries);
    NetSame(book.entries, OfAccounts(accounts), OfAsset(asset));
    Conservation(book, asset);
  }

  // ---------------------------------------------------------------- running balances

  function Running(entries: seq<Entry>): map<Account, int> {
    if entries == [] then map[]
    else
      var last := entries[|entries| - 1].line;
      var before := Running(entries[..|entries| - 1]);
      before[last.account := (if last.account in before then before[last.account] else 0) + Signed(last)]
  }

  lemma {:induction false} RunningIsNet(entries: seq<Entry>, a: Account)
    ensures (if a in Running(entries) then Running(entries)[a] else 0) == Net(entries, OfAccounts({a}))
  {
    if entries != [] {
      RunningIsNet(entries[..|entries| - 1], a);
    }
  }

  /** The view derived from the entries is the running balance of the wallet's own account. */
  lemma ViewIsRunningBalance(book: Book, id: string)
    requires Sound(book) && id in book.wallets
    ensures
      var a := WalletAccountOf(book.wallets[id].tenant, id, book.wallets[id].asset);
      ViewBalance(book, id) == if a in Running(book.entries) then Running(book.entries)[a] else 0
  {
    var a := WalletAccountOf(book.wallets[id].tenant, id, book.wallets[id].asset);
    ViewIsNet(book.entries, id);
    NetSame(book.entries, OfWallet(id), OfAccounts({a}));
    RunningIsNet(book.entries, a);
  }

  // ---------------------------------------------------------------- the service

  /** The wallet schema, with the statements of the original as methods. */
  class LedgerStore {
    var wallets: map<string, Wallet>
    var accounts: set<Account>
    var transactions: seq<Transaction>
    var entries: seq<Entry>

    function Contents(): Book
      reads this
    {
      Book(wallets, accounts, transactions, entries)
    }

    ghost predicate Valid()
      reads this
    {
      Sound(Contents()) && NoNegativeBalance(Contents())
    }

    constructor (wallets: map<string, Wallet>)
      ensures Valid() && Contents() == Book(wallets, {}, [], [])
    {
      this.wallets := wallets;
      accounts, transactions, entries := {}, [], [];
    }

    method GetOrCreateWalletAccount(tenant: string, id: string, asset: string) returns (a: Account)
      modifies this`accounts
      ensures a == WalletAccountOf(tenant, id, asset)
      ensures accounts == old(accounts) + {a}
    {
      a := WalletAccountOf(tenant, id, asset);
      accounts := accounts + {a};
    }

    method GetOrCreateSharedAccount(tenant: string, kind: Kind, asset: string) returns (a: Account)
      modifies this`accounts
      ensures a == SharedAccountOf(tenant, kind, asset)
      ensures accounts == old(accounts) + {a}
    {
      a := SharedAccountOf(tenant, kind, asset);
      accounts := accounts + {a};
    }

    /** The view: one pass over the entries, credits and debits summed apart. */
    method GetWalletBalance(id: string, tenant: string) returns (balance: int)
      ensures id in wallets && wallets[id].tenant == tenant ==> balance == Balance(Contents(), id)
      ensures !(id in wallets && wallets[id].tenant == tenant) ==> balance == 0
    {
      if !(id in wallets && wallets[id].tenant == tenant) {
        return 0;
      }
      var credits, debits := 0, 0;
      for i := 0 to |entries|
        invariant credits == Sum(entries[..i], id, Credit)
        invariant debits == Sum(entries[..i], id, Debit)
      {
        assert entries[..i + 1][..i] == entries[..i];
        if Selects(OfWallet(id), entries[i]) {
          if entries[i].line.direction == Credit {
            credits := credits + entries[i].line.amount;
          } else {
            debits := debits + entries[i].line.amount;
          }
        }
      }
      assert entries[..|entries|] == entries;
      ViewIsNet(entries, id);
      balance := credits - debits;
    }

    /** The deferred trigger for one transaction. */
    method TriggerAccepts(index: nat) returns (ok: bool)
      ensures ok == (Net(entries, OfTransaction(index)) == 0)
    {
      var imbalance := 0;
      for i := 0 to |entries|
        invariant imbalance == -Net(entries[..i], OfTransaction(index))
      {
        assert entries[..i + 1][..i] == entries[..i];
        if entries[i].transaction == index {
          imbalance := imbalance - Signed(entries[i].line);
        }
      }
      assert entries[..|entries|] == entries;
      ok := imbalance == 0;
    }

    method PostTransaction(t: Transaction, lines: seq<Line>) returns (alreadyPosted: bool)
      modifies this`transactions, this`entries
      ensures alreadyPosted == KeyUsed(old(Contents()), t.tenant, t.key)
      ensures Contents() == Post(old(Contents()), t, lines)
    {
      if KeyUsed(Contents(), t.tenant, t.key) {
        return true;
      }
      var index := |transactions|;
      transactions := transactions + [t];
      for i := 0 to |lines|
        invariant transactions == old(transactions) + [t]
        invariant entries == old(entries) + Numbered(index, lines[..i])
      {
        assert Numbered(index, lines[..i + 1]) == Numbered(index, lines[..i]) + [Entry(index, lines[i])];
        entries := entries + [Entry(index, lines[i])];
      }
      assert lines[..|lines|] == lines;
      alreadyPosted := false;
    }

    /** POST /wallets/:id/debit, as one transaction under the wallet's row lock. */
    method DebitWallet(r: DebitRequest) returns (reply: Reply)
      requires Valid()
      modifies this`accounts, this`transactions, this`entries
      ensures Valid()
      ensures (Contents(), reply) == DebitResult(old(Contents()), r)
    {
      DebitKeepsSound(Contents(), r);
      if r.key.None? {
        return Rejected(IdempotencyRequired);
      }
      if !(r.principal > 0) || !(r.fee >= 0) {
        return Rejected(InvalidAmount);
      }
      if !(r.wallet in wallets && wallets[r.wallet].tenant == r.tenant) {
        return Rejected(WalletNotFound);
      }
      var wallet := wallets[r.wallet];
      var total := r.principal + r.fee;
      if KeyUsed(Contents(), r.tenant, r.key.value) {
        var balance := GetWalletBalance(r.wallet, r.tenant);
        return Replayed(total, balance);
      }
      if !wallet.active {
        return Rejected(WalletInactive);
      }
      var current := GetWalletBalance(r.wallet, r.tenant);
      if current < total {
        return Rejected(InsufficientBalance);
      }
      var lines := BuildLines(r);
      var alreadyPosted := PostTransaction(DebitTransaction(r), lines);
      var accepted := TriggerAccepts(|transactions| - 1);
      assert !alreadyPosted && accepted;
      var newBalance := GetWalletBalance(r.wallet, r.tenant);
      reply := Posted(total, newBalance);
    }

    /** The lines the handler pushes, opening the accounts they name. */
    method BuildLines(r: DebitRequest) returns (lines: seq<Line>)
      requires r.wallet in wallets && wallets[r.wallet].tenant == r.tenant
      modifies this`accounts
      ensures lines == DebitLines(wallets, r)
      ensures accounts == old(accounts) + LineAccounts(lines)
    {
      var wallet := wallets[r.wallet];
      var source := GetOrCreateWalletAccount(r.tenant, r.wallet, wallet.asset);
      lines := [Line(source, Debit, r.principal + r.fee)];
      var destination := None;
      if r.destination.Some? && r.destination.value != r.wallet {
        var id := r.destination.value;
        if id in wallets && wallets[id].tenant == r.tenant && wallets[id].active {
          destination := Some(id);
        }
      }
      var credited;
      if destination.Some? && wallets[destination.value].asset == wallet.asset {
        credited := GetOrCreateWalletAccount(r.tenant, destination.value, wallet.asset);
      } else {
        credited := GetOrCreateSharedAccount(r.tenant, SettlementClearing, wallet.asset);
      }
      lines := lines + [Line(credited, Credit, r.principal)];
      if r.fee > 0 {
        var fees := GetOrCreateSharedAccount(r.tenant, Fees, wallet.asset);
        lines := lines + [Line(fees, Credit, r.fee)];
      }
      assert accounts == old(accounts) + LineAccounts(lines);
    }
  }
}

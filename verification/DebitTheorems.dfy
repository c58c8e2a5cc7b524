/** What the debit route answers and moves, request by request
    (services/wallet-service/src/index.mjs:52-117). */
module DebitTheorems {
  import opened Basics
  import opened Ledger

  /** The wallet the request names may take the principal: another active wallet of the tenant and asset. */
  predicate Receives(book: Book, r: DebitRequest, id: string) {
    && r.destination == Some(id) && id != r.wallet && id in book.wallets && r.wallet in book.wallets
    && book.wallets[id].active && book.wallets[id].tenant == r.tenant && book.wallets[id].asset == book.wallets[r.wallet].asset
  }

  /** The tenant has posted under this key before. */
  predicate SeenKey(book: Book, tenant: string, key: string) {
    exists t :: t in book.transactions && t.tenant == tenant && t.key == key
  }

  lemma SeenIsUsed(book: Book, tenant: string, key: string)
    ensures SeenKey(book, tenant, key) <==> KeyUsed(book, tenant, key)
  {
    if t :| t in book.transactions && t.tenant == tenant && t.key == key {
      var i :| 0 <= i < |book.transactions| && book.transactions[i] == t;
      assert KeyUsed(book, tenant, key);
    }
    if i :| 0 <= i < |book.transactions| && book.transactions[i].tenant == tenant && book.transactions[i].key == key {
      assert book.transactions[i] in book.transactions;
    }
  }

  predicate AmountsOk(r: DebitRequest) {
    r.principal > 0 && r.fee >= 0
  }

  predicate OwnWallet(book: Book, r: DebitRequest) {
    r.wallet in book.wallets && book.wallets[r.wallet].tenant == r.tenant
  }

  /** Every answer, exactly when it is given; the checks come in this order. */
  lemma AnswersExactlyWhen(book: Book, r: DebitRequest)
    ensures
      var (next, reply) := DebitResult(book, r);
      var known := r.key.Some? && AmountsOk(r) && OwnWallet(book, r);
      var fresh_ := known && !SeenKey(book, r.tenant, r.key.value);
      && (reply == Rejected(IdempotencyRequired) <==> r.key == None)
      && (reply == Rejected(InvalidAmount) <==> r.key.Some? && !AmountsOk(r))
      && (reply == Rejected(WalletNotFound) <==> r.key.Some? && AmountsOk(r) && !OwnWallet(book, r))
      && (reply.Replayed? <==> known && SeenKey(book, r.tenant, r.key.value))
      && (reply == Rejected(WalletInactive) <==> fresh_ && !book.wallets[r.wallet].active)
      && (reply == Rejected(InsufficientBalance) <==>
            fresh_ && book.wallets[r.wallet].active && ViewBalance(book, r.wallet) < r.principal + r.fee)
      && (reply.Posted? <==> fresh_ && book.wallets[r.wallet].active && ViewBalance(book, r.wallet) >= r.principal + r.fee)
      && (!reply.Rejected? ==> reply.amount == r.principal + r.fee && reply.balance == ViewBalance(next, r.wallet))
      && (!reply.Posted? ==> next == book)
  {
    ViewIsNet(book.entries, r.wallet);
    ViewIsNet(DebitResult(book, r).0.entries, r.wallet);
    if r.key.Some? {
      SeenIsUsed(book, r.tenant, r.key.value);
    }
  }

  lemma ReceiverIsDestination(book: Book, r: DebitRequest, id: string)
    requires r.wallet in book.wallets
    ensures Destination(book.wallets, r) == Some(id) <==> Receives(book, r, id)
  {
  }

  /** A posted debit takes amount and fee from the source, gives the amount to the named wallet exactly
      when that may receive it, and moves no other wallet. */
  lemma PostedDebitMoves(book: Book, r: DebitRequest, id: string)
    requires DebitResult(book, r).1.Posted?
    ensures
      var next := DebitResult(book, r).0;
      ViewBalance(next, id) == ViewBalance(book, id)
        + (if id == r.wallet then -(r.principal + r.fee) else if Receives(book, r, id) then r.principal else 0)
  {
    var next := DebitResult(book, r).0;
    ViewIsNet(book.entries, id);
    ViewIsNet(next.entries, id);
    ReceiverIsDestination(book, r, id);
    PostDebitMoves(book, r, Destination(book.wallets, r), id);
  }

  lemma SharedAccountsMove(asset: string, r: DebitRequest, destination: Option<string>, index: nat)
    requires r.principal > 0 && r.fee >= 0
    ensures
      var e := Numbered(index, LinesTo(asset, r, destination));
      && Net(e, OfAccounts({Account(r.tenant, None, SettlementClearing, asset)})) == (if destination.Some? then 0 else r.principal)
      && Net(e, OfAccounts({Account(r.tenant, None, Fees, asset)})) == r.fee
  {
    var e := Numbered(index, LinesTo(asset, r, destination));
    assert e[..1] == [e[0]] && e[..1][..0] == [];
    assert e[..2][..1] == e[..1];
    var clearing, fees := OfAccounts({Account(r.tenant, None, SettlementClearing, asset)}), OfAccounts({Account(r.tenant, None, Fees, asset)});
    assert Net(e[..1], clearing) == 0 && Net(e[..1], fees) == 0;
    assert Net(e[..2], clearing) == (if destination.Some? then 0 else r.principal) && Net(e[..2], fees) == 0;
    if r.fee > 0 {
      assert e[..2] == e[..|e| - 1];
    } else {
      assert e[..2] == e;
    }
  }

  /** Without such a wallet the amount goes to the tenant's clearing account of the asset; the fee always
      goes to its fee account. */
  lemma PostedDebitCredits(book: Book, r: DebitRequest)
    requires DebitResult(book, r).1.Posted?
    ensures
      var next, asset := DebitResult(book, r).0, book.wallets[r.wallet].asset;
      var clearing, fees := OfAccounts({Account(r.tenant, None, SettlementClearing, asset)}), OfAccounts({Account(r.tenant, None, Fees, asset)});
      && Net(next.entries, clearing)
         == Net(book.entries, clearing) + (if exists id :: Receives(book, r, id) then 0 else r.principal)
      && Net(next.entries, fees) == Net(book.entries, fees) + r.fee
  {
    var asset, destination := book.wallets[r.wallet].asset, Destination(book.wallets, r);
    var lines := Numbered(|book.transactions|, LinesTo(asset, r, destination));
    SharedAccountsMove(asset, r, destination, |book.transactions|);
    NetConcat(book.entries, lines, OfAccounts({Account(r.tenant, None, SettlementClearing, asset)}));
    NetConcat(book.entries, lines, OfAccounts({Account(r.tenant, None, Fees, asset)}));
    if destination.Some? {
      ReceiverIsDestination(book, r, destination.value);
    }
    if id :| Receives(book, r, id) {
      ReceiverIsDestination(book, r, id);
    }
  }

  /** A posted debit appends one transaction, under the request's key and for its payment, and nothing
      but entries of that transaction, in the wallet's asset and the tenant's accounts. */
  lemma PostedDebitAppends(book: Book, r: DebitRequest)
    requires DebitResult(book, r).1.Posted?
    ensures
      var next := DebitResult(book, r).0;
      && next.wallets == book.wallets && book.accounts <= next.accounts
      && next.transactions == book.transactions + [Transaction(r.tenant, r.key.value, r.payment)]
      && book.entries <= next.entries
      && (forall i :: |book.entries| <= i < |next.entries| ==>
            && next.entries[i].transaction == |book.transactions| && next.entries[i].line.amount > 0
            && next.entries[i].line.account in next.accounts
            && next.entries[i].line.account.tenant == r.tenant && next.entries[i].line.account.asset == book.wallets[r.wallet].asset)
  {
    var next := DebitResult(book, r).0;
    var lines := DebitLines(book.wallets, r);
    forall i | |book.entries| <= i < |next.entries|
      ensures next.entries[i] == Entry(|book.transactions|, lines[i - |book.entries|]) && next.entries[i].line.account in LineAccounts(lines)
    {
      assert lines[i - |book.entries|] in lines;
    }
  }
}

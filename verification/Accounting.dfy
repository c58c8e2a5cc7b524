/** Payment journals: services/accounting-service/src/journals.mjs and the create-once route of
    services/accounting-service/src/index.mjs. Amounts are whole cents. */
module Accounting {
  import opened Basics

  datatype JournalEntry = JournalEntry(tenant: string, payment: string, account: string, debit: int, credit: int, entity: string, currency: string)

  datatype Bill = Bill(tenant: string, payment: string, intraGroup: bool, amount: int, fee: int, entity: string, currency: string)

  datatype Refusal = InvalidAmount | UnbalancedJournal

  /** `createPaymentJournals`. */
  function CreatePaymentJournals(b: Bill): Result<seq<JournalEntry>, Refusal> {
    if !(b.amount > 0) || b.fee < 0 then Err(InvalidAmount)
    else Ok(Lines(b))
  }

  function Lines(b: Bill): (r: seq<JournalEntry>)
    ensures |r| == 3
  {
    [JournalEntry(b.tenant, b.payment, "Stablecoin cash equivalent", 0, b.amount + b.fee, b.entity, b.currency),
     JournalEntry(b.tenant, b.payment, if b.intraGroup then "Intercompany receivable" else "Supplier payable", b.amount, 0, b.entity, b.currency),
     JournalEntry(b.tenant, b.payment, "Network and provider fees", b.fee, 0, b.entity, b.currency)]
  }

  function DebitTotal(entries: seq<JournalEntry>): int {
    if entries == [] then 0 else DebitTotal(entries[..|entries| - 1]) + entries[|entries| - 1].debit
  }

  function CreditTotal(entries: seq<JournalEntry>): int {
    if entries == [] then 0 else CreditTotal(entries[..|entries| - 1]) + entries[|entries| - 1].credit
  }

  /** The rows of one payment, as `journalsForPayment` selects them. */
  function ForPayment(rows: seq<JournalEntry>, tenant: string, payment: string): seq<JournalEntry> {
    if rows == [] then []
    else
      var last := rows[|rows| - 1];
      ForPayment(rows[..|rows| - 1], tenant, payment)
      + (if last.tenant == tenant && last.payment == payment then [last] else [])
  }

  /** The table after POST /journals/from-payment: the batch is created once. */
  function FromPayment(rows: seq<JournalEntry>, b: Bill): seq<JournalEntry> {
    if ForPayment(rows, b.tenant, b.payment) == [] && CreatePaymentJournals(b).Ok? then rows + Lines(b) else rows
  }

  /** UNIQUE (tenant_id, payment_id, account). */
  predicate AccountsUnique(rows: seq<JournalEntry>) {
    forall i, j :: 0 <= i < j < |rows| ==>
      !(rows[i].tenant == rows[j].tenant && rows[i].payment == rows[j].payment && rows[i].account == rows[j].account)
  }

  /** What `assertBalanced` computes, for any list of entries. */
  method AssertBalanced(entries: seq<JournalEntry>) returns (r: Result<(), Refusal>)
    ensures r == if DebitTotal(entries) == CreditTotal(entries) then Ok(()) else Err(UnbalancedJournal)
  {
    var debit, credit := 0, 0;
    for i := 0 to |entries|
      invariant debit == DebitTotal(entries[..i]) && credit == CreditTotal(entries[..i])
    {
      assert entries[..i + 1][..i] == entries[..i];
      debit, credit := debit + entries[i].debit, credit + entries[i].credit;
    }
    assert entries[..|entries|] == entries;
    return if debit == credit then Ok(()) else Err(UnbalancedJournal);
  }

  lemma LinesBalance(b: Bill)
    ensures DebitTotal(Lines(b)) == CreditTotal(Lines(b)) == b.amount + b.fee
  {
    var l := Lines(b);
    assert l[..2][..1] == l[..1] && l[..1][..0] == [];
    assert DebitTotal(l[..1]) == 0 && CreditTotal(l[..1]) == b.amount + b.fee;
    assert DebitTotal(l[..2]) == b.amount && CreditTotal(l[..2]) == b.amount + b.fee;
    assert DebitTotal(l) == DebitTotal(l[..2]) + b.fee;
  }

  /** An accepted bill becomes three lines over three accounts, none negative and each on one side:
      the sum is credited, the amount and the fee are debited. Every other bill is refused. */
  lemma AcceptedBatch(b: Bill)
    ensures CreatePaymentJournals(b).Ok? <==> b.amount > 0 && b.fee >= 0
    ensures CreatePaymentJournals(b).Err? ==> CreatePaymentJournals(b).error == InvalidAmount
    ensures CreatePaymentJournals(b).Ok? ==>
      var batch := CreatePaymentJournals(b).value;
      && DebitTotal(batch) == CreditTotal(batch) == b.amount + b.fee
      && |batch| == 3 && AccountsUnique(batch) && ForPayment(batch, b.tenant, b.payment) == batch
      && (forall e :: e in batch ==> e.debit >= 0 && e.credit >= 0 && (e.debit == 0 || e.credit == 0))
      && batch[0].credit == b.amount + b.fee && batch[1].debit == b.amount && batch[2].debit == b.fee
  {
    LinesBalance(b);
    OwnLines(Lines(b), b.tenant, b.payment);
  }

  /** Debits less credits of one account. */
  function Moved(entries: seq<JournalEntry>, account: string): int {
    if entries == [] then 0
    else
      Moved(entries[..|entries| - 1], account) + MovedByOne(entries[|entries| - 1], account)
  }

  function MovedByOne(e: JournalEntry, account: string): int {
    if e.account == account then e.debit - e.credit else 0
  }

  lemma MovedByThree(a: JournalEntry, b: JournalEntry, c: JournalEntry, account: string)
    ensures Moved([a, b, c], account) == MovedByOne(a, account) + MovedByOne(b, account) + MovedByOne(c, account)
  {
    assert [a, b, c][..2] == [a, b] && [a, b][..1] == [a] && [a][..0] == [];
    assert Moved([a], account) == MovedByOne(a, account);
    assert Moved([a, b], account) == MovedByOne(a, account) + MovedByOne(b, account);
  }

  lemma AccountsDiffer()
    ensures "Intercompany receivable" != "Supplier payable"
    ensures "Stablecoin cash equivalent" !in ["Intercompany receivable", "Supplier payable", "Network and provider fees"]
    ensures "Network and provider fees" !in ["Intercompany receivable", "Supplier payable"]
  {
    assert "Supplier payable"[1] != "Stablecoin cash equivalent"[1];
  }

  /** What an accepted bill moves on which account: the sum leaves the cash equivalent, the fee is an
      expense, and the amount is owed by the group for a payment inside it and settles a supplier for any
      other; all of it in the books of the payment's tenant and entity. */
  lemma BatchMovesExactly(b: Bill, account: string)
    ensures
      var cash, fees := "Stablecoin cash equivalent", "Network and provider fees";
      var other := if b.intraGroup then "Intercompany receivable" else "Supplier payable";
      && Moved(Lines(b), cash) == -(b.amount + b.fee) && Moved(Lines(b), fees) == b.fee && Moved(Lines(b), other) == b.amount
      && (account !in [cash, fees, other] ==> Moved(Lines(b), account) == 0)
      && forall e :: e in Lines(b) ==>
           e.tenant == b.tenant && e.payment == b.payment && e.entity == b.entity && e.currency == b.currency
  {
    var l := Lines(b);
    assert l == [l[0], l[1], l[2]];
    AccountsDiffer();
    forall a: string ensures Moved(l, a) == MovedByOne(l[0], a) + MovedByOne(l[1], a) + MovedByOne(l[2], a) {
      MovedByThree(l[0], l[1], l[2], a);
    }
  }

  lemma {:induction false} ForPaymentConcat(a: seq<JournalEntry>, b: seq<JournalEntry>, tenant: string, payment: string)
    ensures ForPayment(a + b, tenant, payment) == ForPayment(a, tenant, payment) + ForPayment(b, tenant, payment)
  {
    if b == [] {
      assert a + b == a;
    } else {
      assert (a + b)[..|a + b| - 1] == a + b[..|b| - 1];
      ForPaymentConcat(a, b[..|b| - 1], tenant, payment);
    }
  }

  lemma {:induction false} ForPaymentMembers(rows: seq<JournalEntry>, tenant: string, payment: string)
    ensures forall e :: e in rows && e.tenant == tenant && e.payment == payment <==> e in ForPayment(rows, tenant, payment)
  {
    if rows != [] {
      ForPaymentMembers(rows[..|rows| - 1], tenant, payment);
    }
  }

  lemma {:induction false} OwnLines(lines: seq<JournalEntry>, tenant: string, payment: string)
    requires forall e :: e in lines ==> e.tenant == tenant && e.payment == payment
    ensures ForPayment(lines, tenant, payment) == lines
  {
    if lines != [] {
      var front, last := lines[..|lines| - 1], lines[|lines| - 1];
      OwnLines(front, tenant, payment);
      assert last in lines && lines == front + [last];
      assert ForPayment(lines, tenant, payment) == front + [last];
    }
  }

  lemma {:induction false} NoLinesOfOthers(lines: seq<JournalEntry>, tenant: string, payment: string)
    requires forall e :: e in lines ==> e.tenant != tenant || e.payment != payment
    ensures ForPayment(lines, tenant, payment) == []
  {
    if lines != [] {
      NoLinesOfOthers(lines[..|lines| - 1], tenant, payment);
    }
  }

  /** The route adds the batch exactly for a payment that has none, with a positive amount and a fee not negative. */
  lemma AddedExactlyWhen(rows: seq<JournalEntry>, b: Bill)
    ensures
      var none := forall e :: e in rows ==> e.tenant != b.tenant || e.payment != b.payment;
      FromPayment(rows, b) == rows + (if none && b.amount > 0 && b.fee >= 0 then Lines(b) else [])
  {
    ForPaymentMembers(rows, b.tenant, b.payment);
    if forall e :: e in rows ==> e.tenant != b.tenant || e.payment != b.payment {
      NoLinesOfOthers(rows, b.tenant, b.payment);
    }
  }

  lemma BatchShows(rows: seq<JournalEntry>, b: Bill)
    requires ForPayment(rows, b.tenant, b.payment) == []
    ensures ForPayment(rows + Lines(b), b.tenant, b.payment) == Lines(b)
  {
    ForPaymentConcat(rows, Lines(b), b.tenant, b.payment);
    OwnLines(Lines(b), b.tenant, b.payment);
  }

  /** The route creates a payment's batch once: the accounts stay unique, the first accepted bill
      leaves its three balanced lines, a second call changes nothing even with another bill, and
      the batches of other payments are untouched. */
  lemma CreatedOnce(rows: seq<JournalEntry>, b: Bill, later: Bill)
    requires AccountsUnique(rows)
    requires b.amount > 0 && b.fee >= 0
    requires later.tenant == b.tenant && later.payment == b.payment
    ensures
      var after := FromPayment(rows, b);
      && AccountsUnique(after)
      && ForPayment(after, b.tenant, b.payment) ==
           (if ForPayment(rows, b.tenant, b.payment) == [] then Lines(b) else ForPayment(rows, b.tenant, b.payment))
      && FromPayment(after, later) == after
      && (forall tenant, payment :: (tenant, payment) != (b.tenant, b.payment) ==>
            ForPayment(after, tenant, payment) == ForPayment(rows, tenant, payment))
  {
    if ForPayment(rows, b.tenant, b.payment) == [] {
      BatchShows(rows, b);
      BatchKeepsAccountsUnique(rows, b);
      forall tenant, payment | (tenant, payment) != (b.tenant, b.payment)
        ensures ForPayment(rows + Lines(b), tenant, payment) == ForPayment(rows, tenant, payment)
      {
        ForPaymentConcat(rows, Lines(b), tenant, payment);
        NoLinesOfOthers(Lines(b), tenant, payment);
      }
    }
  }

  lemma BatchKeepsAccountsUnique(rows: seq<JournalEntry>, b: Bill)
    requires AccountsUnique(rows) && ForPayment(rows, b.tenant, b.payment) == []
    ensures AccountsUnique(rows + Lines(b))
  {
    ForPaymentMembers(rows, b.tenant, b.payment);
    forall i | 0 <= i < |rows|
      ensures rows[i].tenant != b.tenant || rows[i].payment != b.payment
    {
      assert rows[i] in rows;
    }
    NewAccounts(rows, Lines(b), b);
  }

  lemma NewAccounts(rows: seq<JournalEntry>, lines: seq<JournalEntry>, b: Bill)
    requires AccountsUnique(rows) && lines == Lines(b)
    requires forall i :: 0 <= i < |rows| ==> rows[i].tenant != b.tenant || rows[i].payment != b.payment
    ensures AccountsUnique(rows + lines)
  {
    forall k | 0 <= k < |lines| ensures lines[k].tenant == b.tenant && lines[k].payment == b.payment {}
    assert AccountsUnique(lines);
  }

  class JournalStore {
    var rows: seq<JournalEntry>

    constructor ()
      ensures rows == []
    {
      rows := [];
    }

    /** POST /journals/from-payment: look for the batch, else build, check and insert it row by row. */
    method CreateFromPayment(b: Bill) returns (r: Result<seq<JournalEntry>, Refusal>)
      modifies this
      ensures rows == FromPayment(old(rows), b)
      ensures r.Ok? <==> ForPayment(rows, b.tenant, b.payment) != []
      ensures r.Ok? ==> r.value == ForPayment(rows, b.tenant, b.payment)
      ensures r.Err? ==> r.error == InvalidAmount
    {
      var existing := ForPayment(rows, b.tenant, b.payment);
      if existing != [] {
        return Ok(existing);
      }
      var entries := CreatePaymentJournals(b);
      if entries.Err? {
        return entries;
      }
      LinesBalance(b);
      var balanced := AssertBalanced(entries.value);
      assert balanced.Ok?;
      for i := 0 to |entries.value|
        invariant rows == old(rows) + entries.value[..i]
      {
        rows := rows + [entries.value[i]];
      }
      assert entries.value[..|entries.value|] == entries.value;
      BatchShows(old(rows), b);
      r := entries;
    }
  }
}

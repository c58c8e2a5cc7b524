/** The sweep that cancels payments left unapproved for 72 hours:
    services/job-worker/src/handlers/expiry.mjs:10-45. */
module Expiry {
  import opened Basics
  import opened Lifecycle
  import opened Payments

  const EXPIRY_MS := 72 * 60 * 60 * 1000

  datatype Row = Row(tenant: string, id: string, reference: string, createdAt: int, rows: Rows)

  datatype AuditEvent = AuditEvent(tenant: string, aggregateId: string, action: string, object_: string)

  predicate Stale(r: Row, now: int) {
    r.rows.status == PendingApproval && r.createdAt < now - EXPIRY_MS
  }

  function Expired(r: Row): Row {
    r.(rows := OrSame(r.rows, ExpireTx(r.rows)))
  }

  /** One tenant's turn in a sweep: its transaction reads the clock itself. */
  datatype Visit = Visit(tenant: string, now: int)

  function Visits(tenants: seq<string>, clock: seq<int>): (r: seq<Visit>)
    requires |clock| == |tenants|
    ensures |r| == |tenants| && forall i :: 0 <= i < |r| ==> r[i] == Visit(tenants[i], clock[i])
  {
    seq(|tenants|, i requires 0 <= i < |tenants| => Visit(tenants[i], clock[i]))
  }

  /** The payment is stale at the turn of its tenant. */
  predicate DueIn(r: Row, visits: seq<Visit>) {
    exists k :: 0 <= k < |visits| && visits[k].tenant == r.tenant && Stale(r, visits[k].now)
  }

  lemma DueInOne(r: Row, v: Visit)
    ensures DueIn(r, [v]) <==> r.tenant == v.tenant && Stale(r, v.now)
  {
    assert [v][0] == v;
  }

  lemma DueInCons(r: Row, first: Visit, rest: seq<Visit>)
    ensures DueIn(r, [first] + rest) <==> DueIn(r, [first]) || DueIn(r, rest)
  {
    var visits := [first] + rest;
    DueInOne(r, first);
    assert visits[0] == first;
    if k :| 0 <= k < |rest| && rest[k].tenant == r.tenant && Stale(r, rest[k].now) {
      assert visits[k + 1] == rest[k];
    }
  }

  /** The table after the sweep of some tenants, and the rows it cancelled, in table order. */
  function Swept(table: seq<Row>, visits: seq<Visit>): (r: seq<Row>)
    ensures |r| == |table|
    ensures forall i :: 0 <= i < |table| ==> r[i] == if DueIn(table[i], visits) then Expired(table[i]) else table[i]
  {
    seq(|table|, i requires 0 <= i < |table| => if DueIn(table[i], visits) then Expired(table[i]) else table[i])
  }

  function Due(table: seq<Row>, visits: seq<Visit>): seq<Row> {
    if table == [] then []
    else (if DueIn(table[0], visits) then [table[0]] else []) + Due(table[1..], visits)
  }

  function EventOf(r: Row): AuditEvent {
    AuditEvent(r.tenant, r.id, "Payment expired", r.reference)
  }

  function EventsOf(rows: seq<Row>): (events: seq<AuditEvent>)
    ensures |events| == |rows| && forall i :: 0 <= i < |rows| ==> events[i] == EventOf(rows[i])
  {
    seq(|rows|, i requires 0 <= i < |rows| => EventOf(rows[i]))
  }

  function IdsOf(rows: seq<Row>): (ids: seq<string>)
    ensures |ids| == |rows| && forall i :: 0 <= i < |rows| ==> ids[i] == rows[i].id
  {
    seq(|rows|, i requires 0 <= i < |rows| => rows[i].id)
  }

  /** All rows cancelled by a sweep over the tenants one after the other. */
  function CancelledRows(table: seq<Row>, visits: seq<Visit>): seq<Row>
    decreases |visits|
  {
    if visits == [] then []
    else Due(table, [visits[0]]) + CancelledRows(Swept(table, [visits[0]]), visits[1..])
  }

  function SweptAll(table: seq<Row>, visits: seq<Visit>): seq<Row>
    decreases |visits|
  {
    if visits == [] then table else SweptAll(Swept(table, [visits[0]]), visits[1..])
  }

  lemma SweptTail(table: seq<Row>, visits: seq<Visit>)
    requires table != []
    ensures Swept(table, visits)[1..] == Swept(table[1..], visits)
    ensures Swept(table, visits)[0] == if DueIn(table[0], visits) then Expired(table[0]) else table[0]
  {
  }

  lemma {:induction false} DueSplits(table: seq<Row>, first: Visit, rest: seq<Visit>)
    ensures multiset(Due(table, [first] + rest))
         == multiset(Due(table, [first])) + multiset(Due(Swept(table, [first]), rest))
  {
    if table != [] {
      DueSplits(table[1..], first, rest);
      SweptTail(table, [first]);
      DueInCons(table[0], first, rest);
    }
  }

  /** The sweep tenant by tenant cancels exactly the stale payments of all the tenants named, each
      once, even when a tenant is named twice. */
  lemma {:induction false} CancelledOnce(table: seq<Row>, visits: seq<Visit>)
    ensures multiset(CancelledRows(table, visits)) == multiset(Due(table, visits))
    decreases |visits|
  {
    if visits == [] {
      NothingDue(table);
    } else {
      CancelledOnce(Swept(table, [visits[0]]), visits[1..]);
      DueSplits(table, visits[0], visits[1..]);
      assert [visits[0]] + visits[1..] == visits;
    }
  }

  lemma {:induction false} NothingDue(table: seq<Row>)
    ensures Due(table, []) == []
  {
    if table != [] {
      NothingDue(table[1..]);
    }
  }

  /** And leaves every other payment as it was. */
  lemma {:induction false} SweptAllAtOnce(table: seq<Row>, visits: seq<Visit>)
    ensures SweptAll(table, visits) == Swept(table, visits)
    decreases |visits|
  {
    if visits == [] {
      assert Swept(table, []) == table;
    } else {
      var once := Swept(table, [visits[0]]);
      SweptAllAtOnce(once, visits[1..]);
      forall i | 0 <= i < |table|
        ensures Swept(once, visits[1..])[i] == Swept(table, visits)[i]
      {
        assert visits == [visits[0]] + visits[1..];
        DueInCons(table[i], visits[0], visits[1..]);
      }
    }
  }

  lemma DueIds(table: seq<Row>, visits: seq<Visit>)
    requires table != []
    ensures IdsOf(Due(table, visits))
         == (if DueIn(table[0], visits) then [table[0].id] else []) + IdsOf(Due(table[1..], visits))
  {
  }

  predicate UniqueIds(table: seq<Row>) {
    forall j, k :: 0 <= j < k < |table| ==> table[j].id != table[k].id
  }

  /** With ids unique, each expired payment gets exactly one audit event and one expired id, and no
      other payment gets any. */
  lemma {:induction false} DueOccurrences(table: seq<Row>, visits: seq<Visit>, i: nat)
    requires i < |table| && UniqueIds(table)
    ensures multiset(IdsOf(Due(table, visits)))[table[i].id] == if DueIn(table[i], visits) then 1 else 0
  {
    DueIds(table, visits);
    if i == 0 {
      AbsentIds(table[1..], visits, table[0].id);
    } else {
      DueOccurrences(table[1..], visits, i - 1);
    }
  }

  lemma {:induction false} AbsentIds(table: seq<Row>, visits: seq<Visit>, id: string)
    requires forall j :: 0 <= j < |table| ==> table[j].id != id
    ensures id !in IdsOf(Due(table, visits))
  {
    if table != [] {
      AbsentIds(table[1..], visits, id);
      DueIds(table, visits);
    }
  }

  lemma IdsWithoutOne(rows: seq<Row>, k: nat)
    requires k < |rows|
    ensures multiset(IdsOf(rows)) == multiset(IdsOf(Without(rows, k))) + multiset{rows[k].id}
  {
    var ids := IdsOf(rows);
    assert IdsOf(Without(rows, k)) == ids[..k] + ids[k + 1..];
    assert ids == ids[..k] + [ids[k]] + ids[k + 1..];
  }

  lemma {:induction false} SameRowsSameIds(a: seq<Row>, b: seq<Row>)
    requires multiset(a) == multiset(b)
    ensures multiset(IdsOf(a)) == multiset(IdsOf(b))
    decreases |a|
  {
    if a == [] {
      assert |multiset(a)| == |multiset(b)|;
    } else {
      assert a[0] in multiset(b);
      var k :| 0 <= k < |b| && b[k] == a[0];
      WithoutOne(a, 0);
      WithoutOne(b, k);
      IdsWithoutOne(a, 0);
      IdsWithoutOne(b, k);
      SameRowsSameIds(Without(a, 0), Without(b, k));
    }
  }

  /** One expiry sweep, over the whole table: an id is reported once when its payment was due, and
      not otherwise. */
  lemma ReportedExactlyOnce(table: seq<Row>, visits: seq<Visit>, i: nat)
    requires i < |table| && UniqueIds(table)
    ensures multiset(IdsOf(CancelledRows(table, visits)))[table[i].id] == if DueIn(table[i], visits) then 1 else 0
  {
    CancelledOnce(table, visits);
    SameRowsSameIds(CancelledRows(table, visits), Due(table, visits));
    DueOccurrences(table, visits, i);
  }

  /** Still unapproved more than three days after it was created, when its tenant's turn comes. */
  predicate Overdue(r: Row, visits: seq<Visit>) {
    && r.rows.status == PendingApproval
    && exists k :: 0 <= k < |visits| && visits[k].tenant == r.tenant && visits[k].now > r.createdAt + 259200000
  }

  lemma DueExactlyWhen(r: Row, visits: seq<Visit>)
    ensures DueIn(r, visits) <==> Overdue(r, visits)
  {
    if k :| 0 <= k < |visits| && visits[k].tenant == r.tenant && visits[k].now > r.createdAt + 259200000 {
      assert Stale(r, visits[k].now) <==> r.rows.status == PendingApproval;
    }
  }

  /** A sweep cancels the overdue payments and changes nothing else, not even about them. */
  lemma SweepDecides(table: seq<Row>, visits: seq<Visit>, i: nat)
    requires i < |table|
    ensures
      && |SweptAll(table, visits)| == |table|
      && var r, r' := table[i], SweptAll(table, visits)[i];
      && (!Overdue(r, visits) ==> r' == r)
      && (Overdue(r, visits) ==>
            r' == r.(rows := r.rows.(status := Cancelled, log := r.rows.log + [Event(Some(PendingApproval), Cancelled)])))
  {
    SweptAllAtOnce(table, visits);
    DueExactlyWhen(table[i], visits);
  }

  /** The event of a cancelled payment is for the audit chain of its tenant and names it. */
  lemma EventNamesThePayment(rows: seq<Row>, k: nat)
    requires k < |rows|
    ensures
      var e := EventsOf(rows)[k];
      e.tenant == rows[k].tenant && e.aggregateId == rows[k].id && e.object_ == rows[k].reference && e.action == "Payment expired"
  {
  }

  lemma {:induction false} DueAppend(table: seq<Row>, r: Row, visits: seq<Visit>)
    ensures Due(table + [r], visits) == Due(table, visits) + (if DueIn(r, visits) then [r] else [])
  {
    if table == [] {
      assert table + [r] == [r] + [];
      DueCons(r, [], visits);
    } else {
      DueAppend(table[1..], r, visits);
      assert table == [table[0]] + table[1..] && table + [r] == [table[0]] + (table[1..] + [r]);
      DueCons(table[0], table[1..], visits);
      DueCons(table[0], table[1..] + [r], visits);
    }
  }

  lemma DueCons(r: Row, rest: seq<Row>, visits: seq<Visit>)
    ensures Due([r] + rest, visits) == (if DueIn(r, visits) then [r] else []) + Due(rest, visits)
  {
    assert ([r] + rest)[1..] == rest;
  }

  /** After i tenants: what is left to do, with what has been done, makes up the whole sweep. */
  predicate Underway(table: seq<Row>, before: seq<Row>, visits: seq<Visit>, i: nat, done: seq<Row>) {
    && i <= |visits|
    && SweptAll(table, visits[i..]) == SweptAll(before, visits)
    && done + CancelledRows(table, visits[i..]) == CancelledRows(before, visits)
  }

  lemma NextTenant(table: seq<Row>, before: seq<Row>, visits: seq<Visit>, i: nat, done: seq<Row>)
    requires i < |visits| && Underway(table, before, visits, i, done)
    ensures Underway(Swept(table, [visits[i]]), before, visits, i + 1, done + Due(table, [visits[i]]))
  {
    var rest, due := CancelledRows(Swept(table, [visits[i]]), visits[i + 1..]), Due(table, [visits[i]]);
    assert visits[i..][0] == visits[i] && visits[i..][1..] == visits[i + 1..];
    assert done + (due + rest) == (done + due) + rest;
  }

  lemma SweepEnds(table: seq<Row>, before: seq<Row>, visits: seq<Visit>, done: seq<Row>)
    requires Underway(table, before, visits, |visits|, done)
    ensures table == Swept(before, visits) && done == CancelledRows(before, visits)
  {
    assert visits[|visits|..] == [];
    SweptAllAtOnce(before, visits);
  }

  /** The outbox and the reported ids once some rows are done. */
  predicate Reported(ids: seq<string>, outbox: seq<AuditEvent>, before: seq<AuditEvent>, done: seq<Row>) {
    ids == IdsOf(done) && outbox == before + EventsOf(done)
  }

  lemma ReportMore(ids: seq<string>, outbox: seq<AuditEvent>, before: seq<AuditEvent>, done: seq<Row>, rows: seq<Row>)
    requires Reported(ids, outbox, before, done)
    ensures Reported(ids + IdsOf(rows), outbox + EventsOf(rows), before, done + rows)
  {
    assert IdsOf(done + rows) == IdsOf(done) + IdsOf(rows);
    assert EventsOf(done + rows) == EventsOf(done) + EventsOf(rows);
    assert outbox + EventsOf(rows) == before + (EventsOf(done) + EventsOf(rows));
  }

  class PaymentTable {
    var table: seq<Row>
    var outbox: seq<AuditEvent>

    /** The transaction of one tenant: UPDATE ... RETURNING, and one outbox event per returned row. */
    method ExpireTenant(tenant: string, now: int) returns (returned: seq<Row>)
      modifies this
      ensures returned == Due(old(table), [Visit(tenant, now)])
      ensures table == Swept(old(table), [Visit(tenant, now)])
      ensures outbox == old(outbox) + EventsOf(returned)
    {
      returned := [];
      ghost var before := table;
      for i := 0 to |table|
        invariant |table| == |before| && outbox == old(outbox)
        invariant returned == Due(before[..i], [Visit(tenant, now)])
        invariant forall k :: 0 <= k < i ==> table[k] == Swept(before, [Visit(tenant, now)])[k]
        invariant forall k :: i <= k < |before| ==> table[k] == before[k]
      {
        assert before[..i + 1] == before[..i] + [before[i]];
        DueAppend(before[..i], before[i], [Visit(tenant, now)]);
        DueInOne(before[i], Visit(tenant, now));
        if table[i].tenant == tenant && Stale(table[i], now) {
          returned := returned + [table[i]];
          table := table[i := Expired(table[i])];
        }
      }
      assert before[..|before|] == before;
      if |returned| > 0 {
        outbox := outbox + EventsOf(returned);
      }
    }

    /** `expireStalePayments`; `clock` holds what each tenant's transaction reads as the time. */
    method ExpireStalePayments(tenantIds: seq<string>, clock: seq<int>) returns (expiredIds: seq<string>)
      requires |clock| == |tenantIds|
      modifies this
      ensures table == Swept(old(table), Visits(tenantIds, clock))
      ensures expiredIds == IdsOf(CancelledRows(old(table), Visits(tenantIds, clock)))
      ensures outbox == old(outbox) + EventsOf(CancelledRows(old(table), Visits(tenantIds, clock)))
    {
      expiredIds := [];
      ghost var before, visits := table, Visits(tenantIds, clock);
      ghost var done: seq<Row> := [];
      assert visits[0..] == visits;
      for i := 0 to |tenantIds|
        invariant Underway(table, before, visits, i, done)
        invariant Reported(expiredIds, outbox, old(outbox), done)
      {
        ghost var previously := outbox;
        NextTenant(table, before, visits, i, done);
        var rows := ExpireTenant(tenantIds[i], clock[i]);
        ReportMore(expiredIds, previously, old(outbox), done, rows);
        done := done + rows;
        expiredIds := expiredIds + IdsOf(rows);
      }
      SweepEnds(table, before, visits, done);
    }
  }
}

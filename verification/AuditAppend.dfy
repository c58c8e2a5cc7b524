/** How audit chains grow: transactions that append under a per-tenant lock
    (packages/shared/audit.mjs:48-64), and the migration that numbers and links existing rows
    (db/migrations/0032_audit_hash_chain.sql:29-57). */
module AuditAppend {
  import opened Basics
  import opened AuditChain

  /** A row for an event after a given predecessor hash. */
  function Linked(hash: string -> string, e: Event, seq_: int, prevHash: string): Row {
    Row(e, seq_, prevHash, hash(Material(e, prevHash)))
  }

  /** The INSERT ... SELECT: linked to the visible row of the tenant with the greatest chain_seq. */
  function Appended(hash: string -> string, visible: seq<Row>, e: Event): Row {
    var chain := ChainOf(visible, e.tenant);
    if chain == [] then Linked(hash, e, 1, "")
    else Linked(hash, e, chain[|chain| - 1].seq_ + 1, chain[|chain| - 1].rowHash)
  }

  lemma LinkExtends(hash: string -> string, chain: seq<Row>, r: Row)
    requires Intact(hash, chain) && r.seq_ == |chain| + 1 && r.prevHash == PrevHashAt(chain, |chain|) && r.rowHash == hash(Material(r.event, r.prevHash))
    ensures InsertBySeq(r, chain) == chain + [r] && Intact(hash, chain + [r])
  {
    var longer := chain + [r];
    if chain != [] {
      assert LinkOk(hash, chain, |chain| - 1);
    }
    forall i | 0 <= i < |longer| ensures LinkOk(hash, longer, i) {
      SamePrevHash(chain, r, i);
      if i < |chain| {
        assert LinkOk(hash, chain, i);
      }
    }
  }

  lemma SamePrevHash(chain: seq<Row>, r: Row, i: nat)
    requires i <= |chain|
    ensures PrevHashAt(chain + [r], i) == PrevHashAt(chain, i)
  {
  }

  /** One append to an accepted table leaves an accepted table. */
  lemma AppendKeepsIntact(hash: string -> string, table: seq<Row>, e: Event)
    requires AllIntact(hash, table)
    ensures AllIntact(hash, table + [Appended(hash, table, e)])
  {
    var r, chain := Appended(hash, table, e), ChainOf(table, e.tenant);
    assert Intact(hash, chain);
    if chain != [] {
      assert LinkOk(hash, chain, |chain| - 1);
    }
    LinkExtends(hash, chain, r);
    forall tenant ensures Intact(hash, ChainOf(table + [r], tenant)) {
      assert Intact(hash, ChainOf(table, tenant));
    }
  }

  // ---------------------------------------------------------------- concurrent appends

  /** An open transaction: the tenants whose advisory lock it holds, and its uncommitted rows. */
  datatype Transaction = Transaction(locks: set<string>, pending: seq<Row>)

  type TransactionId = nat

  datatype State = State(table: seq<Row>, open_: map<TransactionId, Transaction>)

  datatype Step =
    | Lock(tx: TransactionId, tenant: string)
    | Insert(tx: TransactionId, event: Event)
    | Commit(tx: TransactionId)
    | Rollback(tx: TransactionId)

  predicate Free(s: State, tx: TransactionId, tenant: string) {
    forall other :: other in s.open_ && other != tx ==> tenant !in s.open_[other].locks
  }

  function Opened(s: State, tx: TransactionId): Transaction {
    if tx in s.open_ then s.open_[tx] else Transaction({}, [])
  }

  /** A transaction sees the committed rows and its own. */
  function Visible(s: State, tx: TransactionId): seq<Row> {
    s.table + Opened(s, tx).pending
  }

  function Apply(hash: string -> string, s: State, step: Step): State {
    match step
    case Lock(tx, tenant) =>
      if Free(s, tx, tenant) then s.(open_ := s.open_[tx := Opened(s, tx).(locks := Opened(s, tx).locks + {tenant})]) else s
    case Insert(tx, e) =>
      if tx in s.open_ && e.tenant in s.open_[tx].locks
      then s.(open_ := s.open_[tx := s.open_[tx].(pending := s.open_[tx].pending + [Appended(hash, Visible(s, tx), e)])]) else s
    case Commit(tx) => State(Visible(s, tx), s.open_ - {tx})
    case Rollback(tx) => s.(open_ := s.open_ - {tx})
  }

  function RunAll(hash: string -> string, s: State, steps: seq<Step>): State
    decreases |steps|
  {
    if steps == [] then s else RunAll(hash, Apply(hash, s, steps[0]), steps[1..])
  }

  predicate OwnRows(t: Transaction) {
    forall i :: 0 <= i < |t.pending| ==> t.pending[i].event.tenant in t.locks
  }

  predicate Exclusive(s: State) {
    forall u, v :: u in s.open_ && v in s.open_ && u != v ==> s.open_[u].locks !! s.open_[v].locks
  }

  ghost predicate Inv(hash: string -> string, s: State) {
    && AllIntact(hash, s.table) && Exclusive(s)
    && forall tx :: tx in s.open_ ==> OwnRows(s.open_[tx]) && AllIntact(hash, s.table + s.open_[tx].pending)
  }

  lemma {:induction false} OthersRowsDoNotCount(table: seq<Row>, others: seq<Row>, tenant: string)
    requires forall i :: 0 <= i < |others| ==> others[i].event.tenant != tenant
    ensures ChainOf(table + others, tenant) == ChainOf(table, tenant)
  {
    if others == [] {
      assert table + others == table;
    } else {
      var front := others[..|others| - 1];
      OthersRowsDoNotCount(table, front, tenant);
      assert table + others == (table + front) + [others[|others| - 1]];
    }
  }

  lemma {:induction false} OthersRowsBetween(table: seq<Row>, others: seq<Row>, own: seq<Row>, tenant: string)
    requires forall i :: 0 <= i < |others| ==> others[i].event.tenant != tenant
    ensures ChainOf((table + others) + own, tenant) == ChainOf(table + own, tenant)
  {
    if own == [] {
      assert (table + others) + own == table + others && table + own == table;
      OthersRowsDoNotCount(table, others, tenant);
    } else {
      var front, last := own[..|own| - 1], own[|own| - 1];
      OthersRowsBetween(table, others, front, tenant);
      assert (table + others) + own == ((table + others) + front) + [last] && table + own == (table + front) + [last];
    }
  }

  /** A commit does not disturb another open transaction. */
  lemma CommitKeepsOther(hash: string -> string, table: seq<Row>, committed: Transaction, other: Transaction)
    requires OwnRows(committed) && OwnRows(other) && committed.locks !! other.locks
    requires AllIntact(hash, table + committed.pending) && AllIntact(hash, table + other.pending)
    ensures AllIntact(hash, (table + committed.pending) + other.pending)
  {
    forall tenant ensures Intact(hash, ChainOf((table + committed.pending) + other.pending, tenant)) {
      if tenant in committed.locks {
        OthersRowsDoNotCount(table + committed.pending, other.pending, tenant);
        assert Intact(hash, ChainOf(table + committed.pending, tenant));
      } else {
        OthersRowsBetween(table, committed.pending, other.pending, tenant);
        assert Intact(hash, ChainOf(table + other.pending, tenant));
      }
    }
  }

  lemma InsertKeepsInv(hash: string -> string, s: State, tx: TransactionId, e: Event)
    requires Inv(hash, s) && tx in s.open_ && e.tenant in s.open_[tx].locks
    ensures Inv(hash, Apply(hash, s, Insert(tx, e)))
  {
    var r, pending := Appended(hash, Visible(s, tx), e), s.open_[tx].pending;
    AppendKeepsIntact(hash, s.table + pending, e);
    assert s.table + (pending + [r]) == (s.table + pending) + [r];
    assert OwnRows(s.open_[tx].(pending := pending + [r]));
  }

  lemma CommitKeepsInv(hash: string -> string, s: State, tx: TransactionId)
    requires Inv(hash, s)
    ensures Inv(hash, Apply(hash, s, Commit(tx)))
  {
    var s' := Apply(hash, s, Commit(tx));
    if tx in s.open_ {
      forall other | other in s'.open_
        ensures OwnRows(s'.open_[other]) && AllIntact(hash, s'.table + s'.open_[other].pending)
      {
        CommitKeepsOther(hash, s.table, s.open_[tx], s.open_[other]);
      }
    } else {
      assert s.table + [] == s.table;
    }
  }

  lemma LockKeepsInv(hash: string -> string, s: State, tx: TransactionId, tenant: string)
    requires Inv(hash, s) && Free(s, tx, tenant)
    ensures Inv(hash, Apply(hash, s, Lock(tx, tenant)))
  {
    var s' := Apply(hash, s, Lock(tx, tenant));
    assert s.table + [] == s.table;
    assert OwnRows(s'.open_[tx]);
  }

  lemma StepKeepsInv(hash: string -> string, s: State, step: Step)
    requires Inv(hash, s)
    ensures Inv(hash, Apply(hash, s, step)) && s.table <= Apply(hash, s, step).table
  {
    match step
    case Lock(tx, tenant) => if Free(s, tx, tenant) { LockKeepsInv(hash, s, tx, tenant); }
    case Insert(tx, e) => if tx in s.open_ && e.tenant in s.open_[tx].locks { InsertKeepsInv(hash, s, tx, e); }
    case Commit(tx) => CommitKeepsInv(hash, s, tx);
    case Rollback(tx) =>
  }

  /** Every interleaving of appending transactions, over any tenants and with any of them rolled
      back, keeps the table accepted by the verifier and only ever adds to it. */
  lemma {:induction false} AppendsVerify(hash: string -> string, s: State, steps: seq<Step>)
    requires Inv(hash, s)
    ensures Inv(hash, RunAll(hash, s, steps)) && Verify(hash, RunAll(hash, s, steps).table) == None
    ensures s.table <= RunAll(hash, s, steps).table
    decreases |steps|
  {
    if steps == [] {
      AcceptedExactlyWhenIntact(hash, s.table);
    } else {
      StepKeepsInv(hash, s, steps[0]);
      AppendsVerify(hash, Apply(hash, s, steps[0]), steps[1..]);
    }
  }

  /** Where runs start: any accepted table with no transaction open. */
  lemma AcceptedTableIsAStart(hash: string -> string, table: seq<Row>)
    requires Verify(hash, table) == None
    ensures Inv(hash, State(table, map[]))
  {
    AcceptedExactlyWhenIntact(hash, table);
  }

  /** So whatever appends are made to an accepted table, it is accepted afterwards. */
  lemma AcceptedStaysAccepted(hash: string -> string, table: seq<Row>, steps: seq<Step>)
    requires Verify(hash, table) == None
    ensures
      var after := RunAll(hash, State(table, map[]), steps).table;
      Verify(hash, after) == None && table <= after
  {
    AcceptedTableIsAStart(hash, table);
    AppendsVerify(hash, State(table, map[]), steps);
  }

  // ---------------------------------------------------------------- one transaction

  /** The INSERTs of one transaction. */
  function Inserts(tx: TransactionId, events: seq<Event>): (steps: seq<Step>)
    ensures |steps| == |events|
  {
    if events == [] then [] else [Insert(tx, events[0])] + Inserts(tx, events[1..])
  }

  /** The rows carry these events, in this order. */
  predicate Carry(rows: seq<Row>, events: seq<Event>) {
    |rows| == |events| && forall i :: 0 <= i < |rows| ==> rows[i].event == events[i]
  }

  lemma {:induction false} RunConcat(hash: string -> string, s: State, first: seq<Step>, second: seq<Step>)
    ensures RunAll(hash, s, first + second) == RunAll(hash, RunAll(hash, s, first), second)
    decreases |first|
  {
    if first == [] {
      assert first + second == second;
    } else {
      assert (first + second)[1..] == first[1..] + second;
      RunConcat(hash, Apply(hash, s, first[0]), first[1..], second);
    }
  }

  lemma RunOne(hash: string -> string, s: State, step: Step)
    ensures RunAll(hash, s, [step]) == Apply(hash, s, step)
  {
    assert [step][1..] == [];
  }

  /** The second state differs from the first in rows waiting to be committed by one transaction. */
  predicate Queued(s: State, s': State, tx: TransactionId, events: seq<Event>) {
    && tx in s.open_ && tx in s'.open_ && s'.table == s.table && s'.open_ - {tx} == s.open_ - {tx}
    && s'.open_[tx].locks == s.open_[tx].locks && s.open_[tx].pending <= s'.open_[tx].pending
    && Carry(s'.open_[tx].pending[|s.open_[tx].pending|..], events)
  }

  lemma InsertQueues(hash: string -> string, s: State, tx: TransactionId, e: Event)
    requires tx in s.open_ && e.tenant in s.open_[tx].locks
    ensures Queued(s, Apply(hash, s, Insert(tx, e)), tx, [e])
  {
    var s' := Apply(hash, s, Insert(tx, e));
    assert s'.open_[tx].pending == s.open_[tx].pending + [Appended(hash, Visible(s, tx), e)];
  }

  lemma QueuedThenQueued(s: State, s1: State, s': State, tx: TransactionId, first: seq<Event>, rest: seq<Event>)
    requires Queued(s, s1, tx, first) && Queued(s1, s', tx, rest)
    ensures Queued(s, s', tx, first + rest)
  {
    var p, p1, p' := s.open_[tx].pending, s1.open_[tx].pending, s'.open_[tx].pending;
    assert p'[|p|..] == p1[|p|..] + p'[|p1|..];
  }

  lemma {:induction false} InsertsQueue(hash: string -> string, s: State, tx: TransactionId, events: seq<Event>)
    requires tx in s.open_ && forall i :: 0 <= i < |events| ==> events[i].tenant in s.open_[tx].locks
    ensures Queued(s, RunAll(hash, s, Inserts(tx, events)), tx, events)
    decreases |events|
  {
    if events != [] {
      var s1 := Apply(hash, s, Insert(tx, events[0]));
      InsertQueues(hash, s, tx, events[0]);
      InsertsQueue(hash, s1, tx, events[1..]);
      QueuedThenQueued(s, s1, RunAll(hash, s1, Inserts(tx, events[1..])), tx, [events[0]], events[1..]);
      assert [events[0]] + events[1..] == events;
      assert Inserts(tx, events)[1..] == Inserts(tx, events[1..]);
    }
  }

  function Locked(s: State, tx: TransactionId, tenant: string): State {
    State(s.table, s.open_[tx := Transaction({tenant}, [])])
  }

  lemma LockThenInserts(hash: string -> string, s: State, tx: TransactionId, tenant: string, events: seq<Event>, last: Step)
    requires tx !in s.open_ && Free(s, tx, tenant)
    ensures
      RunAll(hash, s, [Lock(tx, tenant)] + Inserts(tx, events) + [last])
      == Apply(hash, RunAll(hash, Locked(s, tx, tenant), Inserts(tx, events)), last)
  {
    assert Opened(s, tx).locks + {tenant} == {tenant};
    assert Apply(hash, s, Lock(tx, tenant)) == Locked(s, tx, tenant);
    RunConcat(hash, s, [Lock(tx, tenant)] + Inserts(tx, events), [last]);
    RunConcat(hash, s, [Lock(tx, tenant)], Inserts(tx, events));
    RunOne(hash, s, Lock(tx, tenant));
    RunOne(hash, RunAll(hash, Locked(s, tx, tenant), Inserts(tx, events)), last);
  }

  /** A transaction that gets the lock of its tenant: committed, its events are the last rows of the
      table, in order; rolled back, it has not been there. Either way it holds nothing afterwards. */
  lemma TransactionAllOrNothing(hash: string -> string, s: State, tx: TransactionId, tenant: string, events: seq<Event>)
    requires tx !in s.open_ && Free(s, tx, tenant) && forall i :: 0 <= i < |events| ==> events[i].tenant == tenant
    ensures
      var after := RunAll(hash, s, [Lock(tx, tenant)] + Inserts(tx, events) + [Commit(tx)]);
      after.open_ == s.open_ && s.table <= after.table && Carry(after.table[|s.table|..], events)
    ensures RunAll(hash, s, [Lock(tx, tenant)] + Inserts(tx, events) + [Rollback(tx)]) == s
  {
    var locked := Locked(s, tx, tenant);
    LockThenInserts(hash, s, tx, tenant, events, Commit(tx));
    LockThenInserts(hash, s, tx, tenant, events, Rollback(tx));
    InsertsQueue(hash, locked, tx, events);
    QueuedThenEnded(hash, s, RunAll(hash, locked, Inserts(tx, events)), tx, tenant, events);
  }

  lemma QueuedThenEnded(hash: string -> string, s: State, s': State, tx: TransactionId, tenant: string, events: seq<Event>)
    requires tx !in s.open_ && Queued(Locked(s, tx, tenant), s', tx, events)
    ensures Apply(hash, s', Rollback(tx)) == s
    ensures
      var after := Apply(hash, s', Commit(tx));
      after.open_ == s.open_ && s.table <= after.table && Carry(after.table[|s.table|..], events)
  {
    assert Locked(s, tx, tenant).open_ - {tx} == s.open_;
    assert (s.table + s'.open_[tx].pending)[|s.table|..] == s'.open_[tx].pending[0..];
  }

  // ---------------------------------------------------------------- the migration

  predicate NotAfter(a: string, b: string) {
    a == b || LexLess(a, b)
  }

  /** The order of the migration's SELECT, as far as tenants go. */
  predicate ByTenant(rows: seq<Row>) {
    forall i, j :: 0 <= i < j < |rows| ==> NotAfter(rows[i].event.tenant, rows[j].event.tenant)
  }

  lemma EarlierTenantsDiffer(rows: seq<Row>, k: nat, i: nat)
    requires ByTenant(rows) && k < i < |rows| && rows[i - 1].event.tenant != rows[i].event.tenant
    ensures rows[k].event.tenant != rows[i].event.tenant
  {
    assert NotAfter(rows[i - 1].event.tenant, rows[i].event.tenant);
    LexIsTotal(rows[i - 1].event.tenant, rows[i].event.tenant);
    if k < i - 1 {
      assert NotAfter(rows[k].event.tenant, rows[i - 1].event.tenant);
    }
  }

  /** Where the loop stands after i rows: done rows are linked, the others untouched, and the three
      variables describe the end of the chain of the last tenant. */
  ghost predicate Progress(hash: string -> string, done: seq<Row>, before: seq<Row>, curTenant: Option<string>, seq_: int, prev: string) {
    && |done| <= |before| && SameEvents(done, before[..|done|]) && AllIntact(hash, done)
    && (if done == [] then curTenant == None
        else curTenant == Some(before[|done| - 1].event.tenant) && IsTail(ChainOf(done, before[|done| - 1].event.tenant), seq_, prev))
  }

  /** What one turn of the loop makes of a row. */
  function NextRow(hash: string -> string, e: Event, curTenant: Option<string>, seq_: int, prev: string): Row {
    if curTenant == Some(e.tenant) then Linked(hash, e, seq_ + 1, prev) else Linked(hash, e, 1, "")
  }

  lemma TailOfLast(hash: string -> string, done: seq<Row>, before: seq<Row>, curTenant: Option<string>, seq_: int, prev: string)
    requires Progress(hash, done, before, curTenant, seq_, prev) && curTenant.Some?
    ensures IsTail(ChainOf(done, curTenant.value), seq_, prev)
  {
  }

  lemma NoneOfNewTenant(hash: string -> string, done: seq<Row>, before: seq<Row>, curTenant: Option<string>, seq_: int, prev: string)
    requires ByTenant(before) && |done| < |before| && Progress(hash, done, before, curTenant, seq_, prev)
    requires curTenant != Some(before[|done|].event.tenant)
    ensures ChainOf(done, before[|done|].event.tenant) == []
  {
    NewTenantHasNoChain(done, before, |done|);
  }

  lemma NextRowIsAppended(hash: string -> string, done: seq<Row>, before: seq<Row>, curTenant: Option<string>, seq_: int, prev: string)
    requires ByTenant(before) && |done| < |before| && Progress(hash, done, before, curTenant, seq_, prev)
    ensures
      var e := before[|done|].event;
      var next := NextRow(hash, e, curTenant, seq_, prev);
      next == Appended(hash, done, e) && IsTail(ChainOf(done + [next], e.tenant), next.seq_, next.rowHash)
  {
    var e := before[|done|].event;
    if curTenant == Some(e.tenant) {
      TailOfLast(hash, done, before, curTenant, seq_, prev);
      NextIsAppended(hash, done, e, seq_ + 1, prev);
    } else {
      NoneOfNewTenant(hash, done, before, curTenant, seq_, prev);
      NextIsAppended(hash, done, e, 1, "");
    }
  }

  lemma NextProgress(hash: string -> string, done: seq<Row>, before: seq<Row>, curTenant: Option<string>, seq_: int, prev: string)
    requires ByTenant(before) && |done| < |before| && Progress(hash, done, before, curTenant, seq_, prev)
    ensures
      var e := before[|done|].event;
      var next := NextRow(hash, e, curTenant, seq_, prev);
      Progress(hash, done + [next], before, Some(e.tenant), next.seq_, next.rowHash)
  {
    var e := before[|done|].event;
    var next := NextRow(hash, e, curTenant, seq_, prev);
    NextRowIsAppended(hash, done, before, curTenant, seq_, prev);
    AppendKeepsIntact(hash, done, e);
    assert before[..|done| + 1] == before[..|done|] + [before[|done|]];
    assert SameEvents(done + [next], before[..|done| + 1]);
  }

  ghost predicate AcceptedInEveryOrder(hash: string -> string, rows: seq<Row>) {
    forall table :: multiset(table) == multiset(rows) ==> Verify(hash, table) == None
  }

  lemma ProgressEnds(hash: string -> string, done: seq<Row>, before: seq<Row>, curTenant: Option<string>, seq_: int, prev: string)
    requires |done| == |before| && Progress(hash, done, before, curTenant, seq_, prev)
    ensures AllIntact(hash, done) && SameEvents(done, before)
    ensures AcceptedInEveryOrder(hash, done)
  {
    assert before[..|before|] == before;
    AcceptedExactlyWhenIntact(hash, done);
    forall table | multiset(table) == multiset(done) ensures Verify(hash, table) == None {
      AcceptedInAnyOrder(hash, done, table);
    }
  }

  /** The loop of the migration over the rows in the order of its SELECT, with its three variables. */
  method Backfill(hash: string -> string, rows: array<Row>)
    requires ByTenant(rows[..])
    modifies rows
    ensures AllIntact(hash, rows[..])
    ensures SameEvents(rows[..], old(rows[..]))
    ensures AcceptedInEveryOrder(hash, rows[..])
  {
    var prev, seq_, curTenant: Option<string> := "", 0, None;
    ghost var before := rows[..];
    for i := 0 to rows.Length
      invariant Progress(hash, rows[..i], before, curTenant, seq_, prev)
      invariant forall k :: i <= k < rows.Length ==> rows[k] == before[k]
    {
      var r := rows[i];
      ghost var done, next := rows[..i], NextRow(hash, r.event, curTenant, seq_, prev);
      NextProgress(hash, done, before, curTenant, seq_, prev);
      if curTenant != Some(r.event.tenant) {
        curTenant := Some(r.event.tenant);
        prev := "";
        seq_ := 0;
      }
      seq_ := seq_ + 1;
      rows[i] := Linked(hash, r.event, seq_, prev);
      prev := rows[i].rowHash;
      assert Progress(hash, done + [next], before, curTenant, seq_, prev);
      assert rows[..i + 1] == done + [next];
    }
    assert rows[..rows.Length] == rows[..];
    ProgressEnds(hash, rows[..], before, curTenant, seq_, prev);
  }

  /** The variables of the loop describe the end of a chain. */
  predicate IsTail(chain: seq<Row>, seq_: int, prev: string) {
    chain != [] && chain[|chain| - 1].seq_ == seq_ && chain[|chain| - 1].rowHash == prev
  }

  predicate SameEvents(a: seq<Row>, b: seq<Row>) {
    |a| == |b| && forall k :: 0 <= k < |a| ==> a[k].event == b[k].event
  }

  /** Where the loop meets a tenant for the first time, the rows before hold nothing of it. */
  lemma NewTenantHasNoChain(done: seq<Row>, before: seq<Row>, i: nat)
    requires i < |before| && ByTenant(before) && SameEvents(done, before[..i])
    requires i == 0 || before[i - 1].event.tenant != before[i].event.tenant
    ensures ChainOf(done, before[i].event.tenant) == []
  {
    forall k | 0 <= k < |done| ensures done[k].event.tenant != before[i].event.tenant {
      EarlierTenantsDiffer(before, k, i);
    }
    NoRowsNoChain(done, before[i].event.tenant);
  }

  lemma NextIsAppended(hash: string -> string, done: seq<Row>, e: Event, seq_: int, prev: string)
    requires AllIntact(hash, done)
    requires var chain := ChainOf(done, e.tenant); if chain == [] then seq_ == 1 && prev == "" else IsTail(chain, seq_ - 1, prev)
    ensures Linked(hash, e, seq_, prev) == Appended(hash, done, e)
    ensures IsTail(ChainOf(done + [Linked(hash, e, seq_, prev)], e.tenant), seq_, Linked(hash, e, seq_, prev).rowHash)
  {
    var r, chain := Linked(hash, e, seq_, prev), ChainOf(done, e.tenant);
    assert InsertBySeq(r, chain) == chain + [r];
  }

  // ---------------------------------------------------------------- physical order

  predicate UniqueSeqs(table: seq<Row>) {
    forall i, j :: 0 <= i < j < |table| ==> table[i].event.tenant != table[j].event.tenant || table[i].seq_ != table[j].seq_
  }

  lemma InsertAfter(r: Row, front: seq<Row>, last: Row)
    requires last.seq_ <= r.seq_
    ensures InsertBySeq(r, front + [last]) == front + [last] + [r]
  {
  }

  lemma InsertBefore(r: Row, front: seq<Row>, last: Row)
    requires r.seq_ < last.seq_
    ensures InsertBySeq(r, front + [last]) == InsertBySeq(r, front) + [last]
  {
    var chain := front + [last];
    assert chain[..|chain| - 1] == front && chain[|chain| - 1] == last;
  }

  /** Of two rows the one with the smaller number goes before the other, whichever comes first. */
  lemma {:induction false} SmallerGoesBefore(a: Row, b: Row, chain: seq<Row>)
    requires a.seq_ < b.seq_
    ensures InsertBySeq(a, InsertBySeq(b, chain)) == InsertBySeq(b, InsertBySeq(a, chain))
    decreases |chain|
  {
    if chain == [] {
      TwoRows(a, b);
    } else {
      var front, last := chain[..|chain| - 1], chain[|chain| - 1];
      assert chain == front + [last];
      if b.seq_ < last.seq_ {
        SmallerGoesBefore(a, b, front);
        BothBefore(a, b, front, last);
      } else {
        LargerAtTheEnd(a, b, front, last);
      }
    }
  }

  lemma TwoRows(a: Row, b: Row)
    requires a.seq_ < b.seq_
    ensures InsertBySeq(a, InsertBySeq(b, [])) == InsertBySeq(b, InsertBySeq(a, []))
  {
    InsertBefore(a, [], b);
    InsertAfter(b, [], a);
    assert InsertBySeq(a, []) == [] + [a] && InsertBySeq(b, []) == [] + [b];
  }

  lemma BothBefore(a: Row, b: Row, front: seq<Row>, last: Row)
    requires a.seq_ < b.seq_ < last.seq_
    requires InsertBySeq(a, InsertBySeq(b, front)) == InsertBySeq(b, InsertBySeq(a, front))
    ensures InsertBySeq(a, InsertBySeq(b, front + [last])) == InsertBySeq(b, InsertBySeq(a, front + [last]))
  {
    InsertBefore(a, front, last);
    InsertBefore(b, front, last);
    InsertBefore(a, InsertBySeq(b, front), last);
    InsertBefore(b, InsertBySeq(a, front), last);
  }

  lemma LargerAtTheEnd(a: Row, b: Row, front: seq<Row>, last: Row)
    requires a.seq_ < b.seq_ && last.seq_ <= b.seq_
    ensures InsertBySeq(a, InsertBySeq(b, front + [last])) == InsertBySeq(b, InsertBySeq(a, front + [last]))
  {
    InsertAfter(b, front, last);
    InsertBefore(a, front + [last], b);
    if a.seq_ < last.seq_ {
      InsertBefore(a, front, last);
      InsertAfter(b, InsertBySeq(a, front), last);
    } else {
      InsertAfter(a, front, last);
      InsertAfter(b, front + [last], a);
    }
  }

  lemma InsertsCommute(a: Row, b: Row, chain: seq<Row>)
    requires a.seq_ != b.seq_
    ensures InsertBySeq(a, InsertBySeq(b, chain)) == InsertBySeq(b, InsertBySeq(a, chain))
  {
    if a.seq_ < b.seq_ {
      SmallerGoesBefore(a, b, chain);
    } else {
      SmallerGoesBefore(b, a, chain);
    }
  }

  lemma ChainOfLonger(front: seq<Row>, last: Row, tenant: string)
    ensures
      ChainOf(front + [last], tenant)
      == if last.event.tenant == tenant then InsertBySeq(last, ChainOf(front, tenant)) else ChainOf(front, tenant)
  {
    assert (front + [last])[..|front|] == front;
  }

  lemma SwapLastTwo(rest: seq<Row>, x: Row, last: Row, tenant: string)
    requires x.event.tenant != last.event.tenant || x.seq_ != last.seq_
    ensures ChainOf((rest + [x]) + [last], tenant) == ChainOf((rest + [last]) + [x], tenant)
  {
    ChainOfLonger(rest, x, tenant);
    ChainOfLonger(rest, last, tenant);
    ChainOfLonger(rest + [x], last, tenant);
    ChainOfLonger(rest + [last], x, tenant);
    if x.event.tenant == tenant && last.event.tenant == tenant {
      InsertsCommute(x, last, ChainOf(rest, tenant));
    }
  }

  lemma WithoutOfLonger(front: seq<Row>, last: Row, k: nat)
    requires k < |front|
    ensures Without(front + [last], k) == Without(front, k) + [last] && (front + [last])[k] == front[k]
  {
    assert (front + [last])[..k] == front[..k] && (front + [last])[k + 1..] == front[k + 1..] + [last];
  }

  lemma WithoutLast(front: seq<Row>, last: Row)
    ensures Without(front + [last], |front|) + [last] == front + [last]
  {
    assert (front + [last])[..|front|] == front;
  }

  /** If the row can be moved to the end of the rows before the last one, it can be moved past it. */
  lemma MovePastLast(front: seq<Row>, last: Row, rest: seq<Row>, x: Row, tenant: string)
    requires ChainOf(front, tenant) == ChainOf(rest + [x], tenant)
    requires x.event.tenant != last.event.tenant || x.seq_ != last.seq_
    ensures ChainOf(front + [last], tenant) == ChainOf((rest + [last]) + [x], tenant)
  {
    ChainOfLonger(front, last, tenant);
    ChainOfLonger(rest + [x], last, tenant);
    SwapLastTwo(rest, x, last, tenant);
  }

  lemma {:induction false} MoveToEnd(table: seq<Row>, k: nat, tenant: string)
    requires UniqueSeqs(table) && k < |table|
    ensures ChainOf(table, tenant) == ChainOf(Without(table, k) + [table[k]], tenant)
    decreases |table|
  {
    var n := |table| - 1;
    var front, last := table[..n], table[n];
    assert table == front + [last];
    if k == n {
      WithoutLast(front, last);
    } else {
      assert UniqueSeqs(front);
      MoveToEnd(front, k, tenant);
      WithoutOfLonger(front, last, k);
      MovePastLast(front, last, Without(front, k), front[k], tenant);
    }
  }

  lemma LastElsewhere(a: seq<Row>, b: seq<Row>) returns (k: nat)
    requires multiset(a) == multiset(b) && a != []
    ensures k < |b| && b[k] == a[|a| - 1] && multiset(a[..|a| - 1]) == multiset(Without(b, k))
  {
    var n := |a| - 1;
    assert a[n] in multiset(b);
    k :| 0 <= k < |b| && b[k] == a[n];
    WithoutOne(a, n);
    WithoutOne(b, k);
    assert Without(a, n) == a[..n];
  }

  /** A chain does not depend on where its rows lie in the table. */
  lemma {:induction false} OrderDoesNotMatter(a: seq<Row>, b: seq<Row>, tenant: string)
    requires multiset(a) == multiset(b) && UniqueSeqs(a) && UniqueSeqs(b)
    ensures ChainOf(a, tenant) == ChainOf(b, tenant)
    decreases |a|
  {
    if a == [] {
      assert |multiset(a)| == |multiset(b)|;
    } else {
      var k := LastElsewhere(a, b);
      var front, last := a[..|a| - 1], a[|a| - 1];
      MoveToEnd(b, k, tenant);
      assert UniqueSeqs(front);
      OrderDoesNotMatter(front, Without(b, k), tenant);
      assert a == front + [last];
    }
  }

  /** No two rows of a chain have one number. */
  predicate DistinctSeqs(chain: seq<Row>) {
    forall i, j :: 0 <= i < j < |chain| ==> chain[i].seq_ != chain[j].seq_
  }

  lemma {:induction false} InsertDistinct(r: Row, chain: seq<Row>)
    requires DistinctSeqs(InsertBySeq(r, chain))
    ensures DistinctSeqs(chain) && forall x :: x in chain ==> x.seq_ != r.seq_
  {
    var longer, n := InsertBySeq(r, chain), |chain| - 1;
    if chain == [] || chain[n].seq_ <= r.seq_ {
      assert longer[|chain|] == r;
      assert forall i :: 0 <= i < |chain| ==> longer[i] == chain[i];
    } else {
      var front := InsertBySeq(r, chain[..n]);
      assert forall i :: 0 <= i < |front| ==> longer[i] == front[i];
      assert DistinctSeqs(front);
      InsertDistinct(r, chain[..n]);
      forall x | x in chain[..n] ensures x.seq_ != chain[n].seq_ {
        InsertMembers(r, chain[..n], x);
        assert x in front && longer[|front|] == chain[n];
      }
    }
  }

  /** The rows of a tenant have numbers of their own when those of its chain do. */
  lemma {:induction false} ChainDistinctRowsDistinct(table: seq<Row>, tenant: string, i: nat, j: nat)
    requires DistinctSeqs(ChainOf(table, tenant)) && i < j < |table| && table[i].event.tenant == table[j].event.tenant == tenant
    ensures table[i].seq_ != table[j].seq_
    decreases |table|
  {
    var n := |table| - 1;
    if table[n].event.tenant == tenant {
      InsertDistinct(table[n], ChainOf(table[..n], tenant));
    }
    if j == n {
      ChainMembers(table[..n], tenant, table[i]);
      assert table[i] in table[..n];
    } else {
      ChainDistinctRowsDistinct(table[..n], tenant, i, j);
    }
  }

  /** In an accepted table no tenant has two rows with one number. */
  lemma IntactMeansUnique(hash: string -> string, table: seq<Row>)
    requires AllIntact(hash, table)
    ensures UniqueSeqs(table)
  {
    forall i, j | 0 <= i < j < |table| && table[i].event.tenant == table[j].event.tenant
      ensures table[i].seq_ != table[j].seq_
    {
      var chain := ChainOf(table, table[i].event.tenant);
      assert Intact(hash, chain);
      forall k, l | 0 <= k < l < |chain| ensures chain[k].seq_ != chain[l].seq_ {
        assert LinkOk(hash, chain, k) && LinkOk(hash, chain, l);
      }
      ChainDistinctRowsDistinct(table, table[i].event.tenant, i, j);
    }
  }

  lemma {:induction false} UniqueInAnyOrder(a: seq<Row>, b: seq<Row>)
    requires multiset(a) == multiset(b) && UniqueSeqs(a)
    ensures UniqueSeqs(b)
    decreases |a|
  {
    if a == [] {
      assert |multiset(a)| == |multiset(b)|;
    } else {
      var k := LastElsewhere(a, b);
      var front, last, rest := a[..|a| - 1], a[|a| - 1], Without(b, k);
      assert UniqueSeqs(front);
      UniqueInAnyOrder(front, rest);
      forall i | 0 <= i < |rest|
        ensures rest[i].event.tenant != last.event.tenant || rest[i].seq_ != last.seq_
      {
        assert rest[i] in multiset(front);
        var m :| 0 <= m < |front| && front[m] == rest[i];
        assert a[m] == rest[i];
      }
      PutBackUnique(b, k);
    }
  }

  lemma PutBackUnique(b: seq<Row>, k: nat)
    requires k < |b| && UniqueSeqs(Without(b, k))
    requires forall i :: 0 <= i < |b| - 1 ==> Without(b, k)[i].event.tenant != b[k].event.tenant || Without(b, k)[i].seq_ != b[k].seq_
    ensures UniqueSeqs(b)
  {
    var rest := Without(b, k);
    forall i, j | 0 <= i < j < |b|
      ensures b[i].event.tenant != b[j].event.tenant || b[i].seq_ != b[j].seq_
    {
      assert i < k ==> rest[i] == b[i];
      assert i > k ==> rest[i - 1] == b[i];
      assert j < k ==> rest[j] == b[j];
      assert j > k ==> rest[j - 1] == b[j];
    }
  }

  lemma IntactInAnyOrder(hash: string -> string, a: seq<Row>, b: seq<Row>)
    requires multiset(a) == multiset(b) && AllIntact(hash, a)
    ensures AllIntact(hash, b)
  {
    IntactMeansUnique(hash, a);
    UniqueInAnyOrder(a, b);
    forall tenant ensures Intact(hash, ChainOf(b, tenant)) {
      OrderDoesNotMatter(a, b, tenant);
      assert Intact(hash, ChainOf(a, tenant));
    }
  }

  /** Whether a table is accepted does not depend on where its rows lie; an accepted one has the same
      chains in every order. */
  lemma AcceptedInAnyOrder(hash: string -> string, a: seq<Row>, b: seq<Row>)
    requires multiset(a) == multiset(b)
    ensures Verify(hash, a).None? <==> Verify(hash, b).None?
    ensures Verify(hash, a).None? ==> forall tenant :: ChainOf(a, tenant) == ChainOf(b, tenant)
  {
    AcceptedExactlyWhenIntact(hash, a);
    AcceptedExactlyWhenIntact(hash, b);
    if AllIntact(hash, a) {
      IntactInAnyOrder(hash, a, b);
      IntactMeansUnique(hash, a);
      IntactMeansUnique(hash, b);
      forall tenant ensures ChainOf(a, tenant) == ChainOf(b, tenant) {
        OrderDoesNotMatter(a, b, tenant);
      }
    } else if AllIntact(hash, b) {
      IntactInAnyOrder(hash, b, a);
    }
  }
}

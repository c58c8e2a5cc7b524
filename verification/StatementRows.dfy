/** Interleaved matcher transactions and the rows they write: nobody writes over an uncommitted row, a
    payment gets one Matched row, and a match comes with that row
    (services/reconciliation-service/src/statements.mjs:142-165, db/migrations/0009_dedupe_constraints.sql:13-15). */
module StatementRows {
  import opened Basics
  import opened StatementMatcher
  import opened StatementTransactions

  /** Uncommitted Matched rows are of payments that have none, neither committed nor in another transaction,
      and no line is written by two transactions at once. */
  predicate RowsApart(s: Db) {
    && (forall tx :: tx in s.open_ ==> s.open_[tx].inserted !! s.matchedRows)
    && forall tx, other :: tx in s.open_ && other in s.open_ && tx != other ==>
         s.open_[tx].inserted !! s.open_[other].inserted && s.open_[tx].writes.Keys !! s.open_[other].writes.Keys
  }

  /** A transaction that will not insert the row of the payment it has matched has seen it. */
  predicate SawTheRow(s: Db, t: Tx) {
    t.decision.Some? && t.decision.value.payment.Some? ==>
      t.decision.value.rowMissing || t.decision.value.payment.value.id in s.matchedRows + t.inserted
  }

  predicate RowsOk(s: Db) {
    RowsApart(s) && forall tx :: tx in s.open_ ==> SawTheRow(s, s.open_[tx])
  }

  lemma WriteKeepsRows(s: Db, tx: TxId)
    requires RowsOk(s) && tx in s.open_ && s.open_[tx].ids != [] && s.open_[tx].decision.Some?
    ensures RowsOk(ApplyWrite(s, tx))
  {
    var t := s.open_[tx];
    var d, id, s' := t.decision.value, t.ids[0], ApplyWrite(s, tx);
    if !Blocked(s, tx, id, d) && !Refused(s, d) {
      forall other | other in s.open_ && other != tx
        ensures s'.open_[tx].inserted !! s.open_[other].inserted && s'.open_[tx].writes.Keys !! s.open_[other].writes.Keys
      {
        assert s.open_[tx].inserted !! s.open_[other].inserted;
      }
    }
  }

  lemma DecideKeepsRows(s: Db, tx: TxId)
    requires RowsOk(s)
    ensures RowsOk(Apply(s, Decide(tx)))
  {
  }

  lemma CommitKeepsRows(s: Db, tx: TxId)
    requires RowsOk(s)
    ensures RowsOk(Apply(s, Commit(tx)))
  {
    var s' := Apply(s, Commit(tx));
    forall other | other in s'.open_ ensures s'.open_[other].inserted !! s'.matchedRows && SawTheRow(s', s'.open_[other]) {
      if tx in s.open_ {
        assert s.open_[tx].inserted !! s.open_[other].inserted;
      }
    }
  }

  lemma OthersKeepRows(s: Db, step: Step)
    requires RowsOk(s) && (step.Begin? || step.Rollback? || step.Ingest? || step.SagaMatched?)
    ensures RowsOk(Apply(s, step))
  {
  }

  lemma StepKeepsRows(s: Db, step: Step)
    requires RowsOk(s)
    ensures RowsOk(Apply(s, step))
  {
    match step
    case Decide(tx) => DecideKeepsRows(s, tx);
    case Write(tx) => if Ready(s, tx) && s.open_[tx].decision.Some? { WriteKeepsRows(s, tx); }
    case Commit(tx) => CommitKeepsRows(s, tx);
    case _ => OthersKeepRows(s, step);
  }

  /** Over every interleaving, from any committed tables: no payment gets a second Matched row, since what
      a transaction is about to commit is in no other one and not there yet, and no transaction writes over
      a line another has written and not committed. */
  lemma {:induction false} OneMatchedRowAlways(s: Db, steps: seq<Step>)
    requires RowsOk(s)
    ensures RowsOk(RunAll(s, steps))
    decreases |steps|
  {
    if steps != [] {
      StepKeepsRows(s, steps[0]);
      OneMatchedRowAlways(Apply(s, steps[0]), steps[1..]);
    }
  }

  lemma NothingOpenIsOk(lines: seq<Line>, matchedRows: set<string>)
    ensures RowsOk(Db(lines, matchedRows, map[]))
  {
  }

  /** The write of a decision: it waits while another transaction has the line or is inserting the row, ends
      its transaction when the row has come in between, and otherwise matches the line with the row there. */
  lemma WriteDecides(s: Db, tx: TxId)
    requires RowsOk(s) && Ready(s, tx) && s.open_[tx].decision.Some?
    ensures
      var t, s' := s.open_[tx], Apply(s, Write(tx));
      var d, id := t.decision.value, t.ids[0];
      var inserts := d.payment.Some? && d.rowMissing;
      var waits := exists other :: (
        && other in s.open_ && other != tx
        && (id in s.open_[other].writes || (inserts && d.payment.value.id in s.open_[other].inserted)));
      && s'.lines == s.lines && s'.matchedRows == s.matchedRows
      && (waits ==> s' == s)
      && (!waits ==> (tx !in s'.open_ <==> inserts && d.payment.value.id in s.matchedRows))
      && (!waits && tx in s'.open_ ==>
            && s'.open_[tx].writes == t.writes[id := d.line] && s'.open_[tx].ids == t.ids[1..] && s'.open_[tx].decision.None?
            && (d.payment.Some? ==>
                  && d.payment.value.id in s'.matchedRows + s'.open_[tx].inserted
                  && s'.open_[tx].taken == t.taken + {d.payment.value.ref})
            && (d.payment.None? ==> s'.open_[tx].taken == t.taken && s'.open_[tx].inserted == t.inserted))
  {
    assert SawTheRow(s, s.open_[tx]);
  }

  /** What is committed, and what else writes the tables. */
  lemma OthersWrite(s: Db, tx: TxId, added: seq<Line>, paymentId: string)
    ensures
      var s' := Apply(s, Commit(tx));
      tx in s.open_ ==>
        && s'.matchedRows == s.matchedRows + s.open_[tx].inserted && tx !in s'.open_ && |s'.lines| == |s.lines|
        && forall i :: 0 <= i < |s.lines| ==> s'.lines[i] == if i in s.open_[tx].writes then s.open_[tx].writes[i] else s.lines[i]
    ensures Apply(s, Ingest(added)).lines
         == s.lines + (if forall i :: 0 <= i < |added| ==> added[i].status == LinePending then added else [])
    ensures paymentId in Apply(s, SagaMatched(paymentId)).matchedRows
        <==> paymentId in s.matchedRows || forall t :: t in s.open_ ==> paymentId !in s.open_[t].inserted
  {
  }

  /** A transaction begins with nothing done, is begun once, decides a line once before it writes it, and
      leaves no trace when it is rolled back. */
  lemma TransactionsInTurn(s: Db, tx: TxId, ids: seq<LineId>, payments: seq<Payment>)
    ensures tx in s.open_ ==> Apply(s, Begin(tx, ids, payments)) == s
    ensures tx !in s.open_ && (forall i :: 0 <= i < |ids| ==> ids[i] < |s.lines|) ==>
      Apply(s, Begin(tx, ids, payments)) == s.(open_ := s.open_[tx := Tx(ids, payments, {}, map[], {}, None)])
    ensures tx in s.open_ && s.open_[tx].decision.Some? ==> Apply(s, Decide(tx)) == s
    ensures Apply(s, Rollback(tx)) == s.(open_ := s.open_ - {tx})
    ensures tx !in s.open_ && Fits(s.lines, Tx(ids, payments, {}, map[], {}, None)) ==>
      Apply(Apply(s, Begin(tx, ids, payments)), Rollback(tx)) == s
  {
    assert tx !in s.open_ ==> s.open_[tx := Tx(ids, payments, {}, map[], {}, None)] - {tx} == s.open_;
  }
}

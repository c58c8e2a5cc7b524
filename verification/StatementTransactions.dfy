/** Two matcher transactions statement by statement: each statement sees what is committed and what its
    own transaction has written, an UPDATE waits for a row another one has written, and an INSERT of a
    Matched row waits for, or is refused by, another one for the same payment
    (services/reconciliation-service/src/statements.mjs:124-216, db/migrations/0009_dedupe_constraints.sql:13-15). */
module StatementTransactions {
  import opened Basics
  import opened StatementMatcher

  type TxId = nat

  /** What a transaction has found out about its current line: the line as it will write it, and for a
      match the payment, and whether it saw no Matched row of it. */
  datatype Decision = Decision(line: Line, payment: Option<Payment>, rowMissing: bool)

  datatype Tx = Tx(
    ids: seq<LineId>, payments: seq<Payment>, taken: set<string>,
    writes: map<LineId, Line>, inserted: set<string>, decision: Option<Decision>)

  /** The committed lines, the payments with a committed Matched row, and the open transactions. */
  datatype Db = Db(lines: seq<Line>, matchedRows: set<string>, open_: map<TxId, Tx>)

  datatype Step =
    | Begin(tx: TxId, ids: seq<LineId>, payments: seq<Payment>)
    | Decide(tx: TxId)
    | Write(tx: TxId)
    | Commit(tx: TxId)
    | Rollback(tx: TxId)
    // everything else that writes the tables
    | Ingest(added: seq<Line>)
    | SagaMatched(paymentId: string)

  /** What a transaction sees. */
  function View(lines: seq<Line>, writes: map<LineId, Line>): (r: seq<Line>)
    ensures |r| == |lines| && forall i :: 0 <= i < |r| ==> r[i] == if i in writes then writes[i] else lines[i]
  {
    seq(|lines|, i requires 0 <= i < |lines| => if i in writes then writes[i] else lines[i])
  }

  predicate Fits(lines: seq<Line>, tx: Tx) {
    && (forall i :: 0 <= i < |tx.ids| ==> tx.ids[i] < |lines|)
    && (forall id :: id in tx.writes ==> id < |lines|)
    && (tx.decision.Some? ==> tx.ids != [])
  }

  function Matching(line: Line, p: Payment, confidence: int, matchedRows: set<string>): Decision {
    Decision(line.(status := LineMatched, confidence := Some(confidence)), Some(p), p.id !in matchedRows)
  }

  function DecisionOn(view: seq<Line>, tx: Tx, matchedRows: set<string>): Decision
    requires tx.ids != [] && tx.ids[0] < |view|
  {
    var line := view[tx.ids[0]];
    match Judge(tx.payments, view, tx.taken, line)
    case Exact(p) => Matching(line, p, 100, matchedRows)
    case Heuristic(p) => Matching(line, p, 70, matchedRows)
    case _ => Decision(line.(status := LineException, confidence := None), None, false)
  }

  /** Another transaction has written the line, or inserted the Matched row this one is about to insert. */
  predicate Blocked(s: Db, tx: TxId, id: LineId, d: Decision) {
    exists other :: other in s.open_ && other != tx &&
      (id in s.open_[other].writes || (d.rowMissing && d.payment.Some? && d.payment.value.id in s.open_[other].inserted))
  }

  predicate Refused(s: Db, d: Decision) {
    d.rowMissing && d.payment.Some? && d.payment.value.id in s.matchedRows
  }

  /** The transaction once its decision is written. */
  function Wrote(tx: Tx, d: Decision): Tx
    requires tx.ids != []
  {
    Tx(tx.ids[1..], tx.payments, tx.taken + (if d.payment.Some? then {d.payment.value.ref} else {}),
       tx.writes[tx.ids[0] := d.line],
       tx.inserted + (if d.payment.Some? && d.rowMissing then {d.payment.value.id} else {}), None)
  }

  function ApplyWrite(s: Db, tx: TxId): Db
    requires tx in s.open_ && s.open_[tx].ids != [] && s.open_[tx].decision.Some?
  {
    var t := s.open_[tx];
    var d := t.decision.value;
    if Blocked(s, tx, t.ids[0], d) then s
    else if Refused(s, d) then s.(open_ := s.open_ - {tx})
    else s.(open_ := s.open_[tx := Wrote(t, d)])
  }

  predicate Ready(s: Db, tx: TxId) {
    tx in s.open_ && Fits(s.lines, s.open_[tx]) && s.open_[tx].ids != []
  }

  function Apply(s: Db, step: Step): Db {
    match step
    case Begin(tx, ids, payments) =>
      var t := Tx(ids, payments, {}, map[], {}, None);
      if tx !in s.open_ && Fits(s.lines, t) then s.(open_ := s.open_[tx := t]) else s
    case Decide(tx) =>
      if Ready(s, tx) && s.open_[tx].decision.None? then
        var t := s.open_[tx];
        s.(open_ := s.open_[tx := t.(decision := Some(DecisionOn(View(s.lines, t.writes), t, s.matchedRows + t.inserted)))])
      else s
    case Write(tx) => if Ready(s, tx) && s.open_[tx].decision.Some? then ApplyWrite(s, tx) else s
    case Commit(tx) =>
      if tx in s.open_
      then Db(View(s.lines, s.open_[tx].writes), s.matchedRows + s.open_[tx].inserted, s.open_ - {tx}) else s
    case Rollback(tx) => s.(open_ := s.open_ - {tx})
    case Ingest(added) => if AllPending(added) then s.(lines := s.lines + added) else s
    case SagaMatched(paymentId) =>
      if exists tx :: tx in s.open_ && paymentId in s.open_[tx].inserted then s else s.(matchedRows := s.matchedRows + {paymentId})
  }

  predicate AllPending(lines: seq<Line>) {
    forall i :: 0 <= i < |lines| ==> lines[i].status == LinePending
  }

  function RunAll(s: Db, steps: seq<Step>): Db
    decreases |steps|
  {
    if steps == [] then s else RunAll(Apply(s, steps[0]), steps[1..])
  }

  // ---------------------------------------------------------------- one transaction at a time

  predicate DecisionOk(view: seq<Line>, id: LineId, d: Decision)
    requires id < |view|
  {
    d.line.ref == view[id].ref && (d.line.status == LineMatched ==> !SomeMatched(view, d.line.ref))
  }

  predicate TxOk(lines: seq<Line>, tx: Tx) {
    && Fits(lines, tx) && OneMatchedLinePerRef(View(lines, tx.writes))
    && (tx.decision.Some? ==> DecisionOk(View(lines, tx.writes), tx.ids[0], tx.decision.value))
  }

  predicate Inv(s: Db) {
    OneMatchedLinePerRef(s.lines) && forall tx :: tx in s.open_ ==> TxOk(s.lines, s.open_[tx])
  }

  lemma OverwriteKeeps(lines: seq<Line>, id: LineId, line: Line)
    requires id < |lines| && OneMatchedLinePerRef(lines) && line.ref == lines[id].ref
    requires line.status == LineMatched ==> !SomeMatched(lines, line.ref)
    ensures OneMatchedLinePerRef(lines[id := line])
  {
    var after := lines[id := line];
    forall i, j | 0 <= i < j < |after| && after[i].status == LineMatched && after[j].status == LineMatched
      ensures after[i].ref != after[j].ref
    {
      if i == id {
        assert after[j] == lines[j];
      } else if j == id {
        assert after[i] == lines[i];
      }
    }
  }

  lemma WriteKeepsTx(lines: seq<Line>, tx: Tx)
    requires TxOk(lines, tx) && tx.decision.Some?
    ensures TxOk(lines, Wrote(tx, tx.decision.value))
  {
    var d, id := tx.decision.value, tx.ids[0];
    OverwriteKeeps(View(lines, tx.writes), id, d.line);
    assert View(lines, tx.writes[id := d.line]) == View(lines, tx.writes)[id := d.line];
  }

  lemma DecisionIsOk(lines: seq<Line>, tx: Tx, matchedRows: set<string>)
    requires Fits(lines, tx) && tx.ids != []
    ensures DecisionOk(View(lines, tx.writes), tx.ids[0], DecisionOn(View(lines, tx.writes), tx, matchedRows))
  {
  }

  lemma IngestKeepsTx(lines: seq<Line>, added: seq<Line>, tx: Tx)
    requires TxOk(lines, tx) && AllPending(added)
    ensures TxOk(lines + added, tx)
  {
    var view := View(lines, tx.writes);
    assert View(lines + added, tx.writes) == view + added;
    PendingAdded(view, added);
  }

  lemma PendingAdded(lines: seq<Line>, added: seq<Line>)
    requires OneMatchedLinePerRef(lines) && AllPending(added)
    ensures OneMatchedLinePerRef(lines + added)
    ensures forall ref :: SomeMatched(lines + added, ref) ==> SomeMatched(lines, ref)
  {
    forall ref | SomeMatched(lines + added, ref)
      ensures SomeMatched(lines, ref)
    {
      var i :| 0 <= i < |lines + added| && (lines + added)[i].status == LineMatched && (lines + added)[i].ref == ref;
      assert i < |lines| && lines[i] == (lines + added)[i];
    }
  }

  lemma OnlyOne(open_: map<TxId, Tx>, tx: TxId)
    requires tx in open_ && |open_| <= 1
    ensures open_ - {tx} == map[]
  {
    if other :| other in open_ - {tx} {
      SubsetIsSmaller({tx, other}, open_.Keys);
      assert false;
    }
  }

  lemma BeginKeepsInv(s: Db, tx: TxId, ids: seq<LineId>, payments: seq<Payment>)
    requires Inv(s)
    ensures Inv(Apply(s, Begin(tx, ids, payments)))
  {
    assert View(s.lines, map[]) == s.lines;
  }

  lemma IngestKeepsInv(s: Db, added: seq<Line>)
    requires Inv(s) && AllPending(added)
    ensures Inv(Apply(s, Ingest(added)))
  {
    PendingAdded(s.lines, added);
    forall tx | tx in s.open_ ensures TxOk(s.lines + added, s.open_[tx]) {
      IngestKeepsTx(s.lines, added, s.open_[tx]);
    }
  }

  lemma StepKeepsInv(s: Db, step: Step)
    requires Inv(s) && |s.open_| <= 1
    ensures Inv(Apply(s, step))
  {
    match step
    case Begin(tx, ids, payments) => BeginKeepsInv(s, tx, ids, payments);
    case Decide(tx) =>
      if Ready(s, tx) {
        DecisionIsOk(s.lines, s.open_[tx], s.matchedRows + s.open_[tx].inserted);
      }
    case Write(tx) =>
      if Ready(s, tx) && s.open_[tx].decision.Some? {
        WriteKeepsTx(s.lines, s.open_[tx]);
      }
    case Commit(tx) =>
      if tx in s.open_ {
        OnlyOne(s.open_, tx);
      }
    case Rollback(tx) =>
    case Ingest(added) =>
      if AllPending(added) {
        IngestKeepsInv(s, added);
      }
    case SagaMatched(paymentId) =>
  }

  /** At no time are more than n transactions open. */
  predicate OpenAtMost(s: Db, steps: seq<Step>, n: nat)
    decreases |steps|
  {
    |s.open_| <= n && (steps != [] ==> OpenAtMost(Apply(s, steps[0]), steps[1..], n))
  }

  lemma {:induction false} RunsKeepInv(s: Db, steps: seq<Step>)
    requires Inv(s) && OpenAtMost(s, steps, 1)
    ensures Inv(RunAll(s, steps))
    decreases |steps|
  {
    if steps != [] {
      StepKeepsInv(s, steps[0]);
      RunsKeepInv(Apply(s, steps[0]), steps[1..]);
    }
  }

  // ---------------------------------------------------------------- it is the run of the matcher

  /** The statements about each of some lines. */
  function Turns(tx: TxId, n: nat): seq<Step> {
    if n == 0 then [] else [Decide(tx)] + ([Write(tx)] + Turns(tx, n - 1))
  }

  lemma RunFront(s: Db, step: Step, rest: seq<Step>, n: nat)
    ensures RunAll(s, [step] + rest) == RunAll(Apply(s, step), rest)
    ensures |s.open_| <= n && OpenAtMost(Apply(s, step), rest, n) ==> OpenAtMost(s, [step] + rest, n)
  {
    assert ([step] + rest)[1..] == rest;
  }

  /** A transaction alone at a point of its run, and a matcher run at the same point. */
  predicate SamePoint(s: Db, tx: TxId, m: StatementMatcher.State, payments: seq<Payment>, ids: seq<LineId>) {
    && s.open_.Keys == {tx} && Fits(s.lines, s.open_[tx]) && s.open_[tx].decision == None
    && s.open_[tx].ids == ids && s.open_[tx].payments == payments && InTable(m, ids)
    && View(s.lines, s.open_[tx].writes) == m.lines && s.open_[tx].taken == m.taken
  }

  function Turn(s: Db, tx: TxId): Db {
    Apply(Apply(s, Decide(tx)), Write(tx))
  }

  lemma OneTurn(s: Db, tx: TxId, m: StatementMatcher.State, payments: seq<Payment>, ids: seq<LineId>)
    requires SamePoint(s, tx, m, payments, ids) && ids != []
    ensures SamePoint(Turn(s, tx), tx, MatchLine(payments, m, ids[0]), payments, ids[1..])
  {
    var t, s1 := s.open_[tx], Apply(s, Decide(tx));
    var d := DecisionOn(m.lines, t, s.matchedRows + t.inserted);
    assert s1.open_[tx] == t.(decision := Some(d)) && !Blocked(s1, tx, t.ids[0], d) && !Refused(s1, d);
    assert View(s.lines, t.writes[t.ids[0] := d.line]) == m.lines[t.ids[0] := d.line];
    TurnIsMatchLine(t, m, s.matchedRows + t.inserted);
  }

  lemma TurnIsMatchLine(t: Tx, m: StatementMatcher.State, matchedRows: set<string>)
    requires t.ids != [] && t.ids[0] < |m.lines| && t.taken == m.taken
    ensures
      var d, m' := DecisionOn(m.lines, t, matchedRows), MatchLine(t.payments, m, t.ids[0]);
      m'.lines == m.lines[t.ids[0] := d.line] && m'.taken == t.taken + (if d.payment.Some? then {d.payment.value.ref} else {})
  {
  }

  function Alone(tx: TxId, n: nat): seq<Step> {
    Turns(tx, n) + [Commit(tx)]
  }

  lemma TurnFront(s: Db, tx: TxId, n: nat)
    requires n > 0
    ensures RunAll(s, Alone(tx, n)) == RunAll(Turn(s, tx), Alone(tx, n - 1))
  {
    var rest := Alone(tx, n - 1);
    assert Alone(tx, n) == [Decide(tx)] + ([Write(tx)] + rest);
    RunFront(s, Decide(tx), [Write(tx)] + rest, 0);
    RunFront(Apply(s, Decide(tx)), Write(tx), rest, 0);
  }

  predicate EndsLike(s: Db, lines: seq<Line>) {
    s.lines == lines && s.open_ == map[]
  }

  lemma TurnThenRest(s: Db, tx: TxId, payments: seq<Payment>, m: StatementMatcher.State, ids: seq<LineId>)
    requires ids != [] && InTable(m, ids)
    requires EndsLike(RunAll(Turn(s, tx), Alone(tx, |ids| - 1)), MatchLines(payments, MatchLine(payments, m, ids[0]), ids[1..]).lines)
    ensures EndsLike(RunAll(s, Alone(tx, |ids|)), MatchLines(payments, m, ids).lines)
  {
    TurnFront(s, tx, |ids|);
  }

  lemma JustCommits(s: Db, tx: TxId, payments: seq<Payment>, m: StatementMatcher.State)
    requires SamePoint(s, tx, m, payments, [])
    ensures EndsLike(RunAll(s, Alone(tx, 0)), MatchLines(payments, m, []).lines)
  {
    assert Alone(tx, 0) == [Commit(tx)] + [];
    RunFront(s, Commit(tx), [], 0);
    assert s.open_ - {tx} == map[];
  }

  /** A transaction that nobody interrupts does to the lines what the matcher's loop does. */
  lemma {:induction false} AloneMatchesLines(s: Db, tx: TxId, m: StatementMatcher.State, payments: seq<Payment>, ids: seq<LineId>)
    requires SamePoint(s, tx, m, payments, ids)
    ensures EndsLike(RunAll(s, Alone(tx, |ids|)), MatchLines(payments, m, ids).lines)
    decreases |ids|
  {
    if ids == [] {
      JustCommits(s, tx, payments, m);
    } else {
      OneTurn(s, tx, m, payments, ids);
      AloneMatchesLines(Turn(s, tx), tx, MatchLine(payments, m, ids[0]), payments, ids[1..]);
      TurnThenRest(s, tx, payments, m, ids);
    }
  }

  /** So one from begin to commit is the loop of `matchStatement` on the lines it found. */
  lemma UninterruptedIsTheLoop(s: Db, tx: TxId, payments: seq<Payment>, ids: seq<LineId>, rows: seq<ReconRow>)
    requires s.open_ == map[] && InTable(StatementMatcher.Begin(s.lines, rows), ids)
    ensures
      EndsLike(RunAll(s, [Begin(tx, ids, payments)] + Alone(tx, |ids|)),
               MatchLines(payments, StatementMatcher.Begin(s.lines, rows), ids).lines)
  {
    var s' := Apply(s, Begin(tx, ids, payments));
    assert s'.open_ == map[tx := Tx(ids, payments, {}, map[], {}, None)];
    assert View(s.lines, map[]) == s.lines;
    RunFront(s, Begin(tx, ids, payments), Alone(tx, |ids|), 0);
    AloneMatchesLines(s', tx, StatementMatcher.Begin(s.lines, rows), payments, ids);
  }

  // ---------------------------------------------------------------- two at a time

  function LineOf(statement: string, status: LineStatus): Line {
    Line(statement, "ref", 100, "USDC", None, status, if status == LineMatched then Some(100) else None)
  }

  const Settlement := Payment("p", true, "USDC", 100, 0, "ref", None)

  /** Two statements list one transfer, and the saga has inserted its payment's Matched row. */
  const TwoLines := Db([LineOf("s", LinePending), LineOf("t", LinePending)], {"p"}, map[])

  function Open(id: LineId): Tx {
    Tx([id], [Settlement], {}, map[], {}, None)
  }

  const BothOpen := TwoLines.(open_ := map[0 := Open(0), 1 := Open(1)])

  function Decided(id: LineId, statement: string): Tx {
    Open(id).(decision := Some(Decision(LineOf(statement, LineMatched), Some(Settlement), false)))
  }

  const BothDecided := TwoLines.(open_ := map[0 := Decided(0, "s"), 1 := Decided(1, "t")])

  function Done(id: LineId, statement: string): Tx {
    Tx([], [Settlement], {"ref"}, map[id := LineOf(statement, LineMatched)], {}, None)
  }

  const BothWrote := TwoLines.(open_ := map[0 := Done(0, "s"), 1 := Done(1, "t")])

  /** One statement of each transaction, with no more than two open on the way. */
  predicate BothStep(s: Db, a: Step, b: Step, s': Db) {
    Apply(Apply(s, a), b) == s' && |s.open_| <= 2 && |Apply(s, a).open_| <= 2 && |s'.open_| <= 2
  }

  lemma BothBegin()
    ensures BothStep(TwoLines, Begin(0, [0], [Settlement]), Begin(1, [1], [Settlement]), BothOpen)
  {
  }

  lemma NeitherSeesAMatch(id: LineId)
    requires id < 2
    ensures View(TwoLines.lines, map[]) == TwoLines.lines
    ensures DecisionOn(TwoLines.lines, Open(id), {"p"}) == Decided(id, if id == 0 then "s" else "t").decision.value
  {
    assert !SomeMatched(TwoLines.lines, "ref");
    assert ByRef([Settlement], "ref") == Some(Settlement);
  }

  lemma BothDecide()
    ensures BothStep(BothOpen, Decide(0), Decide(1), BothDecided)
  {
    DecideRuns(BothOpen, 0, "s");
    var s1 := BothOpen.(open_ := map[0 := Decided(0, "s"), 1 := Open(1)]);
    assert BothOpen.open_[0 := Decided(0, "s")] == s1.open_;
    DecideRuns(s1, 1, "t");
    assert s1.open_[1 := Decided(1, "t")] == BothDecided.open_;
  }

  lemma DecideRuns(s: Db, id: LineId, statement: string)
    requires s.lines == TwoLines.lines && s.matchedRows == {"p"} && id < 2 && statement == (if id == 0 then "s" else "t")
    requires id in s.open_ && s.open_[id] == Open(id)
    ensures Apply(s, Decide(id)) == s.(open_ := s.open_[id := Decided(id, statement)])
  {
    NeitherSeesAMatch(id);
    assert s.matchedRows + {} == {"p"};
  }

  lemma WroteIsDone(id: LineId, statement: string)
    ensures Wrote(Decided(id, statement), Decided(id, statement).decision.value) == Done(id, statement)
  {
    assert [id][1..] == [];
    assert map[][id := LineOf(statement, LineMatched)] == map[id := LineOf(statement, LineMatched)];
  }

  lemma BothWrite()
    ensures BothStep(BothDecided, Write(0), Write(1), BothWrote)
  {
    WriteRuns(BothDecided, 0, "s");
    var s1 := BothDecided.(open_ := map[0 := Done(0, "s"), 1 := Decided(1, "t")]);
    assert BothDecided.open_[0 := Done(0, "s")] == s1.open_;
    WriteRuns(s1, 1, "t");
    assert s1.open_[1 := Done(1, "t")] == BothWrote.open_;
  }

  /** Nobody else has written the line, and the Matched row is there already. */
  lemma WriteRuns(s: Db, id: LineId, statement: string)
    requires |s.lines| == 2 && id < 2 && id in s.open_ && s.open_[id] == Decided(id, statement)
    requires forall other :: other in s.open_ && other != id ==> id !in s.open_[other].writes
    ensures Apply(s, Write(id)) == s.(open_ := s.open_[id := Done(id, statement)])
  {
    WroteIsDone(id, statement);
    assert !Blocked(s, id, id, Decided(id, statement).decision.value);
  }

  const BothMatched := Db([LineOf("s", LineMatched), LineOf("t", LineMatched)], {"p"}, map[])

  lemma BothCommit()
    ensures BothStep(BothWrote, Commit(0), Commit(1), BothMatched)
  {
    var s1 := Apply(BothWrote, Commit(0));
    assert s1.lines == [LineOf("s", LineMatched), LineOf("t", LinePending)];
    assert s1.open_ == map[1 := Done(1, "t")];
    var s2 := Apply(s1, Commit(1));
    assert s2.lines == BothMatched.lines && s2.open_ == map[];
  }

  /** Two statements, and then the rest. */
  lemma TwoFront(s: Db, a: Step, b: Step, s': Db, rest: seq<Step>)
    requires BothStep(s, a, b, s')
    ensures RunAll(s, [a] + ([b] + rest)) == RunAll(s', rest)
    ensures OpenAtMost(s', rest, 2) ==> OpenAtMost(s, [a] + ([b] + rest), 2)
  {
    RunFront(s, a, [b] + rest, 2);
    RunFront(Apply(s, a), b, rest, 2);
  }

  function InTurn(a: (Step, Step), b: (Step, Step), c: (Step, Step), d: (Step, Step)): seq<Step> {
    [a.0] + ([a.1] + ([b.0] + ([b.1] + ([c.0] + ([c.1] + ([d.0] + ([d.1] + [])))))))
  }

  lemma FourTimesBoth(s0: Db, a: (Step, Step), s1: Db, b: (Step, Step), s2: Db, c: (Step, Step), s3: Db, d: (Step, Step), s4: Db)
    requires BothStep(s0, a.0, a.1, s1) && BothStep(s1, b.0, b.1, s2) && BothStep(s2, c.0, c.1, s3) && BothStep(s3, d.0, d.1, s4)
    ensures RunAll(s0, InTurn(a, b, c, d)) == s4 && OpenAtMost(s0, InTurn(a, b, c, d), 2)
  {
    var last := [d.0] + ([d.1] + []);
    var later := [c.0] + ([c.1] + last);
    TwoFront(s3, d.0, d.1, s4, []);
    TwoFront(s2, c.0, c.1, s3, last);
    TwoFront(s1, b.0, b.1, s2, later);
    TwoFront(s0, a.0, a.1, s1, [b.0] + ([b.1] + later));
  }

  const TwoAtOnce: seq<Step> :=
    InTurn((Begin(0, [0], [Settlement]), Begin(1, [1], [Settlement])), (Decide(0), Decide(1)), (Write(0), Write(1)), (Commit(0), Commit(1)))

  /** Neither transaction sees the other's match, so both lines end matched to one reference. */
  lemma TwoAtOnceMatchTwice()
    ensures OpenAtMost(TwoLines, TwoAtOnce, 2)
    ensures !OneMatchedLinePerRef(RunAll(TwoLines, TwoAtOnce).lines)
  {
    BothBegin();
    BothDecide();
    BothWrite();
    BothCommit();
    FourTimesBoth(TwoLines, (Begin(0, [0], [Settlement]), Begin(1, [1], [Settlement])), BothOpen, (Decide(0), Decide(1)), BothDecided,
                  (Write(0), Write(1)), BothWrote, (Commit(0), Commit(1)), BothMatched);
    assert BothMatched.lines[0].ref == BothMatched.lines[1].ref;
  }

  lemma {:induction false} MoreMayBeOpen(s: Db, steps: seq<Step>, m: nat, n: nat)
    requires OpenAtMost(s, steps, m) && m <= n
    ensures OpenAtMost(s, steps, n)
    decreases |steps|
  {
    if steps != [] {
      MoreMayBeOpen(Apply(s, steps[0]), steps[1..], m, n);
    }
  }

  predicate Start(s: Db) {
    OneMatchedLinePerRef(s.lines) && s.open_ == map[]
  }

  /** A reference has at most one matched line over every run of interleaved statements, with
      ingestions and the saga's rows in between, if and only if matcher transactions do not overlap. */
  lemma OneLinePerReferenceExactlyWhen(n: nat)
    ensures (forall s, steps | Start(s) && OpenAtMost(s, steps, n) :: OneMatchedLinePerRef(RunAll(s, steps).lines)) <==> n <= 1
  {
    if n <= 1 {
      forall s, steps | Start(s) && OpenAtMost(s, steps, n)
        ensures OneMatchedLinePerRef(RunAll(s, steps).lines)
      {
        MoreMayBeOpen(s, steps, n, 1);
        RunsKeepInv(s, steps);
      }
    } else {
      TwoAtOnceMatchTwice();
      MoreMayBeOpen(TwoLines, TwoAtOnce, 2, n);
      assert Start(TwoLines);
    }
  }
}

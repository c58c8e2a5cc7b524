/** Any number of matcher runs over the same tables, with everything else that writes them in between.
    A run reads its lines before it opens its transaction
    (services/reconciliation-service/src/statements.mjs:114-120 and 167-233). */
module StatementRuns {
  import opened Basics
  import opened StatementMatcher

  type RunId = nat

  /** What a run has read: its statement and the lines to work through. */
  datatype Reading = Reading(statement: Statement, ids: seq<LineId>)

  datatype Tables = Tables(lines: seq<Line>, rows: seq<ReconRow>, readings: map<RunId, Reading>)

  datatype Step =
    | Read(run: RunId, statement: Statement, ids: seq<LineId>)
    | Transact(run: RunId, payments: seq<Payment>)
    | Abort(run: RunId)
    // everything else that writes the tables
    | Ingest(added: seq<Line>)
    | SagaMatched(paymentId: string, amount: int, asset: string)
    | OpenOther(paymentId: string, issue: string, amount: int, asset: string)
    | Resolve(row: nat)

  predicate AllPending(lines: seq<Line>) {
    forall i :: 0 <= i < |lines| ==> lines[i].status == LinePending
  }

  predicate ReadingOk(t: Tables, r: Reading) {
    InTable(Begin(t.lines, t.rows), r.ids)
  }

  predicate TablesHold(t: Tables) {
    TablesOk(t.lines, t.rows) && forall run :: run in t.readings ==> ReadingOk(t, t.readings[run])
  }

  function ApplyTransact(t: Tables, r: Reading, payments: seq<Payment>): (t': Tables)
    requires ReadingOk(t, r)
    ensures |t'.lines| == |t.lines|
  {
    var s := MatchStatement(r.statement, payments, t.lines, t.rows, r.ids);
    t.(lines := s.lines, rows := s.rows)
  }

  function Apply(t: Tables, step: Step): Tables {
    match step
    case Read(run, st, ids) =>
      if run !in t.readings && IsWorklist(t.lines, st.id, ids) then t.(readings := t.readings[run := Reading(st, ids)]) else t
    case Transact(run, payments) =>
      if run in t.readings && ReadingOk(t, t.readings[run])
      then ApplyTransact(t, t.readings[run], payments).(readings := t.readings - {run}) else t
    case Abort(run) => t.(readings := t.readings - {run})
    case Ingest(added) => if AllPending(added) then t.(lines := t.lines + added) else t
    case SagaMatched(paymentId, amount, asset) =>
      if HasMatchedRow(t.rows, paymentId) then t
      else t.(rows := t.rows + [ReconRow(paymentId, Matched, amount, asset, Resolved)])
    case OpenOther(paymentId, issue, amount, asset) =>
      t.(rows := t.rows + [ReconRow(paymentId, OtherIssue(issue), amount, asset, Open)])
    case Resolve(row) => if row < |t.rows| then t.(rows := t.rows[row := t.rows[row].(status := Resolved)]) else t
  }

  function RunAll(t: Tables, steps: seq<Step>): Tables
    decreases |steps|
  {
    if steps == [] then t else RunAll(Apply(t, steps[0]), steps[1..])
  }

  // ---------------------------------------------------------------- what every run keeps

  /** Lines are only added, and only their status and confidence are written. */
  predicate LinesKept(a: seq<Line>, b: seq<Line>) {
    |a| <= |b| && forall i :: 0 <= i < |a| ==> SameLine(b[i], a[i])
  }

  /** Rows are only added, and the only change to one is from Open to Resolved. */
  predicate RowsKept(a: seq<ReconRow>, b: seq<ReconRow>) {
    |a| <= |b| && forall i :: 0 <= i < |a| ==> b[i] == a[i] || b[i] == a[i].(status := Resolved)
  }

  lemma TransactKeeps(t: Tables, r: Reading, payments: seq<Payment>)
    requires TablesHold(t) && ReadingOk(t, r)
    ensures
      var t' := ApplyTransact(t, r, payments);
      TablesHold(t') && LinesKept(t.lines, t'.lines) && RowsKept(t.rows, t'.rows)
  {
    var s := Begin(t.lines, t.rows);
    MatchLinesKeep(payments, s, r.ids);
    ReportMissingKeeps(r.statement, MatchLines(payments, s, r.ids), payments);
    forall run | run in t.readings ensures ReadingOk(ApplyTransact(t, r, payments), t.readings[run]) {
      assert ReadingOk(t, t.readings[run]);
    }
  }

  lemma OthersKeep(t: Tables, step: Step)
    requires TablesHold(t) && !step.Transact?
    ensures var t' := Apply(t, step); TablesHold(t') && LinesKept(t.lines, t'.lines) && RowsKept(t.rows, t'.rows)
  {
    var t' := Apply(t, step);
    forall run | run in t'.readings ensures ReadingOk(t', t'.readings[run]) {
      assert run in t.readings ==> ReadingOk(t, t.readings[run]);
    }
  }

  /** What a run's transaction leaves, that a run reads once, and that one given up leaves nothing. */
  lemma RunsDo(t: Tables, run: RunId, st: Statement, ids: seq<LineId>, payments: seq<Payment>)
    ensures
      var t' := Apply(t, Read(run, st, ids));
      t' == if run !in t.readings && IsWorklist(t.lines, st.id, ids) then t.(readings := t.readings[run := Reading(st, ids)]) else t
    ensures
      var t' := Apply(t, Transact(run, payments));
      run in t.readings && ReadingOk(t, t.readings[run]) ==>
        var s := MatchStatement(t.readings[run].statement, payments, t.lines, t.rows, t.readings[run].ids);
        t'.lines == s.lines && t'.rows == s.rows && t'.readings == t.readings - {run}
    ensures Apply(t, Abort(run)) == t.(readings := t.readings - {run})
  {
  }

  /** What the others write: pending lines; the saga's row of a payment that has no Matched row; rows with
      texts of their own; the resolution of a row. */
  lemma OthersWrite(t: Tables, added: seq<Line>, paymentId: string, text: string, amount: int, asset: string, row: nat)
    ensures Apply(t, Ingest(added)).lines
         == t.lines + (if forall line :: line in added ==> line.status == LinePending then added else [])
    ensures Apply(t, SagaMatched(paymentId, amount, asset)).rows
         == t.rows + (if exists r :: r in t.rows && r.paymentId == paymentId && r.issue == Matched then []
                      else [ReconRow(paymentId, Matched, amount, asset, Resolved)])
    ensures Apply(t, OpenOther(paymentId, text, amount, asset)).rows
         == t.rows + [ReconRow(paymentId, OtherIssue(text), amount, asset, Open)]
    ensures row < |t.rows| ==> Apply(t, Resolve(row)).rows == t.rows[row := t.rows[row].(status := Resolved)]
  {
    if r :| r in t.rows && r.paymentId == paymentId && r.issue == Matched {
      var i :| 0 <= i < |t.rows| && t.rows[i] == r;
      assert HasMatchedRow(t.rows, paymentId);
    }
  }

  lemma StepKeeps(t: Tables, step: Step)
    requires TablesHold(t)
    ensures var t' := Apply(t, step); TablesHold(t') && LinesKept(t.lines, t'.lines) && RowsKept(t.rows, t'.rows)
  {
    if step.Transact? {
      if step.run in t.readings {
        TransactKeeps(t, t.readings[step.run], step.payments);
      }
    } else {
      OthersKeep(t, step);
    }
  }

  lemma {:induction false} RunsGuarantee(t: Tables, steps: seq<Step>)
    requires TablesHold(t)
    ensures var t' := RunAll(t, steps); TablesHold(t') && LinesKept(t.lines, t'.lines) && RowsKept(t.rows, t'.rows)
    decreases |steps|
  {
    if steps != [] {
      StepKeeps(t, steps[0]);
      RunsGuarantee(Apply(t, steps[0]), steps[1..]);
      var t1 := Apply(t, steps[0]);
      var t' := RunAll(t1, steps[1..]);
      forall i | 0 <= i < |t.lines| ensures SameLine(t'.lines[i], t.lines[i]) {
        assert SameLine(t1.lines[i], t.lines[i]) && SameLine(t'.lines[i], t1.lines[i]);
      }
    }
  }

  // ---------------------------------------------------------------- matched lines

  /** A run whose reading is out of date takes a line matched in the meantime for a duplicate of itself. */
  lemma {:induction false} StaleLineIsUnmatched(payments: seq<Payment>, s: State, ids: seq<LineId>, id: LineId)
    requires InTable(s, ids) && TablesOk(s.lines, s.rows) && NoRepeats(ids) && id in ids && s.lines[id].status == LineMatched
    ensures MatchLines(payments, s, ids).lines[id].status == LineException
    decreases |ids|
  {
    var s1 := MatchLine(payments, s, ids[0]);
    MatchLineKeeps(payments, s, ids[0]);
    MatchLinesKeep(payments, s1, ids[1..]);
    if id == ids[0] {
      assert SomeMatched(s.lines, s.lines[id].ref);
      assert id !in ids[1..];
    } else {
      StaleLineIsUnmatched(payments, s1, ids[1..], id);
    }
  }

  /** A statement changes a matched line exactly when it is the transaction of a run that has read the
      line as not yet matched. */
  lemma MatchedLineChangesExactlyWhen(t: Tables, step: Step, id: LineId)
    requires TablesHold(t) && id < |t.lines| && t.lines[id].status == LineMatched
    requires forall run :: run in t.readings ==> NoRepeats(t.readings[run].ids)
    ensures id < |Apply(t, step).lines|
    ensures Apply(t, step).lines[id] != t.lines[id] <==> step.Transact? && step.run in t.readings && id in t.readings[step.run].ids
  {
    if step.Transact? && step.run in t.readings {
      var r, s := t.readings[step.run], Begin(t.lines, t.rows);
      MatchLinesKeep(step.payments, s, r.ids);
      if id in r.ids {
        StaleLineIsUnmatched(step.payments, s, r.ids, id);
      }
    }
  }

  /** Every open run has read lines that are still not matched. */
  predicate ReadingsFresh(t: Tables) {
    forall run :: run in t.readings ==> UnmatchedOnce(t.lines, t.readings[run].ids)
  }

  lemma NoneLeft(readings: map<RunId, Reading>, run: RunId)
    requires run in readings && |readings| <= 1
    ensures readings - {run} == map[]
  {
    if other :| other in readings - {run} {
      assert {run, other} <= readings.Keys;
      assert |{run, other}| == 2;
      SubsetIsSmaller({run, other}, readings.Keys);
      assert false;
    }
  }

  lemma StepKeepsMatched(t: Tables, step: Step)
    requires TablesHold(t) && ReadingsFresh(t) && |t.readings| <= 1
    ensures
      var t' := Apply(t, step);
      && ReadingsFresh(t') && |t'.lines| >= |t.lines|
      && forall id :: 0 <= id < |t.lines| && t.lines[id].status == LineMatched ==> t'.lines[id] == t.lines[id]
  {
    forall id | 0 <= id < |t.lines| && t.lines[id].status == LineMatched
      ensures id < |Apply(t, step).lines| && Apply(t, step).lines[id] == t.lines[id]
    {
      MatchedLineChangesExactlyWhen(t, step, id);
    }
    if step.Transact? && step.run in t.readings {
      NoneLeft(t.readings, step.run);
    }
    StepKeeps(t, step);
  }

  /** At no time more than n runs have read their lines and not yet ended. */
  predicate OpenAtMost(t: Tables, steps: seq<Step>, n: nat)
    decreases |steps|
  {
    |t.readings| <= n && (steps != [] ==> OpenAtMost(Apply(t, steps[0]), steps[1..], n))
  }

  lemma {:induction false} MatchedLinesStay(t: Tables, steps: seq<Step>)
    requires TablesHold(t) && ReadingsFresh(t) && OpenAtMost(t, steps, 1)
    ensures
      var t' := RunAll(t, steps);
      && TablesHold(t') && ReadingsFresh(t') && |t'.lines| >= |t.lines|
      && forall id :: 0 <= id < |t.lines| && t.lines[id].status == LineMatched ==> t'.lines[id] == t.lines[id]
    decreases |steps|
  {
    if steps != [] {
      StepKeepsMatched(t, steps[0]);
      StepKeeps(t, steps[0]);
      MatchedLinesStay(Apply(t, steps[0]), steps[1..]);
    }
  }

  lemma {:induction false} RunConcat(t: Tables, first: seq<Step>, then_: seq<Step>, n: nat)
    ensures RunAll(t, first + then_) == RunAll(RunAll(t, first), then_)
    ensures OpenAtMost(t, first + then_, n) ==> OpenAtMost(t, first, n) && OpenAtMost(RunAll(t, first), then_, n)
    decreases |first|
  {
    if first == [] {
      assert first + then_ == then_;
    } else {
      assert (first + then_)[0] == first[0] && (first + then_)[1..] == first[1..] + then_;
      RunConcat(Apply(t, first[0]), first[1..], then_, n);
    }
  }

  /** A line matched after the first statements is as it was after the others. */
  predicate StaysMatched(t: Tables, first: seq<Step>, then_: seq<Step>, id: LineId) {
    var before, after := RunAll(t, first).lines, RunAll(t, first + then_).lines;
    id < |before| && before[id].status == LineMatched ==> id < |after| && after[id] == before[id]
  }

  predicate Start(t: Tables) {
    TablesOk(t.lines, t.rows) && t.readings == map[]
  }

  // ---------------------------------------------------------------- two runs of one statement

  const OnePending := Tables([Line("s", "ref", 100, "USDC", None, LinePending, None)], [], map[])

  const OneStatement := Statement("s", None, None)

  const Settlement := Payment("p", true, "USDC", 100, 0, "ref", None)

  const FirstRun: seq<Step> := [Read(0, OneStatement, [0]), Read(1, OneStatement, [0]), Transact(0, [Settlement])]

  const BothOpen := OnePending.(readings := map[0 := Reading(OneStatement, [0]), 1 := Reading(OneStatement, [0])])

  lemma BothRead()
    ensures
      var t := Apply(Apply(OnePending, Read(0, OneStatement, [0])), Read(1, OneStatement, [0]));
      t == BothOpen
  {
    assert forall k :: 0 <= k < |OnePending.lines| ==> k in [0];
    assert IsWorklist(OnePending.lines, OneStatement.id, [0]);
  }

  lemma OneLineRuns(s: State)
    requires |s.lines| == 1
    ensures MatchStatement(OneStatement, [Settlement], s.lines, s.rows, [0]).lines == MatchLine([Settlement], Begin(s.lines, s.rows), 0).lines
  {
    var b := Begin(s.lines, s.rows);
    assert [0][1..] == [];
    assert MatchLines([Settlement], b, [0]) == MatchLines([Settlement], MatchLine([Settlement], b, 0), []);
  }

  /** The first run matches the line, and the second, which read it before, makes it an exception. */
  lemma BothTransact()
    ensures
      var t3 := Apply(BothOpen, Transact(0, [Settlement]));
      var t4 := Apply(t3, Transact(1, [Settlement]));
      && |t3.lines| == 1 && t3.lines[0].status == LineMatched && t3.readings == map[1 := Reading(OneStatement, [0])]
      && |t4.lines| == 1 && t4.lines[0].status == LineException && t4.readings == map[]
  {
    var t3 := Apply(BothOpen, Transact(0, [Settlement]));
    OneLineRuns(Begin(BothOpen.lines, BothOpen.rows));
    assert t3.lines[0].status == LineMatched by {
      assert ByRef([Settlement], "ref") == Some(Settlement);
    }
    assert t3.readings == map[1 := Reading(OneStatement, [0])];
    OneLineRuns(Begin(t3.lines, t3.rows));
    assert SomeMatched(t3.lines, "ref");
  }

  lemma RunFront(t: Tables, step: Step, rest: seq<Step>, n: nat)
    ensures RunAll(t, [step] + rest) == RunAll(Apply(t, step), rest)
    ensures |t.readings| <= n && OpenAtMost(Apply(t, step), rest, n) ==> OpenAtMost(t, [step] + rest, n)
  {
    assert ([step] + rest)[1..] == rest;
  }

  lemma FirstRunRuns()
    ensures RunAll(OnePending, FirstRun) == Apply(BothOpen, FirstRun[2])
  {
    BothRead();
    assert FirstRun == [FirstRun[0]] + ([FirstRun[1]] + ([FirstRun[2]] + []));
    RunFront(OnePending, FirstRun[0], [FirstRun[1]] + ([FirstRun[2]] + []), 0);
    RunFront(Apply(OnePending, FirstRun[0]), FirstRun[1], [FirstRun[2]] + [], 0);
    RunFront(BothOpen, FirstRun[2], [], 0);
  }

  lemma TwoAreOpen()
    ensures OpenAtMost(OnePending, FirstRun + [Transact(1, [Settlement])], 2)
  {
    var last := Transact(1, [Settlement]);
    BothRead();
    BothTransact();
    assert FirstRun + [last] == [FirstRun[0]] + ([FirstRun[1]] + ([FirstRun[2]] + ([last] + [])));
    RunFront(Apply(BothOpen, FirstRun[2]), last, [], 2);
    RunFront(BothOpen, FirstRun[2], [last] + [], 2);
    RunFront(Apply(OnePending, FirstRun[0]), FirstRun[1], [FirstRun[2]] + ([last] + []), 2);
    RunFront(OnePending, FirstRun[0], [FirstRun[1]] + ([FirstRun[2]] + ([last] + [])), 2);
  }

  lemma SecondRunUnmatches()
    ensures OpenAtMost(OnePending, FirstRun + [Transact(1, [Settlement])], 2)
    ensures !StaysMatched(OnePending, FirstRun, [Transact(1, [Settlement])], 0)
  {
    var last := Transact(1, [Settlement]);
    TwoAreOpen();
    FirstRunRuns();
    BothTransact();
    RunConcat(OnePending, FirstRun, [last], 2);
    RunFront(Apply(BothOpen, FirstRun[2]), last, [], 2);
    assert [last] + [] == [last];
  }

  lemma {:induction false} MoreMayBeOpen(t: Tables, steps: seq<Step>, m: nat, n: nat)
    requires OpenAtMost(t, steps, m) && m <= n
    ensures OpenAtMost(t, steps, n)
    decreases |steps|
  {
    if steps != [] {
      MoreMayBeOpen(Apply(t, steps[0]), steps[1..], m, n);
    }
  }

  /** A matched line stays as it is over every run, with ingestions, other rows and resolutions in
      between, if and only if runs of the matcher do not overlap. */
  lemma MatchedIsFinalExactlyWhen(n: nat)
    ensures (forall t, first, then_, id | Start(t) && OpenAtMost(t, first + then_, n) :: StaysMatched(t, first, then_, id)) <==> n <= 1
  {
    if n <= 1 {
      forall t, first, then_, id | Start(t) && OpenAtMost(t, first + then_, n)
        ensures StaysMatched(t, first, then_, id)
      {
        MoreMayBeOpen(t, first + then_, n, 1);
        RunConcat(t, first, then_, 1);
        MatchedLinesStay(t, first);
        MatchedLinesStay(RunAll(t, first), then_);
      }
    } else {
      SecondRunUnmatches();
      MoreMayBeOpen(OnePending, FirstRun + [Transact(1, [Settlement])], 2, n);
      assert Start(OnePending);
    }
  }
}

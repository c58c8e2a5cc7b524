/** Matching the lines of a provider statement against payments
    (services/reconciliation-service/src/statements.mjs:101-236), for one tenant, in cents. */
module StatementMatcher {
  import opened Basics
  import Money

  // ---------------------------------------------------------------- rows

  datatype LineStatus = LinePending | LineMatched | LineException

  /** A row of statement_lines; its id is its place among the tenant's lines. Confidence is in percent. */
  datatype Line = Line(
    statement: string, ref: string, amount: int, asset: string, occurredAt: Option<int>,
    status: LineStatus, confidence: Option<int>)

  type LineId = nat

  datatype ReconStatus = Open | Resolved

  /** The issue column; rows opened elsewhere carry other texts. */
  datatype Issue = Matched | DuplicateLine | FeeDiffers | AmountDiffers | NoPayment | MissingTheirs | OtherIssue(text: string)

  datatype ReconRow = ReconRow(paymentId: string, issue: Issue, amount: int, asset: string, status: ReconStatus)

  datatype Payment = Payment(id: string, settled: bool, asset: string, amount: int, fee: int, ref: string, settledAt: Option<int>)

  datatype Statement = Statement(id: string, periodStart: Option<int>, periodEnd: Option<int>)

  const MS_PER_DAY := 24 * 60 * 60 * 1000

  function Day(ms: int): int {
    ms / MS_PER_DAY
  }

  // ---------------------------------------------------------------- judging a line

  /** The Map from provider reference to payment: the last payment with a reference wins. */
  function ByRef(payments: seq<Payment>, ref: string): (r: Option<Payment>)
    ensures r.Some? ==> r.value in payments && r.value.ref == ref != ""
  {
    if payments == [] || ref == "" then None
    else if payments[|payments| - 1].ref == ref then Some(payments[|payments| - 1])
    else ByRef(payments[..|payments| - 1], ref)
  }

  predicate LooksLike(p: Payment, line: Line) {
    && p.settled && p.asset == line.asset && p.amount == line.amount
    && line.occurredAt.Some? && p.settledAt.Some? && Day(p.settledAt.value) == Day(line.occurredAt.value)
  }

  /** `payments.find`: the first that looks like the line and is not taken in this run. */
  function FindHeuristic(payments: seq<Payment>, line: Line, taken: set<string>): (r: Option<Payment>)
    ensures r.Some? ==> r.value in payments && LooksLike(r.value, line) && r.value.ref !in taken
  {
    if payments == [] then None
    else if LooksLike(payments[0], line) && payments[0].ref !in taken then Some(payments[0])
    else FindHeuristic(payments[1..], line, taken)
  }

  predicate SomeMatched(lines: seq<Line>, ref: string) {
    exists i :: 0 <= i < |lines| && lines[i].status == LineMatched && lines[i].ref == ref
  }

  datatype Judgement =
    | Duplicate
    | Exact(payment: Payment)
    | FeeMismatch(payment: Payment)
    | AmountMismatch(payment: Payment)
    | Heuristic(payment: Payment)
    | MissingOurs

  function Judge(payments: seq<Payment>, lines: seq<Line>, taken: set<string>, line: Line): Judgement {
    if SomeMatched(lines, line.ref) || line.ref in taken then Duplicate
    else
      match ByRef(payments, line.ref)
      case Some(p) =>
        if line.amount == p.amount then Exact(p)
        else if line.amount == p.amount + p.fee || line.amount == p.amount - p.fee then FeeMismatch(p)
        else AmountMismatch(p)
      case None =>
        match FindHeuristic(payments, line, taken)
        case Some(p) => Heuristic(p)
        case None => MissingOurs
  }

  // ---------------------------------------------------------------- what a run does

  /** The tables, the run-local set of references, and the counters of the summary. */
  datatype State = State(lines: seq<Line>, rows: seq<ReconRow>, taken: set<string>, matched: nat, exceptions: nat)

  function Begin(lines: seq<Line>, rows: seq<ReconRow>): State {
    State(lines, rows, {}, 0, 0)
  }

  predicate HasOpen(rows: seq<ReconRow>, paymentId: string, issue: Issue) {
    exists i :: 0 <= i < |rows| && rows[i].paymentId == paymentId && rows[i].issue == issue && rows[i].status == Open
  }

  predicate HasMatchedRow(rows: seq<ReconRow>, paymentId: string) {
    exists i :: 0 <= i < |rows| && rows[i].paymentId == paymentId && rows[i].issue == Matched
  }

  function OpenException(s: State, paymentId: string, issue: Issue, amount: int, asset: string): State {
    if HasOpen(s.rows, paymentId, issue) then s
    else s.(rows := s.rows + [ReconRow(paymentId, issue, amount, asset, Open)], exceptions := s.exceptions + 1)
  }

  function SetLine(s: State, id: LineId, status: LineStatus, confidence: Option<int>): State
    requires id < |s.lines|
  {
    s.(lines := s.lines[id := s.lines[id].(status := status, confidence := confidence)])
  }

  function MarkMatched(s: State, id: LineId, p: Payment, confidence: int): State
    requires id < |s.lines|
  {
    var line := s.lines[id];
    var rows := if HasMatchedRow(s.rows, p.id) then s.rows else s.rows + [ReconRow(p.id, Matched, line.amount, line.asset, Resolved)];
    var s' := SetLine(s, id, LineMatched, Some(confidence));
    s'.(rows := rows, taken := s.taken + {p.ref}, matched := s.matched + 1)
  }

  function Except(s: State, id: LineId, paymentId: string, issue: Issue, amount: int): State
    requires id < |s.lines|
  {
    OpenException(SetLine(s, id, LineException, None), paymentId, issue, amount, s.lines[id].asset)
  }

  /** The pseudo payment id of a line's own exceptions. */
  function LineKey(id: LineId): string {
    "stmt:" + Money.PrintNat(id)
  }

  function MatchLine(payments: seq<Payment>, s: State, id: LineId): (r: State)
    requires id < |s.lines|
    ensures |r.lines| == |s.lines|
  {
    var line := s.lines[id];
    match Judge(payments, s.lines, s.taken, line)
    case Duplicate => Except(s, id, LineKey(id), DuplicateLine, line.amount)
    case Exact(p) => MarkMatched(s, id, p, 100)
    case FeeMismatch(p) => Except(s, id, p.id, FeeDiffers, Abs(line.amount - p.amount))
    case AmountMismatch(p) => Except(s, id, p.id, AmountDiffers, line.amount)
    case Heuristic(p) => MarkMatched(s, id, p, 70)
    case MissingOurs => Except(s, id, LineKey(id), NoPayment, line.amount)
  }

  function MatchLines(payments: seq<Payment>, s: State, ids: seq<LineId>): (r: State)
    requires InTable(s, ids)
    ensures |r.lines| == |s.lines|
    decreases |ids|
  {
    if ids == [] then s else MatchLines(payments, MatchLine(payments, s, ids[0]), ids[1..])
  }

  predicate InTable(s: State, ids: seq<LineId>) {
    forall i :: 0 <= i < |ids| ==> ids[i] < |s.lines|
  }

  predicate Listed(lines: seq<Line>, statement: string, ref: string) {
    exists i :: 0 <= i < |lines| && lines[i].statement == statement && lines[i].ref == ref
  }

  /** A settled payment inside the declared period that appears on no line of the statement. */
  predicate IsMissing(st: Statement, lines: seq<Line>, p: Payment) {
    && st.periodStart.Some? && st.periodEnd.Some?
    && p.settled && p.settledAt.Some? && p.ref != ""
    && st.periodStart.value <= p.settledAt.value <= st.periodEnd.value
    && !Listed(lines, st.id, p.ref)
  }

  function ReportMissing(st: Statement, s: State, payments: seq<Payment>): (r: State)
    ensures r.lines == s.lines
    decreases |payments|
  {
    if payments == [] then s
    else
      var p := payments[0];
      var s' := if IsMissing(st, s.lines, p) then OpenException(s, p.id, MissingTheirs, p.amount, p.asset) else s;
      ReportMissing(st, s', payments[1..])
  }

  /** The lines a run works through: those of the statement not yet matched, in some order of reference. */
  predicate IsWorklist(lines: seq<Line>, statement: string, ids: seq<LineId>) {
    && (forall i :: 0 <= i < |ids| ==>
          ids[i] < |lines| && lines[ids[i]].statement == statement && lines[ids[i]].status != LineMatched)
    && NoRepeats(ids)
    && forall k :: 0 <= k < |lines| && lines[k].statement == statement && lines[k].status != LineMatched ==> k in ids
  }

  function MatchStatement(st: Statement, payments: seq<Payment>, lines: seq<Line>, rows: seq<ReconRow>, ids: seq<LineId>): (r: State)
    requires InTable(Begin(lines, rows), ids)
    ensures |r.lines| == |lines|
  {
    ReportMissing(st, MatchLines(payments, Begin(lines, rows), ids), payments)
  }

  // ---------------------------------------------------------------- what every line keeps

  /** No provider reference has two matched lines. */
  predicate OneMatchedLinePerRef(lines: seq<Line>) {
    forall i, j :: 0 <= i < j < |lines| && lines[i].status == LineMatched && lines[j].status == LineMatched ==> lines[i].ref != lines[j].ref
  }

  predicate OneMatchedRowPerPayment(rows: seq<ReconRow>) {
    forall i, j :: 0 <= i < j < |rows| && rows[i].issue == Matched && rows[j].issue == Matched ==> rows[i].paymentId != rows[j].paymentId
  }

  /** Of the issues the matcher raises; other callers insert without looking. */
  predicate OneOpenRowPerIssue(rows: seq<ReconRow>) {
    forall i, j :: 0 <= i < j < |rows| && rows[i].status == Open && rows[j].status == Open && !rows[i].issue.OtherIssue? ==>
      rows[i].paymentId != rows[j].paymentId || rows[i].issue != rows[j].issue
  }

  predicate TablesOk(lines: seq<Line>, rows: seq<ReconRow>) {
    OneMatchedLinePerRef(lines) && OneMatchedRowPerPayment(rows) && OneOpenRowPerIssue(rows)
  }

  lemma OpenExceptionKeepsRows(s: State, paymentId: string, issue: Issue, amount: int, asset: string)
    requires OneMatchedRowPerPayment(s.rows) && OneOpenRowPerIssue(s.rows) && issue != Matched
    ensures
      var s' := OpenException(s, paymentId, issue, amount, asset);
      && OneMatchedRowPerPayment(s'.rows) && OneOpenRowPerIssue(s'.rows) && s.rows <= s'.rows
      && HasOpen(s'.rows, paymentId, issue)
  {
    if !HasOpen(s.rows, paymentId, issue) {
      var rows := s.rows + [ReconRow(paymentId, issue, amount, asset, Open)];
      assert rows[|s.rows|].paymentId == paymentId;
    }
  }

  lemma MarkMatchedKeepsRows(s: State, id: LineId, p: Payment, confidence: int)
    requires id < |s.lines| && OneMatchedRowPerPayment(s.rows) && OneOpenRowPerIssue(s.rows)
    ensures
      var s' := MarkMatched(s, id, p, confidence);
      OneMatchedRowPerPayment(s'.rows) && OneOpenRowPerIssue(s'.rows) && s.rows <= s'.rows
  {
  }

  lemma MarkMatchedKeepsLines(s: State, id: LineId, p: Payment, confidence: int)
    requires id < |s.lines| && OneMatchedLinePerRef(s.lines) && !SomeMatched(s.lines, s.lines[id].ref)
    ensures OneMatchedLinePerRef(MarkMatched(s, id, p, confidence).lines)
  {
    var s' := MarkMatched(s, id, p, confidence);
    forall i, j | 0 <= i < j < |s'.lines| && s'.lines[i].status == LineMatched && s'.lines[j].status == LineMatched
      ensures s'.lines[i].ref != s'.lines[j].ref
    {
      if i == id {
        assert s'.lines[j] == s.lines[j];
      } else if j == id {
        assert s'.lines[i] == s.lines[i];
      }
    }
  }

  /** One line: it ends matched or an exception, every other line is untouched, and the tables keep their rules. */
  lemma MatchLineKeeps(payments: seq<Payment>, s: State, id: LineId)
    requires id < |s.lines| && TablesOk(s.lines, s.rows)
    ensures
      var s' := MatchLine(payments, s, id);
      && TablesOk(s'.lines, s'.rows) && s.rows <= s'.rows
      && |s'.lines| == |s.lines| && (forall i :: 0 <= i < |s.lines| && i != id ==> s'.lines[i] == s.lines[i])
      && s'.lines[id].status != LinePending && SameLine(s'.lines[id], s.lines[id])
  {
    var line := s.lines[id];
    match Judge(payments, s.lines, s.taken, line)
    case Duplicate =>
    case Exact(p) => MarkMatchedKeepsRows(s, id, p, 100); MarkMatchedKeepsLines(s, id, p, 100);
    case FeeMismatch(p) =>
    case AmountMismatch(p) =>
    case Heuristic(p) => MarkMatchedKeepsRows(s, id, p, 70); MarkMatchedKeepsLines(s, id, p, 70);
    case MissingOurs =>
  }

  /** The matcher writes only a line's status and confidence. */
  predicate SameLine(a: Line, b: Line) {
    a.(status := b.status, confidence := b.confidence) == b
  }

  lemma {:induction false} MatchLinesKeep(payments: seq<Payment>, s: State, ids: seq<LineId>)
    requires InTable(s, ids) && TablesOk(s.lines, s.rows)
    ensures
      var s' := MatchLines(payments, s, ids);
      && TablesOk(s'.lines, s'.rows) && s.rows <= s'.rows
      && |s'.lines| == |s.lines|
      && (forall i :: 0 <= i < |s.lines| ==> SameLine(s'.lines[i], s.lines[i]))
      && (forall i :: 0 <= i < |s.lines| && i !in ids ==> s'.lines[i] == s.lines[i])
      && (forall i :: 0 <= i < |s.lines| && i in ids ==> s'.lines[i].status != LinePending)
    decreases |ids|
  {
    if ids != [] {
      MatchLineKeeps(payments, s, ids[0]);
      var s1 := MatchLine(payments, s, ids[0]);
      MatchLinesKeep(payments, s1, ids[1..]);
      assert ids == [ids[0]] + ids[1..];
    }
  }

  lemma {:induction false} ReportMissingKeeps(st: Statement, s: State, payments: seq<Payment>)
    requires TablesOk(s.lines, s.rows)
    ensures
      var s' := ReportMissing(st, s, payments);
      && s'.lines == s.lines && TablesOk(s'.lines, s'.rows) && s.rows <= s'.rows
      && (forall i :: 0 <= i < |payments| && IsMissing(st, s.lines, payments[i]) ==> HasOpen(s'.rows, payments[i].id, MissingTheirs))
    decreases |payments|
  {
    if payments != [] {
      var p := payments[0];
      OpenExceptionKeepsRows(s, p.id, MissingTheirs, p.amount, p.asset);
      var s1 := if IsMissing(st, s.lines, p) then OpenException(s, p.id, MissingTheirs, p.amount, p.asset) else s;
      ReportMissingKeeps(st, s1, payments[1..]);
      var s' := ReportMissing(st, s, payments);
      forall i | 0 <= i < |payments| && IsMissing(st, s.lines, payments[i])
        ensures HasOpen(s'.rows, payments[i].id, MissingTheirs)
      {
        if i > 0 {
          assert payments[1..][i - 1] == payments[i];
        }
      }
    }
  }

  /** A run decides every line of its statement, never touches a matched line or another
      statement's line, keeps one matched line per reference, one Matched row per payment and one
      Open row per payment and issue, and leaves an Open row for every settled payment of the period
      that the statement does not list. */
  lemma RunGuarantees(st: Statement, payments: seq<Payment>, lines: seq<Line>, rows: seq<ReconRow>, ids: seq<LineId>)
    requires IsWorklist(lines, st.id, ids) && TablesOk(lines, rows)
    ensures
      var s' := MatchStatement(st, payments, lines, rows, ids);
      && TablesOk(s'.lines, s'.rows) && rows <= s'.rows && |s'.lines| == |lines|
      && (forall k :: 0 <= k < |lines| ==> SameLine(s'.lines[k], lines[k]))
      && (forall k :: 0 <= k < |lines| && (lines[k].status == LineMatched || lines[k].statement != st.id) ==> s'.lines[k] == lines[k])
      && (forall k :: 0 <= k < |lines| && lines[k].statement == st.id ==> s'.lines[k].status != LinePending)
      && (forall k :: 0 <= k < |payments| && IsMissing(st, lines, payments[k]) ==> HasOpen(s'.rows, payments[k].id, MissingTheirs))
  {
    var s := Begin(lines, rows);
    MatchLinesKeep(payments, s, ids);
    var s1 := MatchLines(payments, s, ids);
    ReportMissingKeeps(st, s1, payments);
    forall k | 0 <= k < |payments| && IsMissing(st, lines, payments[k])
      ensures IsMissing(st, s1.lines, payments[k])
    {
    }
    forall k | 0 <= k < |lines| && (lines[k].status == LineMatched || lines[k].statement != st.id)
      ensures k !in ids
    {
    }
  }

  // ---------------------------------------------------------------- lines and payments

  predicate UnmatchedOnce(lines: seq<Line>, ids: seq<LineId>) {
    NoRepeats(ids) && forall i :: 0 <= i < |ids| ==> ids[i] < |lines| && lines[ids[i]].status != LineMatched
  }

  /** The lines a run newly matches, each with its payment. */
  function Assignments(payments: seq<Payment>, s: State, ids: seq<LineId>): seq<(LineId, Payment)>
    requires InTable(s, ids)
    decreases |ids|
  {
    if ids == [] then []
    else
      var rest := Assignments(payments, MatchLine(payments, s, ids[0]), ids[1..]);
      match Judge(payments, s.lines, s.taken, s.lines[ids[0]])
      case Exact(p) => [(ids[0], p)] + rest
      case Heuristic(p) => [(ids[0], p)] + rest
      case _ => rest
  }

  predicate RefsApart(pairs: seq<(LineId, Payment)>, taken: set<string>) {
    && (forall i :: 0 <= i < |pairs| ==> pairs[i].1.ref !in taken)
    && forall i, j :: 0 <= i < j < |pairs| ==> pairs[i].1.ref != pairs[j].1.ref
  }

  /** Lines newly matched in one run go to payments with pairwise different references: no payment
      is matched twice, not even once by its reference and once by its looks. */
  lemma {:induction false} RunMatchesInjectively(payments: seq<Payment>, s: State, ids: seq<LineId>)
    requires InTable(s, ids)
    ensures RefsApart(Assignments(payments, s, ids), s.taken)
    decreases |ids|
  {
    if ids != [] {
      var s1 := MatchLine(payments, s, ids[0]);
      RunMatchesInjectively(payments, s1, ids[1..]);
    }
  }

  predicate AssignedLine(pairs: seq<(LineId, Payment)>, id: LineId) {
    exists i :: 0 <= i < |pairs| && pairs[i].0 == id
  }

  lemma AssignedCons(pairs: seq<(LineId, Payment)>, first: (LineId, Payment), id: LineId)
    ensures AssignedLine([first] + pairs, id) <==> first.0 == id || AssignedLine(pairs, id)
  {
    var all := [first] + pairs;
    assert all[0].0 == first.0;
    if i :| 0 <= i < |pairs| && pairs[i].0 == id {
      assert all[i + 1].0 == id;
    }
    if i :| 0 <= i < |all| && all[i].0 == id {
      assert i == 0 || pairs[i - 1].0 == id;
    }
  }

  /** The assignments are exactly the newly matched lines, and the summary counts them. */
  lemma {:induction false} AssignmentsAreTheNewMatches(payments: seq<Payment>, s: State, ids: seq<LineId>, id: LineId)
    requires InTable(s, ids) && TablesOk(s.lines, s.rows) && id < |s.lines|
    requires UnmatchedOnce(s.lines, ids)
    ensures
      var s' := MatchLines(payments, s, ids);
      && s'.matched == s.matched + |Assignments(payments, s, ids)| && |s'.lines| == |s.lines|
      && (AssignedLine(Assignments(payments, s, ids), id) <==> s.lines[id].status != LineMatched && s'.lines[id].status == LineMatched)
    decreases |ids|
  {
    if ids != [] {
      MatchLineKeeps(payments, s, ids[0]);
      MatchLinesKeep(payments, s, ids);
      var s1 := MatchLine(payments, s, ids[0]);
      var rest := Assignments(payments, s1, ids[1..]);
      AssignmentsAreTheNewMatches(payments, s1, ids[1..], id);
      MatchLinesKeep(payments, s1, ids[1..]);
      assert ids[0] !in ids[1..];
      match Judge(payments, s.lines, s.taken, s.lines[ids[0]])
      case Exact(p) => AssignedCons(rest, (ids[0], p), id);
      case Heuristic(p) => AssignedCons(rest, (ids[0], p), id);
      case _ =>
    }
  }

  /** Why a line was matched: by its reference with the same amount, or, no payment having its
      reference, by a settled payment of the same asset, amount and day. */
  predicate Justified(payments: seq<Payment>, line: Line, p: Payment) {
    && p in payments && p.amount == line.amount
    && (p.ref == line.ref || (ByRef(payments, line.ref) == None && LooksLike(p, line)))
  }

  predicate AllJustified(payments: seq<Payment>, lines: seq<Line>, pairs: seq<(LineId, Payment)>) {
    forall k :: 0 <= k < |pairs| ==> pairs[k].0 < |lines| && Justified(payments, lines[pairs[k].0], pairs[k].1)
  }

  /** Every match a run makes is justified by the line and the payment themselves. */
  lemma {:induction false} AssignmentsAreJustified(payments: seq<Payment>, s: State, ids: seq<LineId>)
    requires InTable(s, ids) && TablesOk(s.lines, s.rows)
    ensures AllJustified(payments, s.lines, Assignments(payments, s, ids))
    decreases |ids|
  {
    if ids != [] {
      MatchLineKeeps(payments, s, ids[0]);
      AssignmentsAreJustified(payments, MatchLine(payments, s, ids[0]), ids[1..]);
    }
  }

  // ---------------------------------------------------------------- why a line is an exception

  /** The Map holds a payment for every reference some payment has, the last one with it. */
  lemma {:induction false} ByRefIsComplete(payments: seq<Payment>, ref: string)
    ensures ByRef(payments, ref).None? <==> ref == "" || forall i :: 0 <= i < |payments| ==> payments[i].ref != ref
  {
    if payments != [] && ref != "" {
      var front, last := payments[..|payments| - 1], payments[|payments| - 1];
      ByRefIsComplete(front, ref);
      assert payments == front + [last];
    }
  }

  lemma {:induction false} FindHeuristicIsComplete(payments: seq<Payment>, line: Line, taken: set<string>)
    ensures FindHeuristic(payments, line, taken).None? <==>
      forall i :: 0 <= i < |payments| && LooksLike(payments[i], line) ==> payments[i].ref in taken
  {
    if payments != [] {
      FindHeuristicIsComplete(payments[1..], line, taken);
      assert payments == [payments[0]] + payments[1..];
    }
  }

  /** The payment with the line's reference, if any. */
  predicate Disputed(payments: seq<Payment>, line: Line, p: Payment) {
    ByRef(payments, line.ref) == Some(p) && line.amount != p.amount
  }

  /** Nothing in the books answers to the line: no payment has its reference, and every settled
      payment of its asset, amount and day is already taken. */
  predicate Unknown(payments: seq<Payment>, line: Line, taken: set<string>) {
    && (line.ref == "" || forall i :: 0 <= i < |payments| ==> payments[i].ref != line.ref)
    && forall i :: 0 <= i < |payments| && LooksLike(payments[i], line) ==> payments[i].ref in taken
  }

  /** Why a line is an exception, with an Open row that says so: its reference is matched already, on
      another line or by a payment taken in this run; or its payment's amount differs, by exactly the
      fee or otherwise; or nothing answers to it. */
  ghost predicate Explained(payments: seq<Payment>, line: Line, id: LineId, lines: seq<Line>, rows: seq<ReconRow>, taken: set<string>) {
    || ((SomeMatched(lines, line.ref) || line.ref in taken) && HasOpen(rows, LineKey(id), DuplicateLine))
    || (exists p :: Disputed(payments, line, p) && (Abs(line.amount - p.amount) == Abs(p.fee)) && HasOpen(rows, p.id, FeeDiffers))
    || (exists p :: Disputed(payments, line, p) && (Abs(line.amount - p.amount) != Abs(p.fee)) && HasOpen(rows, p.id, AmountDiffers))
    || (Unknown(payments, line, taken) && HasOpen(rows, LineKey(id), NoPayment))
  }

  lemma ExceptRaises(s: State, id: LineId, paymentId: string, issue: Issue, amount: int)
    requires id < |s.lines| && TablesOk(s.lines, s.rows) && issue != Matched
    ensures HasOpen(Except(s, id, paymentId, issue, amount).rows, paymentId, issue)
  {
    OpenExceptionKeepsRows(SetLine(s, id, LineException, None), paymentId, issue, amount, s.lines[id].asset);
  }

  lemma MatchLineExplains(payments: seq<Payment>, s: State, id: LineId)
    requires id < |s.lines| && TablesOk(s.lines, s.rows) && MatchLine(payments, s, id).lines[id].status == LineException
    ensures Explained(payments, s.lines[id], id, s.lines, MatchLine(payments, s, id).rows, s.taken)
  {
    var line := s.lines[id];
    ByRefIsComplete(payments, line.ref);
    FindHeuristicIsComplete(payments, line, s.taken);
    match Judge(payments, s.lines, s.taken, line)
    case Duplicate => ExceptRaises(s, id, LineKey(id), DuplicateLine, line.amount);
    case FeeMismatch(p) =>
      ExceptRaises(s, id, p.id, FeeDiffers, Abs(line.amount - p.amount));
      assert Disputed(payments, line, p);
    case AmountMismatch(p) =>
      ExceptRaises(s, id, p.id, AmountDiffers, line.amount);
      assert Disputed(payments, line, p);
    case MissingOurs => ExceptRaises(s, id, LineKey(id), NoPayment, line.amount);
    case _ =>
  }

  /** What is matched stays matched, rows are only added, and more references get taken. */
  predicate Further(lines: seq<Line>, rows: seq<ReconRow>, taken: set<string>, s': State) {
    && |lines| == |s'.lines| && (forall i :: 0 <= i < |lines| && lines[i].status == LineMatched ==> s'.lines[i] == lines[i])
    && rows <= s'.rows && taken <= s'.taken
  }

  lemma OpenStays(rows: seq<ReconRow>, more: seq<ReconRow>, paymentId: string, issue: Issue)
    requires HasOpen(rows, paymentId, issue) && rows <= more
    ensures HasOpen(more, paymentId, issue)
  {
    var i :| 0 <= i < |rows| && rows[i].paymentId == paymentId && rows[i].issue == issue && rows[i].status == Open;
    assert more[i] == rows[i];
  }

  lemma ExplainedStays(payments: seq<Payment>, line: Line, id: LineId, lines: seq<Line>, rows: seq<ReconRow>, taken: set<string>, s': State)
    requires Explained(payments, line, id, lines, rows, taken) && Further(lines, rows, taken, s')
    ensures Explained(payments, line, id, s'.lines, s'.rows, s'.taken)
  {
    forall paymentId, issue | HasOpen(rows, paymentId, issue)
      ensures HasOpen(s'.rows, paymentId, issue)
    {
      OpenStays(rows, s'.rows, paymentId, issue);
    }
    if i :| 0 <= i < |lines| && lines[i].status == LineMatched && lines[i].ref == line.ref {
      assert s'.lines[i] == lines[i];
    }
  }

  lemma {:induction false} LinesGoFurther(payments: seq<Payment>, s: State, ids: seq<LineId>)
    requires InTable(s, ids) && TablesOk(s.lines, s.rows) && UnmatchedOnce(s.lines, ids)
    ensures Further(s.lines, s.rows, s.taken, MatchLines(payments, s, ids))
    decreases |ids|
  {
    if ids != [] {
      MatchLineKeeps(payments, s, ids[0]);
      StillUnmatched(payments, s, ids);
      LinesGoFurther(payments, MatchLine(payments, s, ids[0]), ids[1..]);
    }
  }

  lemma StillUnmatched(payments: seq<Payment>, s: State, ids: seq<LineId>)
    requires ids != [] && InTable(s, ids) && TablesOk(s.lines, s.rows) && UnmatchedOnce(s.lines, ids)
    ensures UnmatchedOnce(MatchLine(payments, s, ids[0]).lines, ids[1..])
  {
    MatchLineKeeps(payments, s, ids[0]);
  }

  lemma {:induction false} MatchLinesExplain(payments: seq<Payment>, s: State, ids: seq<LineId>, id: LineId)
    requires InTable(s, ids) && TablesOk(s.lines, s.rows) && UnmatchedOnce(s.lines, ids)
    requires id in ids && MatchLines(payments, s, ids).lines[id].status == LineException
    ensures var s' := MatchLines(payments, s, ids); Explained(payments, s.lines[id], id, s'.lines, s'.rows, s'.taken)
    decreases |ids|
  {
    var s1, s' := MatchLine(payments, s, ids[0]), MatchLines(payments, s, ids);
    MatchLineKeeps(payments, s, ids[0]);
    StillUnmatched(payments, s, ids);
    if id == ids[0] {
      MatchLinesKeep(payments, s1, ids[1..]);
      LinesGoFurther(payments, s, ids);
      LinesGoFurther(payments, s1, ids[1..]);
      MatchLineExplains(payments, s, id);
      ExplainedStays(payments, s.lines[id], id, s.lines, s1.rows, s.taken, s');
    } else {
      MatchLinesExplain(payments, s1, ids[1..], id);
    }
  }

  /** Every line a run leaves as an exception has an Open row that says why, in terms of the tables the
      run leaves and of the references its own matches have taken. */
  lemma ExceptionsAreExplained(st: Statement, payments: seq<Payment>, lines: seq<Line>, rows: seq<ReconRow>, ids: seq<LineId>, id: LineId)
    requires IsWorklist(lines, st.id, ids) && TablesOk(lines, rows) && id < |lines| && lines[id].statement == st.id
    requires MatchStatement(st, payments, lines, rows, ids).lines[id].status == LineException
    ensures
      var s' := MatchStatement(st, payments, lines, rows, ids);
      Explained(payments, lines[id], id, s'.lines, s'.rows, TakenBy(Assignments(payments, Begin(lines, rows), ids)))
  {
    var s := Begin(lines, rows);
    var s1 := MatchLines(payments, s, ids);
    MatchLinesKeep(payments, s, ids);
    ReportMissingKeeps(st, s1, payments);
    assert id in ids;
    MatchLinesExplain(payments, s, ids, id);
    ReportMissingTakesNothing(st, s1, payments);
    ExplainedStays(payments, lines[id], id, s1.lines, s1.rows, s1.taken, MatchStatement(st, payments, lines, rows, ids));
    TakenIsAssigned(payments, s, ids);
  }

  lemma {:induction false} ReportMissingTakesNothing(st: Statement, s: State, payments: seq<Payment>)
    ensures ReportMissing(st, s, payments).taken == s.taken
    decreases |payments|
  {
    if payments != [] {
      var p := payments[0];
      ReportMissingTakesNothing(st, if IsMissing(st, s.lines, p) then OpenException(s, p.id, MissingTheirs, p.amount, p.asset) else s, payments[1..]);
    }
  }

  function TakenBy(pairs: seq<(LineId, Payment)>): set<string> {
    if pairs == [] then {} else {pairs[0].1.ref} + TakenBy(pairs[1..])
  }

  lemma {:induction false} TakenIsAssigned(payments: seq<Payment>, s: State, ids: seq<LineId>)
    requires InTable(s, ids)
    ensures MatchLines(payments, s, ids).taken == s.taken + TakenBy(Assignments(payments, s, ids))
    decreases |ids|
  {
    if ids != [] {
      var s1 := MatchLine(payments, s, ids[0]);
      TakenIsAssigned(payments, s1, ids[1..]);
      var rest := Assignments(payments, s1, ids[1..]);
      match Judge(payments, s.lines, s.taken, s.lines[ids[0]])
      case Exact(p) => assert ([(ids[0], p)] + rest)[1..] == rest;
      case Heuristic(p) => assert ([(ids[0], p)] + rest)[1..] == rest;
      case _ =>
    }
  }

  // ---------------------------------------------------------------- the loops themselves

  class Matcher {
    var lines: seq<Line>
    var rows: seq<ReconRow>
    var matchedRefs: set<string>
    var matched: nat
    var exceptions: nat

    function Contents(): State
      reads this
    {
      State(lines, rows, matchedRefs, matched, exceptions)
    }

    method CountMatched(ref: string) returns (count: nat)
      ensures count > 0 <==> SomeMatched(lines, ref)
    {
      count := 0;
      for i := 0 to |lines|
        invariant count > 0 <==> exists k :: 0 <= k < i && lines[k].status == LineMatched && lines[k].ref == ref
      {
        if lines[i].status == LineMatched && lines[i].ref == ref {
          count := count + 1;
        }
      }
    }

    method RaiseException(paymentId: string, issue: Issue, amount: int, asset: string)
      modifies this`rows, this`exceptions
      ensures Contents() == OpenException(old(Contents()), paymentId, issue, amount, asset)
    {
      for i := 0 to |rows|
        invariant forall k :: 0 <= k < i ==> !(rows[k].paymentId == paymentId && rows[k].issue == issue && rows[k].status == Open)
      {
        if rows[i].paymentId == paymentId && rows[i].issue == issue && rows[i].status == Open {
          return;
        }
      }
      rows := rows + [ReconRow(paymentId, issue, amount, asset, Open)];
      exceptions := exceptions + 1;
    }

    method WriteLine(id: LineId, status: LineStatus, confidence: Option<int>)
      requires id < |lines|
      modifies this`lines
      ensures Contents() == SetLine(old(Contents()), id, status, confidence)
    {
      lines := lines[id := lines[id].(status := status, confidence := confidence)];
    }

    method ConfirmMatch(id: LineId, p: Payment, confidence: int)
      requires id < |lines|
      modifies this
      ensures Contents() == MarkMatched(old(Contents()), id, p, confidence)
    {
      var existing := false;
      for i := 0 to |rows|
        invariant existing <==> exists k :: 0 <= k < i && rows[k].paymentId == p.id && rows[k].issue == Matched
      {
        if rows[i].paymentId == p.id && rows[i].issue == Matched {
          existing := true;
        }
      }
      if !existing {
        rows := rows + [ReconRow(p.id, Matched, lines[id].amount, lines[id].asset, Resolved)];
      }
      WriteLine(id, LineMatched, Some(confidence));
      matched := matched + 1;
      matchedRefs := matchedRefs + {p.ref};
    }

    method ProcessLine(payments: seq<Payment>, id: LineId)
      requires id < |lines|
      modifies this
      ensures Contents() == MatchLine(payments, old(Contents()), id)
    {
      var line := lines[id];
      var count := CountMatched(line.ref);
      if count > 0 || line.ref in matchedRefs {
        WriteLine(id, LineException, None);
        RaiseException(LineKey(id), DuplicateLine, line.amount, line.asset);
        return;
      }
      var payment := ByRef(payments, line.ref);
      if payment.Some? {
        var p := payment.value;
        if line.amount == p.amount {
          ConfirmMatch(id, p, 100);
        } else if line.amount == p.amount + p.fee || line.amount == p.amount - p.fee {
          WriteLine(id, LineException, None);
          RaiseException(p.id, FeeDiffers, Abs(line.amount - p.amount), line.asset);
        } else {
          WriteLine(id, LineException, None);
          RaiseException(p.id, AmountDiffers, line.amount, line.asset);
        }
        return;
      }
      var heuristic := FindHeuristic(payments, line, matchedRefs);
      if heuristic.Some? {
        ConfirmMatch(id, heuristic.value, 70);
        return;
      }
      WriteLine(id, LineException, None);
      RaiseException(LineKey(id), NoPayment, line.amount, line.asset);
    }

    /** `matchStatement`; `ids` is what the SELECT of its lines returned. */
    method Match(st: Statement, payments: seq<Payment>, ids: seq<LineId>)
      requires InTable(Contents(), ids)
      modifies this
      ensures Contents() == MatchStatement(st, payments, old(lines), old(rows), ids)
    {
      matchedRefs, matched, exceptions := {}, 0, 0;
      ProcessLines(payments, ids);
      ProcessMissing(st, payments);
    }

    method ProcessLines(payments: seq<Payment>, ids: seq<LineId>)
      requires InTable(Contents(), ids)
      modifies this
      ensures Contents() == MatchLines(payments, old(Contents()), ids)
    {
      ghost var start := Contents();
      for i := 0 to |ids|
        invariant |lines| == |start.lines|
        invariant MatchLines(payments, Contents(), ids[i..]) == MatchLines(payments, start, ids)
      {
        assert ids[i..][0] == ids[i] && ids[i..][1..] == ids[i + 1..];
        ProcessLine(payments, ids[i]);
      }
      assert ids[|ids|..] == [];
    }

    method ProcessMissing(st: Statement, payments: seq<Payment>)
      modifies this`rows, this`exceptions
      ensures Contents() == ReportMissing(st, old(Contents()), payments)
    {
      ghost var start := Contents();
      for i := 0 to |payments|
        invariant ReportMissing(st, Contents(), payments[i..]) == ReportMissing(st, start, payments)
      {
        assert payments[i..][0] == payments[i] && payments[i..][1..] == payments[i + 1..];
        var p := payments[i];
        if IsMissing(st, lines, p) {
          RaiseException(p.id, MissingTheirs, p.amount, p.asset);
        }
      }
      assert payments[|payments|..] == [];
    }
  }
}

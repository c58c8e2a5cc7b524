/** What becomes of a statement line, in terms of the line and the payments themselves
    (services/reconciliation-service/src/statements.mjs:119, 155-218). */
module StatementReasons {
  import opened Basics
  import opened StatementMatcher
  import Money

  /** The same calendar day, in milliseconds since the epoch. */
  ghost predicate OneDay(a: int, b: int) {
    exists d: int :: d * 86400000 <= a < d * 86400000 + 86400000 && d * 86400000 <= b < d * 86400000 + 86400000
  }

  lemma DaysAgree(a: int, b: int)
    ensures Day(a) == Day(b) <==> OneDay(a, b)
  {
    assert Day(a) * 86400000 <= a < Day(a) * 86400000 + 86400000;
    assert Day(b) * 86400000 <= b < Day(b) * 86400000 + 86400000;
  }

  /** Settled in the line's asset and amount on the line's day. */
  ghost predicate Answers(p: Payment, line: Line) {
    && p.settled && p.asset == line.asset && p.amount == line.amount
    && p.settledAt.Some? && line.occurredAt.Some? && OneDay(p.settledAt.value, line.occurredAt.value)
  }

  lemma LooksLikeMeans(p: Payment, line: Line)
    ensures LooksLike(p, line) <==> Answers(p, line)
  {
    if p.settledAt.Some? && line.occurredAt.Some? {
      DaysAgree(p.settledAt.value, line.occurredAt.value);
    }
  }

  predicate HasRef(payments: seq<Payment>, ref: string) {
    ref != "" && exists i :: 0 <= i < |payments| && payments[i].ref == ref
  }

  /** The payment a reference stands for: the last one that has it. */
  predicate LastWithRef(payments: seq<Payment>, ref: string, k: nat) {
    && ref != "" && k < |payments| && payments[k].ref == ref
    && forall j :: k < j < |payments| ==> payments[j].ref != ref
  }

  lemma {:induction false} ByRefIsLast(payments: seq<Payment>, ref: string, k: nat)
    requires LastWithRef(payments, ref, k)
    ensures ByRef(payments, ref) == Some(payments[k])
  {
    var front := payments[..|payments| - 1];
    if k < |front| {
      ByRefIsLast(front, ref, k);
    }
  }

  /** The first payment that answers to a line and whose reference is not taken. */
  ghost predicate FirstFree(payments: seq<Payment>, line: Line, taken: set<string>, k: nat) {
    && k < |payments| && Answers(payments[k], line) && payments[k].ref !in taken
    && forall j :: 0 <= j < k && Answers(payments[j], line) ==> payments[j].ref in taken
  }

  lemma {:induction false} FindHeuristicIsFirst(payments: seq<Payment>, line: Line, taken: set<string>, k: nat)
    requires FirstFree(payments, line, taken, k)
    ensures FindHeuristic(payments, line, taken) == Some(payments[k])
  {
    LooksLikeMeans(payments[0], line);
    if k > 0 {
      assert forall j :: 0 <= j < k - 1 ==> payments[1..][j] == payments[j + 1];
      FindHeuristicIsFirst(payments[1..], line, taken, k - 1);
    }
  }

  /** Nothing that answers to the line is free. */
  ghost predicate NoneFree(payments: seq<Payment>, line: Line, taken: set<string>) {
    forall i :: 0 <= i < |payments| && Answers(payments[i], line) ==> payments[i].ref in taken
  }

  lemma {:induction false} NoneFreeFindsNone(payments: seq<Payment>, line: Line, taken: set<string>)
    ensures FindHeuristic(payments, line, taken) == None <==> NoneFree(payments, line, taken)
  {
    if payments != [] {
      LooksLikeMeans(payments[0], line);
      NoneFreeFindsNone(payments[1..], line, taken);
      assert payments == [payments[0]] + payments[1..];
    }
  }

  /** Exceptions about different lines are kept apart. */
  lemma LinesHaveOwnKeys(a: LineId, b: LineId)
    ensures LineKey(a) == LineKey(b) <==> a == b
    ensures "stmt:" <= LineKey(a)
  {
    assert LineKey(a)[5..] == Money.PrintNat(a) && LineKey(b)[5..] == Money.PrintNat(b);
  }

  // ---------------------------------------------------------------- one line

  /** The line's reference already has a matched line, here or in another statement. */
  predicate Claimed(s: State, line: Line) {
    line.ref in s.taken || exists i :: 0 <= i < |s.lines| && s.lines[i].status == LineMatched && s.lines[i].ref == line.ref
  }

  predicate HasStatus(s: State, id: LineId, status: LineStatus, confidence: Option<int>) {
    id < |s.lines| && s.lines[id].status == status && s.lines[id].confidence == confidence
  }

  /** A line whose reference some payment has: matched with certainty when the amounts are the same, and
      otherwise an exception about that payment, with the difference when it is the fee. */
  lemma KnownReference(payments: seq<Payment>, s: State, id: LineId, k: nat)
    requires id < |s.lines| && !Claimed(s, s.lines[id]) && LastWithRef(payments, s.lines[id].ref, k)
    ensures
      var line, p, s' := s.lines[id], payments[k], MatchLine(payments, s, id);
      var byFee := line.amount - p.amount == p.fee || p.amount - line.amount == p.fee;
      if line.amount == p.amount then
        HasStatus(s', id, LineMatched, Some(100)) && s'.taken == s.taken + {line.ref} && MatchCounted(s, s', p, line)
      else
        && HasStatus(s', id, LineException, None) && s'.taken == s.taken
        && (byFee ==> Reported(s, s', p.id, FeeDiffers, Abs(line.amount - p.amount), line.asset))
        && (!byFee ==> Reported(s, s', p.id, AmountDiffers, line.amount, line.asset))
  {
    ByRefIsLast(payments, s.lines[id].ref, k);
  }

  /** A line whose reference no payment has: matched with less confidence to the first payment settled in
      its asset and amount on its day that this run has not taken yet, and left unmatched exactly when
      there is none. */
  lemma UnknownReference(payments: seq<Payment>, s: State, id: LineId)
    requires id < |s.lines| && !Claimed(s, s.lines[id]) && !HasRef(payments, s.lines[id].ref)
    ensures
      var line, s' := s.lines[id], MatchLine(payments, s, id);
      && (HasStatus(s', id, LineException, None) <==> NoneFree(payments, line, s.taken))
      && (NoneFree(payments, line, s.taken) ==>
            s'.taken == s.taken && Reported(s, s', LineKey(id), NoPayment, line.amount, line.asset))
      && forall k: nat :: FirstFree(payments, line, s.taken, k) ==>
           HasStatus(s', id, LineMatched, Some(70)) && s'.taken == s.taken + {payments[k].ref} && MatchCounted(s, s', payments[k], line)
  {
    var line := s.lines[id];
    ByRefIsComplete(payments, line.ref);
    NoneFreeFindsNone(payments, line, s.taken);
    forall k: nat | FirstFree(payments, line, s.taken, k)
      ensures FindHeuristic(payments, line, s.taken) == Some(payments[k])
    {
      FindHeuristicIsFirst(payments, line, s.taken, k);
    }
  }

  /** A second line for a reference is an exception of its own. */
  lemma ClaimedReference(payments: seq<Payment>, s: State, id: LineId)
    requires id < |s.lines| && Claimed(s, s.lines[id])
    ensures
      var line, s' := s.lines[id], MatchLine(payments, s, id);
      && HasStatus(s', id, LineException, None) && s'.taken == s.taken
      && Reported(s, s', LineKey(id), DuplicateLine, line.amount, line.asset)
  {
  }

  /** One Open row with the text, added and counted only where there was none. */
  ghost predicate Reported(s: State, s': State, paymentId: string, issue: Issue, amount: int, asset: string) {
    var there := exists i :: 0 <= i < |s.rows| && s.rows[i].paymentId == paymentId && s.rows[i].issue == issue && s.rows[i].status == Open;
    && s'.rows == s.rows + (if there then [] else [ReconRow(paymentId, issue, amount, asset, Open)])
    && s'.exceptions == s.exceptions + (if there then 0 else 1) && s'.matched == s.matched
  }

  /** A Matched row of the payment, already there or added resolved with the line's amount. */
  ghost predicate MatchCounted(s: State, s': State, p: Payment, line: Line) {
    var there := exists i :: 0 <= i < |s.rows| && s.rows[i].paymentId == p.id && s.rows[i].issue == Matched;
    && s'.rows == s.rows + (if there then [] else [ReconRow(p.id, Matched, line.amount, line.asset, Resolved)])
    && s'.matched == s.matched + 1 && s'.exceptions == s.exceptions
  }

  // ---------------------------------------------------------------- a whole run

  /** Every match of a run: the payment has the line's amount and its reference, or no payment has that
      reference and this one is settled in the line's asset on the line's day. */
  lemma MatchesHaveReasons(payments: seq<Payment>, s: State, ids: seq<LineId>, k: nat)
    requires InTable(s, ids) && TablesOk(s.lines, s.rows) && k < |Assignments(payments, s, ids)|
    ensures
      var (id, p) := Assignments(payments, s, ids)[k];
      && id < |s.lines| && p in payments && p.amount == s.lines[id].amount
      && (p.ref == s.lines[id].ref || (!HasRef(payments, s.lines[id].ref) && Answers(p, s.lines[id])))
  {
    AssignmentsAreJustified(payments, s, ids);
    var (id, p) := Assignments(payments, s, ids)[k];
    assert Justified(payments, s.lines[id], p);
    ByRefIsComplete(payments, s.lines[id].ref);
    LooksLikeMeans(p, s.lines[id]);
  }

  /** The lines a run works through are those its SELECT returns, in whatever order. */
  lemma WorklistIsTheSelect(lines: seq<Line>, statement: string, ids: seq<LineId>)
    ensures IsWorklist(lines, statement, ids) <==>
      NoRepeats(ids)
      && forall k: LineId :: k in ids <==> k < |lines| && lines[k].statement == statement && lines[k].status in {LinePending, LineException}
  {
    if forall k: LineId :: k in ids <==> k < |lines| && lines[k].statement == statement && lines[k].status in {LinePending, LineException} {
      assert forall i :: 0 <= i < |ids| ==> ids[i] in ids;
    }
  }

  function OpenRows(rows: seq<ReconRow>): nat {
    if rows == [] then 0 else OpenRows(rows[..|rows| - 1]) + (if rows[|rows| - 1].status == Open then 1 else 0)
  }

  lemma OpenRowsOfLonger(rows: seq<ReconRow>, row: ReconRow)
    ensures OpenRows(rows + [row]) == OpenRows(rows) + (if row.status == Open then 1 else 0)
  {
    assert (rows + [row])[..|rows|] == rows;
  }

  lemma OpenExceptionCounts(s: State, paymentId: string, issue: Issue, amount: int, asset: string)
    ensures var s' := OpenException(s, paymentId, issue, amount, asset); s'.exceptions - s.exceptions == OpenRows(s'.rows) - OpenRows(s.rows)
  {
    OpenRowsOfLonger(s.rows, ReconRow(paymentId, issue, amount, asset, Open));
  }

  ghost predicate ExceptionsCounted(s: State, s': State) {
    s'.exceptions - s.exceptions == OpenRows(s'.rows) - OpenRows(s.rows)
  }

  lemma ExceptCounts(s: State, id: LineId, paymentId: string, issue: Issue, amount: int)
    requires id < |s.lines|
    ensures ExceptionsCounted(s, Except(s, id, paymentId, issue, amount))
  {
    OpenExceptionCounts(SetLine(s, id, LineException, None), paymentId, issue, amount, s.lines[id].asset);
  }

  lemma MarkMatchedCounts(s: State, id: LineId, p: Payment, confidence: int)
    requires id < |s.lines|
    ensures ExceptionsCounted(s, MarkMatched(s, id, p, confidence))
  {
    OpenRowsOfLonger(s.rows, ReconRow(p.id, Matched, s.lines[id].amount, s.lines[id].asset, Resolved));
  }

  lemma MatchLineCounts(payments: seq<Payment>, s: State, id: LineId)
    requires id < |s.lines|
    ensures ExceptionsCounted(s, MatchLine(payments, s, id))
  {
    var line := s.lines[id];
    match Judge(payments, s.lines, s.taken, line)
    case Duplicate => ExceptCounts(s, id, LineKey(id), DuplicateLine, line.amount);
    case Exact(p) => MarkMatchedCounts(s, id, p, 100);
    case FeeMismatch(p) => ExceptCounts(s, id, p.id, FeeDiffers, Abs(line.amount - p.amount));
    case AmountMismatch(p) => ExceptCounts(s, id, p.id, AmountDiffers, line.amount);
    case Heuristic(p) => MarkMatchedCounts(s, id, p, 70);
    case MissingOurs => ExceptCounts(s, id, LineKey(id), NoPayment, line.amount);
  }

  lemma {:induction false} MatchLinesCount(payments: seq<Payment>, s: State, ids: seq<LineId>)
    requires InTable(s, ids)
    ensures ExceptionsCounted(s, MatchLines(payments, s, ids))
    decreases |ids|
  {
    if ids != [] {
      MatchLineCounts(payments, s, ids[0]);
      MatchLinesCount(payments, MatchLine(payments, s, ids[0]), ids[1..]);
    }
  }

  lemma {:induction false} ReportMissingCounts(st: Statement, s: State, payments: seq<Payment>)
    ensures
      var s' := ReportMissing(st, s, payments);
      s'.exceptions - s.exceptions == OpenRows(s'.rows) - OpenRows(s.rows) && s'.matched == s.matched
    decreases |payments|
  {
    if payments != [] {
      var p := payments[0];
      OpenExceptionCounts(s, p.id, MissingTheirs, p.amount, p.asset);
      ReportMissingCounts(st, if IsMissing(st, s.lines, p) then OpenException(s, p.id, MissingTheirs, p.amount, p.asset) else s, payments[1..]);
    }
  }

  /** The summary of a run: the lines it matched, and the exceptions it opened. */
  lemma SummaryCounts(st: Statement, payments: seq<Payment>, lines: seq<Line>, rows: seq<ReconRow>, ids: seq<LineId>)
    requires IsWorklist(lines, st.id, ids) && TablesOk(lines, rows)
    ensures
      var s' := MatchStatement(st, payments, lines, rows, ids);
      && s'.matched == MatchedLines(s'.lines) - MatchedLines(lines)
      && s'.exceptions == OpenRows(s'.rows) - OpenRows(rows)
  {
    var s := Begin(lines, rows);
    MatchLinesCount(payments, s, ids);
    MatchedLinesGrow(payments, s, ids);
    ReportMissingCounts(st, MatchLines(payments, s, ids), payments);
  }

  function MatchedLines(lines: seq<Line>): nat {
    if lines == [] then 0 else MatchedLines(lines[..|lines| - 1]) + (if lines[|lines| - 1].status == LineMatched then 1 else 0)
  }

  lemma {:induction false} MatchedLinesAfterWrite(lines: seq<Line>, id: LineId, line: Line)
    requires id < |lines| && lines[id].status != LineMatched
    ensures MatchedLines(lines[id := line]) == MatchedLines(lines) + (if line.status == LineMatched then 1 else 0)
  {
    var front, last := lines[..|lines| - 1], lines[|lines| - 1];
    if id < |front| {
      MatchedLinesAfterWrite(front, id, line);
      assert lines[id := line][..|lines| - 1] == front[id := line];
    } else {
      assert lines[id := line][..|lines| - 1] == front;
    }
  }

  lemma MatchLineAddsOne(payments: seq<Payment>, s: State, id: LineId)
    requires id < |s.lines| && s.lines[id].status != LineMatched && TablesOk(s.lines, s.rows)
    ensures var s' := MatchLine(payments, s, id); s'.matched - s.matched == MatchedLines(s'.lines) - MatchedLines(s.lines)
  {
    var s' := MatchLine(payments, s, id);
    MatchLineKeeps(payments, s, id);
    MatchedLinesAfterWrite(s.lines, id, s'.lines[id]);
    assert s'.lines == s.lines[id := s'.lines[id]];
  }

  lemma {:induction false} MatchedLinesGrow(payments: seq<Payment>, s: State, ids: seq<LineId>)
    requires InTable(s, ids) && TablesOk(s.lines, s.rows) && UnmatchedOnce(s.lines, ids)
    ensures var s' := MatchLines(payments, s, ids); s'.matched - s.matched == MatchedLines(s'.lines) - MatchedLines(s.lines)
    decreases |ids|
  {
    if ids != [] {
      MatchLineAddsOne(payments, s, ids[0]);
      MatchLineKeeps(payments, s, ids[0]);
      StillUnmatched(payments, s, ids);
      MatchedLinesGrow(payments, MatchLine(payments, s, ids[0]), ids[1..]);
    }
  }

  /** Settled within the declared period, both ends included, and on no line of the statement. */
  predicate LeftOutByProvider(st: Statement, lines: seq<Line>, p: Payment) {
    && p.settled && p.ref != ""
    && (match (st.periodStart, p.settledAt, st.periodEnd)
        case (Some(start), Some(at), Some(end)) => start <= at && at <= end
        case _ => false)
    && forall i :: 0 <= i < |lines| && lines[i].statement == st.id ==> lines[i].ref != p.ref
  }

  /** A payment is reported as missing exactly when the provider left it out or it was reported before. */
  lemma {:induction false} MissingExactlyWhen(st: Statement, s: State, payments: seq<Payment>, paymentId: string)
    ensures HasOpen(ReportMissing(st, s, payments).rows, paymentId, MissingTheirs) <==>
      HasOpen(s.rows, paymentId, MissingTheirs)
      || exists i :: 0 <= i < |payments| && payments[i].id == paymentId && LeftOutByProvider(st, s.lines, payments[i])
    decreases |payments|
  {
    if payments != [] {
      var p, rest := payments[0], payments[1..];
      var s1 := if IsMissing(st, s.lines, p) then OpenException(s, p.id, MissingTheirs, p.amount, p.asset) else s;
      OpenedExactly(s, p.id, p.amount, p.asset, paymentId);
      MissingExactlyWhen(st, s1, rest, paymentId);
      assert payments == [p] + rest;
      assert IsMissing(st, s.lines, p) <==> LeftOutByProvider(st, s.lines, p);
    }
  }

  lemma OpenedExactly(s: State, paymentId: string, amount: int, asset: string, other: string)
    ensures HasOpen(OpenException(s, paymentId, MissingTheirs, amount, asset).rows, other, MissingTheirs) <==>
      HasOpen(s.rows, other, MissingTheirs) || other == paymentId
  {
    var row := ReconRow(paymentId, MissingTheirs, amount, asset, Open);
    var rows := s.rows + [row];
    assert rows[|s.rows|] == row;
    assert forall i :: 0 <= i < |s.rows| ==> rows[i] == s.rows[i];
  }
}

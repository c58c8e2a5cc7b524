/** The tamper-evident audit chain: its serialization, its verifier, and what the verifier proves
    about a table (packages/shared/audit.mjs:19-43 and 71-120). The digest is a parameter. */
module AuditChain {
  import opened Basics

  // ---------------------------------------------------------------- the digest and its input

  /** The digest rendered in hexadecimal: collision-free, never empty, and without separators. */
  ghost predicate IsDigest(hash: string -> string) {
    && (forall x, y :: hash(x) == hash(y) ==> x == y)
    && (forall x :: hash(x) != "")
    && forall x :: SEPARATOR !in hash(x)
  }

  const SEPARATOR := '\U{1F}'

  function Code(c: char): string {
    if c == SEPARATOR then "ab" else if c == 'a' then "aa" else [c]
  }

  /** A text with its separators escaped, as an example of a digest. */
  function Escape(s: string): (r: string)
    ensures SEPARATOR !in r && r != ""
  {
    if s == "" then "!" else Code(s[0]) + Escape(s[1..])
  }

  lemma SameCode(c: char, d: char, x: string, y: string)
    requires Code(c) + x == Code(d) + y
    ensures c == d && x == y
  {
    var s, t := Code(c) + x, Code(d) + y;
    assert s[0] == t[0];
    assert |Code(c)| == 2 ==> s[1] == Code(c)[1];
    assert |Code(d)| == 2 ==> t[1] == Code(d)[1];
    assert x == s[|Code(c)|..] && y == t[|Code(d)|..];
  }

  lemma OnlyEmptyIsShort(s: string)
    ensures s == "" <==> |Escape(s)| == 1
  {
  }

  lemma {:induction false} EscapeIsInjective(x: string, y: string)
    requires Escape(x) == Escape(y)
    ensures x == y
    decreases |x|
  {
    OnlyEmptyIsShort(x);
    OnlyEmptyIsShort(y);
    if x != "" {
      SameCode(x[0], y[0], Escape(x[1..]), Escape(y[1..]));
      EscapeIsInjective(x[1..], y[1..]);
      assert x == [x[0]] + x[1..] && y == [y[0]] + y[1..];
    }
  }

  /** There are such digests. */
  lemma DigestsExist()
    ensures IsDigest(Escape)
  {
    forall x, y | Escape(x) == Escape(y) ensures x == y {
      EscapeIsInjective(x, y);
    }
  }

  /** concat_ws over fields none of which is NULL. */
  function Join(fields: seq<string>): string {
    if fields == [] then ""
    else if |fields| == 1 then fields[0]
    else fields[0] + [SEPARATOR] + Join(fields[1..])
  }

  /** What is recorded; `at` is its rendering in UTC with microseconds. */
  datatype Event = Event(tenant: string, id: string, actor: string, action: string, object_: string, detail: string, at: string)

  /** A row of operations.audit_events. */
  datatype Row = Row(event: Event, seq_: int, prevHash: string, rowHash: string)

  function Fields(e: Event): seq<string> {
    [e.tenant, e.id, e.actor, e.action, e.object_, e.detail, e.at]
  }

  function Material(e: Event, prevHash: string): string {
    Join(Fields(e) + [prevHash])
  }

  predicate Clean(fields: seq<string>) {
    forall i :: 0 <= i < |fields| ==> SEPARATOR !in fields[i]
  }

  function Separators(s: string): nat {
    if s == "" then 0 else (if s[0] == SEPARATOR then 1 else 0) + Separators(s[1..])
  }

  lemma {:induction false} SeparatorsOfConcat(a: string, b: string)
    ensures Separators(a + b) == Separators(a) + Separators(b)
  {
    if a == "" {
      assert a + b == b;
    } else {
      SeparatorsOfConcat(a[1..], b);
      assert (a + b)[1..] == a[1..] + b;
    }
  }

  lemma {:induction false} NoSeparators(s: string)
    ensures Separators(s) == 0 <==> SEPARATOR !in s
  {
    if s != "" {
      NoSeparators(s[1..]);
      assert s == [s[0]] + s[1..];
    }
  }

  /** A joined text of n fields has at least n - 1 separators, and exactly that many when none is inside a field. */
  lemma {:induction false} SeparatorsOfJoin(fields: seq<string>)
    requires fields != []
    ensures Separators(Join(fields)) >= |fields| - 1
    ensures Separators(Join(fields)) == |fields| - 1 <==> Clean(fields)
  {
    NoSeparators(fields[0]);
    if |fields| > 1 {
      SeparatorsOfJoin(fields[1..]);
      SeparatorsOfConcat(fields[0], [SEPARATOR] + Join(fields[1..]));
      assert fields[0] + [SEPARATOR] + Join(fields[1..]) == fields[0] + ([SEPARATOR] + Join(fields[1..]));
      assert ([SEPARATOR] + Join(fields[1..]))[1..] == Join(fields[1..]);
    }
  }

  lemma {:induction false} FirstFieldEnds(a: string, x: string, b: string, y: string)
    requires SEPARATOR !in a && SEPARATOR !in b && a + [SEPARATOR] + x == b + [SEPARATOR] + y
    ensures a == b && x == y
    decreases |a|
  {
    var s, t := a + [SEPARATOR] + x, b + [SEPARATOR] + y;
    if a == "" || b == "" {
      assert s[0] == t[0];
      assert a == "" && b == "";
      assert x == s[1..] == t[1..] == y;
    } else {
      assert a[0] == s[0] == t[0] == b[0];
      assert s[1..] == a[1..] + [SEPARATOR] + x && t[1..] == b[1..] + [SEPARATOR] + y;
      FirstFieldEnds(a[1..], x, b[1..], y);
      assert a == [a[0]] + a[1..] && b == [b[0]] + b[1..];
    }
  }

  lemma {:induction false} CleanJoinInjective(f: seq<string>, g: seq<string>)
    requires |f| == |g| > 0 && Clean(f) && Clean(g) && Join(f) == Join(g)
    ensures f == g
    decreases |f|
  {
    if |f| > 1 {
      FirstFieldEnds(f[0], Join(f[1..]), g[0], Join(g[1..]));
      CleanJoinInjective(f[1..], g[1..]);
      assert f == [f[0]] + f[1..] && g == [g[0]] + g[1..];
    }
  }

  /** The serialization is injective against any forgery: a text joined from separator-free fields
      is joined from no other fields at all, with or without separators in them. */
  lemma JoinInjective(f: seq<string>, g: seq<string>)
    requires |f| == |g| > 0 && Clean(f) && Join(f) == Join(g)
    ensures f == g
  {
    SeparatorsOfJoin(f);
    SeparatorsOfJoin(g);
    CleanJoinInjective(f, g);
  }

  /** It is not injective once a field holds the separator. */
  lemma SeparatorInAFieldCollides()
    ensures
      var a := Event("t", "1", "x\U{1F}y", "z", "o", "d", "2026");
      var b := Event("t", "1", "x", "y\U{1F}z", "o", "d", "2026");
      a != b && Material(a, "") == Material(b, "")
  {
    var a := ["t", "1", "x\U{1F}y", "z", "o", "d", "2026"] + [""];
    var b := ["t", "1", "x", "y\U{1F}z", "o", "d", "2026"] + [""];
    assert a[4..] == b[4..];
    FirstFour(a);
    FirstFour(b);
  }

  lemma FirstFour(f: seq<string>)
    requires |f| > 4
    ensures Join(f) == f[0] + [SEPARATOR] + (f[1] + [SEPARATOR] + (f[2] + [SEPARATOR] + (f[3] + [SEPARATOR] + Join(f[4..]))))
  {
    assert f[1..][1..] == f[2..] && f[2..][1..] == f[3..] && f[3..][1..] == f[4..];
    assert Join(f[1..]) == f[1] + [SEPARATOR] + Join(f[2..]);
    assert Join(f[2..]) == f[2] + [SEPARATOR] + Join(f[3..]);
  }

  // ---------------------------------------------------------------- exactly when

  /** The text up to the first separator, and the text after it. */
  function Cut(s: string): (r: (string, string))
    requires SEPARATOR in s
    ensures r.0 + [SEPARATOR] + r.1 == s
  {
    if s[0] == SEPARATOR then ("", s[1..])
    else
      var (front, back) := Cut(s[1..]);
      ([s[0]] + front, back)
  }

  /** A separator inside a field, taken for the boundary of a neighbouring one. */
  function Shifted(f: seq<string>): (g: seq<string>)
    requires |f| >= 2 && !Clean(f)
    ensures |g| == |f|
    decreases |f|
  {
    if SEPARATOR in f[0] then
      var (front, back) := Cut(f[0]);
      [front, back + [SEPARATOR] + f[1]] + f[2..]
    else if |f| == 2 then
      var (front, back) := Cut(f[1]);
      [f[0] + [SEPARATOR] + front, back]
    else [f[0]] + Shifted(f[1..])
  }

  lemma JoinFirst(first: string, rest: seq<string>)
    requires rest != []
    ensures Join([first] + rest) == first + [SEPARATOR] + Join(rest)
  {
    assert ([first] + rest)[1..] == rest;
  }

  /** Whatever stands before the first field's text stands before the joined text. */
  lemma JoinPrefixed(prefix: string, first: string, rest: seq<string>)
    ensures Join([prefix + first] + rest) == prefix + Join([first] + rest)
  {
    if rest != [] {
      JoinFirst(prefix + first, rest);
      JoinFirst(first, rest);
      assert (prefix + first) + [SEPARATOR] + Join(rest) == prefix + (first + [SEPARATOR] + Join(rest));
    }
  }

  lemma BoundaryMoves(front: string, back: string, next: string, rest: seq<string>)
    ensures Join([front + [SEPARATOR] + back] + ([next] + rest)) == Join([front] + ([(back + [SEPARATOR]) + next] + rest))
  {
    var text := Join([next] + rest);
    JoinFirst(front + [SEPARATOR] + back, [next] + rest);
    JoinFirst(front, [(back + [SEPARATOR]) + next] + rest);
    JoinPrefixed(back + [SEPARATOR], next, rest);
    Regroup(front, [SEPARATOR], back, text);
  }

  lemma Regroup(a: string, sep: string, b: string, c: string)
    ensures (a + sep + b) + sep + c == a + sep + ((b + sep) + c)
  {
  }

  lemma ShiftedAtFirst(f: seq<string>)
    requires |f| >= 2 && SEPARATOR in f[0]
    ensures
      var (front, back) := Cut(f[0]);
      !Clean(f) && Shifted(f) == [front] + ([(back + [SEPARATOR]) + f[1]] + f[2..])
  {
  }

  lemma ShiftsAtFirst(f: seq<string>)
    requires |f| >= 2 && SEPARATOR in f[0]
    ensures !Clean(f) && Shifted(f)[0] != f[0] && Join(Shifted(f)) == Join(f)
  {
    var (front, back) := Cut(f[0]);
    ShiftedAtFirst(f);
    BoundaryMoves(front, back, f[1], f[2..]);
    assert f == [f[0]] + ([f[1]] + f[2..]);
    assert |front| < |front + [SEPARATOR] + back|;
  }

  lemma {:induction false} ShiftsUnseen(f: seq<string>)
    requires |f| >= 2 && !Clean(f)
    ensures Shifted(f) != f && Join(Shifted(f)) == Join(f)
    decreases |f|
  {
    if SEPARATOR in f[0] {
      ShiftsAtFirst(f);
    } else if |f| == 2 {
      var (front, back) := Cut(f[1]);
      assert f == [f[0]] + [f[1]] && Shifted(f) == [f[0] + [SEPARATOR] + front] + [back];
      JoinFirst(f[0], [f[1]]);
      JoinFirst(f[0] + [SEPARATOR] + front, [back]);
      assert f[0] + [SEPARATOR] + (front + [SEPARATOR] + back) == (f[0] + [SEPARATOR] + front) + [SEPARATOR] + back;
      assert |back| < |f[1]|;
    } else {
      ShiftsUnseen(f[1..]);
      assert f == [f[0]] + f[1..];
      JoinFirst(f[0], f[1..]);
      JoinFirst(f[0], Shifted(f[1..]));
      assert Shifted(f)[1..] == Shifted(f[1..]);
    }
  }

  /** The joined text determines its fields, among all lists of as many, exactly when none of them
      holds the separator. */
  lemma JoinDeterminesExactlyCleanFields(f: seq<string>)
    requires |f| >= 2
    ensures Clean(f) <==> forall g :: |g| == |f| && Join(g) == Join(f) ==> g == f
  {
    if Clean(f) {
      forall g | |g| == |f| && Join(g) == Join(f)
        ensures g == f
      {
        JoinInjective(f, g);
      }
    } else {
      ShiftsUnseen(f);
    }
  }

  lemma {:induction false} JoinLast(f: seq<string>, last: string)
    requires f != []
    ensures Join(f + [last]) == Join(f) + [SEPARATOR] + last
    decreases |f|
  {
    assert (f + [last])[1..] == f[1..] + [last];
    if |f| == 1 {
      assert f[1..] + [last] == [last];
    } else {
      JoinLast(f[1..], last);
      assert f[0] + [SEPARATOR] + (Join(f[1..]) + [SEPARATOR] + last) == (f[0] + [SEPARATOR] + Join(f[1..])) + [SEPARATOR] + last;
    }
  }

  /** The columns that hold any text; the tenant is a UUID and `at` a rendered time. */
  function TextFields(e: Event): seq<string> {
    [e.id, e.actor, e.action, e.object_, e.detail]
  }

  function WithTexts(e: Event, f: seq<string>): (r: Event)
    requires |f| == 5
    ensures TextFields(r) == f && r.tenant == e.tenant && r.at == e.at
  {
    Event(e.tenant, f[0], f[1], f[2], f[3], f[4], e.at)
  }

  lemma SameTextsSameEvent(e: Event, other: Event)
    requires TextFields(e) == TextFields(other) && e.tenant == other.tenant && e.at == other.at
    ensures e == other
  {
    var f, g := TextFields(e), TextFields(other);
    assert f[0] == g[0] && f[1] == g[1] && f[2] == g[2] && f[3] == g[3] && f[4] == g[4];
  }

  /** The hashed text is the joined text columns between what stands before and after them. */
  lemma MaterialAroundTexts(e: Event, prevHash: string)
    ensures Material(e, prevHash)
         == (e.tenant + [SEPARATOR]) + (Join(TextFields(e)) + ([SEPARATOR] + e.at + [SEPARATOR] + prevHash))
  {
    var texts := TextFields(e);
    assert Fields(e) + [prevHash] == [e.tenant] + ((texts + [e.at]) + [prevHash]);
    JoinFirst(e.tenant, (texts + [e.at]) + [prevHash]);
    JoinLast(texts + [e.at], prevHash);
    JoinLast(texts, e.at);
    Regrouped(Join(texts), [SEPARATOR], e.at, prevHash);
  }

  lemma Regrouped(a: string, sep: string, b: string, c: string)
    ensures (a + sep + b) + sep + c == a + (sep + b + sep + c)
  {
  }

  lemma SameBetween(prefix: string, a: string, b: string, suffix: string)
    requires prefix + (a + suffix) == prefix + (b + suffix)
    ensures a == b
  {
    var s, t := prefix + (a + suffix), prefix + (b + suffix);
    assert a + suffix == s[|prefix|..] && b + suffix == t[|prefix|..];
    assert |a| == |b|;
    assert a == (a + suffix)[..|a|] && b == (b + suffix)[..|b|];
  }

  lemma SameMaterialSameTexts(e: Event, other: Event, prevHash: string)
    requires other.tenant == e.tenant && other.at == e.at
    ensures Material(other, prevHash) == Material(e, prevHash) <==> Join(TextFields(other)) == Join(TextFields(e))
  {
    MaterialAroundTexts(e, prevHash);
    MaterialAroundTexts(other, prevHash);
    if Material(other, prevHash) == Material(e, prevHash) {
      SameBetween(e.tenant + [SEPARATOR], Join(TextFields(other)), Join(TextFields(e)), [SEPARATOR] + e.at + [SEPARATOR] + prevHash);
    }
  }

  /** What a row's hash is taken from says which of its tenant's events of that time it is of, exactly
      when none of the text columns holds U+001F: any other event can be exchanged for a different one
      of the same tenant and time under the same hash. */
  lemma MaterialDeterminesExactlyCleanEvents(e: Event, prevHash: string)
    ensures Clean(TextFields(e)) <==>
      forall other: Event :: other.tenant == e.tenant && other.at == e.at && Material(other, prevHash) == Material(e, prevHash) ==> other == e
  {
    if Clean(TextFields(e)) {
      forall other: Event | other.tenant == e.tenant && other.at == e.at && Material(other, prevHash) == Material(e, prevHash)
        ensures other == e
      {
        SameMaterialSameTexts(e, other, prevHash);
        JoinInjective(TextFields(e), TextFields(other));
        SameTextsSameEvent(e, other);
      }
    } else {
      ShiftsUnseen(TextFields(e));
      SameMaterialSameTexts(e, WithTexts(e, Shifted(TextFields(e))), prevHash);
    }
  }

  // ---------------------------------------------------------------- the chain of one tenant

  function InsertBySeq(r: Row, chain: seq<Row>): seq<Row> {
    if chain == [] || chain[|chain| - 1].seq_ <= r.seq_ then chain + [r]
    else InsertBySeq(r, chain[..|chain| - 1]) + [chain[|chain| - 1]]
  }

  /** The window partition of a tenant: its rows ordered by chain_seq. */
  function ChainOf(table: seq<Row>, tenant: string): seq<Row> {
    if table == [] then []
    else
      var rest, last := ChainOf(table[..|table| - 1], tenant), table[|table| - 1];
      if last.event.tenant == tenant then InsertBySeq(last, rest) else rest
  }

  function PrevHashAt(chain: seq<Row>, i: nat): string
    requires i <= |chain|
  {
    if i == 0 then "" else chain[i - 1].rowHash
  }

  datatype Reason = RowHashMismatch | MissingGenesis | SequenceGap | PrevHashMismatch

  /** The CASE of the verifying query, for one row of a partition. */
  function ReasonAt(hash: string -> string, chain: seq<Row>, i: nat): Option<Reason>
    requires i < |chain|
  {
    if chain[i].rowHash != hash(Material(chain[i].event, chain[i].prevHash)) then Some(RowHashMismatch)
    else if i == 0 && chain[i].seq_ != 1 then Some(MissingGenesis)
    else if i > 0 && chain[i].seq_ != chain[i - 1].seq_ + 1 then Some(SequenceGap)
    else if chain[i].prevHash != PrevHashAt(chain, i) then Some(PrevHashMismatch)
    else None
  }

  /** What an honest chain is: numbered 1, 2, ..., each row committing to its own fields and to the row before. */
  predicate Intact(hash: string -> string, chain: seq<Row>) {
    forall i :: 0 <= i < |chain| ==> LinkOk(hash, chain, i)
  }

  predicate LinkOk(hash: string -> string, chain: seq<Row>, i: nat)
    requires i < |chain|
  {
    && chain[i].seq_ == i + 1
    && chain[i].prevHash == PrevHashAt(chain, i)
    && chain[i].rowHash == hash(Material(chain[i].event, chain[i].prevHash))
  }

  /** The first broken row of a partition. */
  function FirstBreak(hash: string -> string, chain: seq<Row>, from: nat): (r: Option<nat>)
    requires from <= |chain|
    ensures r.Some? ==> from <= r.value < |chain| && ReasonAt(hash, chain, r.value).Some?
    ensures forall i :: from <= i < (if r.Some? then r.value else |chain|) ==> ReasonAt(hash, chain, i) == None
    decreases |chain| - from
  {
    if from == |chain| then None
    else if ReasonAt(hash, chain, from).Some? then Some(from)
    else FirstBreak(hash, chain, from + 1)
  }

  /** Rows that pass the query one by one are numbered and linked from the first on. */
  lemma {:induction false} UnbrokenIsIntact(hash: string -> string, chain: seq<Row>, n: nat)
    requires n <= |chain| && forall i :: 0 <= i < n ==> ReasonAt(hash, chain, i) == None
    ensures Intact(hash, chain[..n])
  {
    if n > 0 {
      UnbrokenIsIntact(hash, chain, n - 1);
      var front, whole := chain[..n - 1], chain[..n];
      assert ReasonAt(hash, chain, n - 1) == None;
      forall i | 0 <= i < n ensures LinkOk(hash, whole, i) {
        if i < n - 1 {
          assert LinkOk(hash, front, i);
        } else if i > 0 {
          assert LinkOk(hash, front, i - 1);
        }
      }
    }
  }

  lemma IntactIsUnbroken(hash: string -> string, chain: seq<Row>, i: nat)
    requires Intact(hash, chain) && i < |chain|
    ensures ReasonAt(hash, chain, i) == None
  {
    assert LinkOk(hash, chain, i);
    if i > 0 {
      assert LinkOk(hash, chain, i - 1);
    }
  }

  /** A chain passes the verifier exactly when it is intact, and on a break everything before the
      reported row is an intact prefix. */
  lemma FirstBreakMeaning(hash: string -> string, chain: seq<Row>)
    ensures FirstBreak(hash, chain, 0).None? <==> Intact(hash, chain)
    ensures FirstBreak(hash, chain, 0).Some? ==> Intact(hash, chain[..FirstBreak(hash, chain, 0).value])
  {
    var b := FirstBreak(hash, chain, 0);
    UnbrokenIsIntact(hash, chain, if b.Some? then b.value else |chain|);
    if b.None? {
      assert chain[..|chain|] == chain;
    } else if Intact(hash, chain) {
      IntactIsUnbroken(hash, chain, b.value);
    }
  }

  // ---------------------------------------------------------------- the whole table

  datatype Break = Break(tenant: string, place: nat, reason: Reason)

  /** The least broken tenant among those of some rows. */
  function LeastBroken(hash: string -> string, table: seq<Row>, rows: seq<Row>): Option<string> {
    if rows == [] then None
    else
      var best, tenant := LeastBroken(hash, table, rows[1..]), rows[0].event.tenant;
      if FirstBreak(hash, ChainOf(table, tenant), 0).Some? && (best.None? || LexLess(tenant, best.value)) then Some(tenant) else best
  }

  /** `verifyAuditChain`: the first break by (tenant_id, chain_seq). */
  function Verify(hash: string -> string, table: seq<Row>): Option<Break> {
    match LeastBroken(hash, table, table)
    case None => None
    case Some(tenant) =>
      var chain := ChainOf(table, tenant);
      match FirstBreak(hash, chain, 0)
      case None => None
      case Some(i) => Some(Break(tenant, i, ReasonAt(hash, chain, i).value))
  }

  lemma {:induction false} LeastBrokenIsLeast(hash: string -> string, table: seq<Row>, rows: seq<Row>)
    ensures
      var best := LeastBroken(hash, table, rows);
      && (best.Some? ==> FirstBreak(hash, ChainOf(table, best.value), 0).Some?)
      && forall i :: 0 <= i < |rows| && FirstBreak(hash, ChainOf(table, rows[i].event.tenant), 0).Some? ==>
           best.Some? && (rows[i].event.tenant == best.value || LexLess(best.value, rows[i].event.tenant))
  {
    if rows != [] {
      LeastBrokenIsLeast(hash, table, rows[1..]);
      var rest, best := LeastBroken(hash, table, rows[1..]), LeastBroken(hash, table, rows);
      forall i | 0 <= i < |rows| && FirstBreak(hash, ChainOf(table, rows[i].event.tenant), 0).Some?
        ensures best.Some? && (rows[i].event.tenant == best.value || LexLess(best.value, rows[i].event.tenant))
      {
        if i > 0 {
          assert rows[i] == rows[1..][i - 1];
          if best != rest {
            assert LexLess(best.value, rest.value);
            if rows[i].event.tenant != rest.value { LexIsTransitive(best.value, rest.value, rows[i].event.tenant); }
          }
        } else if rest.Some? {
          LexIsTotal(rows[0].event.tenant, rest.value);
        }
      }
    }
  }

  lemma {:induction false} InsertMembers(r: Row, chain: seq<Row>, x: Row)
    ensures x in InsertBySeq(r, chain) <==> x == r || x in chain
  {
    if chain != [] && chain[|chain| - 1].seq_ > r.seq_ {
      InsertMembers(r, chain[..|chain| - 1], x);
      assert chain == chain[..|chain| - 1] + [chain[|chain| - 1]];
    }
  }

  lemma {:induction false} ChainMembers(table: seq<Row>, tenant: string, x: Row)
    ensures x in ChainOf(table, tenant) <==> x in table && x.event.tenant == tenant
  {
    if table != [] {
      var front, last := table[..|table| - 1], table[|table| - 1];
      ChainMembers(front, tenant, x);
      InsertMembers(last, ChainOf(front, tenant), x);
      assert table == front + [last];
    }
  }

  lemma {:induction false} NoRowsNoChain(table: seq<Row>, tenant: string)
    requires forall i :: 0 <= i < |table| ==> table[i].event.tenant != tenant
    ensures ChainOf(table, tenant) == []
  {
    if table != [] {
      NoRowsNoChain(table[..|table| - 1], tenant);
    }
  }

  ghost predicate AllIntact(hash: string -> string, table: seq<Row>) {
    forall tenant :: Intact(hash, ChainOf(table, tenant))
  }

  /** The verifier accepts a table exactly when every tenant's chain is intact. */
  lemma AcceptedExactlyWhenIntact(hash: string -> string, table: seq<Row>)
    ensures Verify(hash, table).None? <==> AllIntact(hash, table)
  {
    LeastBrokenIsLeast(hash, table, table);
    var best := LeastBroken(hash, table, table);
    if best.None? {
      forall tenant ensures Intact(hash, ChainOf(table, tenant)) {
        FirstBreakMeaning(hash, ChainOf(table, tenant));
        if FirstBreak(hash, ChainOf(table, tenant), 0).Some? {
          BrokenTenantHasRows(hash, table, tenant);
        }
      }
    } else {
      FirstBreakMeaning(hash, ChainOf(table, best.value));
    }
  }

  lemma BrokenTenantHasRows(hash: string -> string, table: seq<Row>, tenant: string)
    requires FirstBreak(hash, ChainOf(table, tenant), 0).Some?
    ensures exists i :: 0 <= i < |table| && table[i].event.tenant == tenant
  {
    if forall i :: 0 <= i < |table| ==> table[i].event.tenant != tenant {
      NoRowsNoChain(table, tenant);
    }
  }

  /** On a broken table, the rows of the reported tenant before the reported one form an intact
      prefix of its chain, and every tenant ordered before it is intact. */
  lemma ReportLeavesIntactPrefix(hash: string -> string, table: seq<Row>, other: string)
    requires Verify(hash, table).Some?
    ensures
      var b := Verify(hash, table).value;
      var chain := ChainOf(table, b.tenant);
      && b.place < |chain| && ReasonAt(hash, chain, b.place) == Some(b.reason)
      && Intact(hash, chain[..b.place])
      && (LexLess(other, b.tenant) ==> Intact(hash, ChainOf(table, other)))
  {
    var b := Verify(hash, table).value;
    LeastBrokenIsLeast(hash, table, table);
    FirstBreakMeaning(hash, ChainOf(table, b.tenant));
    FirstBreakMeaning(hash, ChainOf(table, other));
    if LexLess(other, b.tenant) && FirstBreak(hash, ChainOf(table, other), 0).Some? {
      BrokenTenantHasRows(hash, table, other);
      LexIsTotal(other, b.tenant);
    }
  }

  // ---------------------------------------------------------------- tampering

  lemma PlaceInChain(hash: string -> string, chain: seq<Row>, x: Row)
    requires Intact(hash, chain) && x in chain
    ensures 1 <= x.seq_ <= |chain| && chain[x.seq_ - 1] == x
  {
    var k :| 0 <= k < |chain| && chain[k] == x;
    assert LinkOk(hash, chain, k);
  }

  lemma RestIsOfTheWhole(hash: string -> string, honest: seq<Row>, left: seq<Row>, tenant: string, x: Row)
    requires AllIntact(hash, honest) && (forall i :: 0 <= i < |left| ==> left[i] in honest) && x in ChainOf(left, tenant)
    ensures 1 <= x.seq_ <= |ChainOf(honest, tenant)| && ChainOf(honest, tenant)[x.seq_ - 1] == x
  {
    ChainMembers(left, tenant, x);
    ChainMembers(honest, tenant, x);
    PlaceInChain(hash, ChainOf(honest, tenant), x);
  }

  /** Each row of `rest` is the row of `whole` with its number. */
  predicate PlacedIn(rest: seq<Row>, whole: seq<Row>) {
    forall i :: 0 <= i < |rest| ==> 1 <= rest[i].seq_ <= |whole| && whole[rest[i].seq_ - 1] == rest[i]
  }

  lemma PrefixIsIntact(hash: string -> string, whole: seq<Row>, rest: seq<Row>)
    requires Intact(hash, whole) && rest <= whole
    ensures Intact(hash, rest)
  {
    forall i | 0 <= i < |rest| ensures LinkOk(hash, rest, i) {
      assert LinkOk(hash, whole, i);
    }
  }

  lemma IntactIsPrefix(hash: string -> string, whole: seq<Row>, rest: seq<Row>)
    requires PlacedIn(rest, whole) && Intact(hash, rest)
    ensures rest <= whole
  {
    forall i | 0 <= i < |rest|
      ensures i < |whole| && rest[i] == whole[i]
    {
      assert LinkOk(hash, rest, i);
    }
    if rest != [] {
      assert LinkOk(hash, rest, |rest| - 1);
    }
  }

  /** When some rows of an accepted table are deleted and nothing else is done, what is left of a
      tenant's chain passes exactly when it is a prefix: only its newest rows are gone. */
  lemma DeletionsPassExactlyWhenPrefix(hash: string -> string, honest: seq<Row>, left: seq<Row>, tenant: string)
    requires AllIntact(hash, honest) && forall i :: 0 <= i < |left| ==> left[i] in honest
    ensures Intact(hash, ChainOf(left, tenant)) <==> ChainOf(left, tenant) <= ChainOf(honest, tenant)
  {
    var whole, rest := ChainOf(honest, tenant), ChainOf(left, tenant);
    forall i | 0 <= i < |rest|
      ensures 1 <= rest[i].seq_ <= |whole| && whole[rest[i].seq_ - 1] == rest[i]
    {
      RestIsOfTheWhole(hash, honest, left, tenant, rest[i]);
    }
    if Intact(hash, rest) {
      IntactIsPrefix(hash, whole, rest);
    }
    if rest <= whole {
      assert Intact(hash, whole);
      PrefixIsIntact(hash, whole, rest);
    }
  }

  /** An honest chain has no separator in its text fields. */
  predicate CleanChain(chain: seq<Row>) {
    forall i :: 0 <= i < |chain| ==> Clean(Fields(chain[i].event))
  }

  lemma MaterialDetermines(e: Event, prevHash: string, e': Event, prevHash': string)
    requires Clean(Fields(e)) && SEPARATOR !in prevHash && Material(e, prevHash) == Material(e', prevHash')
    ensures e == e' && prevHash == prevHash'
  {
    var f, g := Fields(e) + [prevHash], Fields(e') + [prevHash'];
    assert Clean(f);
    JoinInjective(f, g);
    assert f[0] == g[0] && f[1] == g[1] && f[2] == g[2] && f[3] == g[3];
    assert f[4] == g[4] && f[5] == g[5] && f[6] == g[6] && f[7] == g[7];
  }

  lemma PrevHashIsClean(hash: string -> string, chain: seq<Row>, i: nat)
    requires IsDigest(hash) && Intact(hash, chain) && i <= |chain|
    ensures SEPARATOR !in PrevHashAt(chain, i) && (i > 0 ==> PrevHashAt(chain, i) != "")
  {
    if i > 0 {
      assert LinkOk(hash, chain, i - 1);
      assert PrevHashAt(chain, i) == hash(Material(chain[i - 1].event, chain[i - 1].prevHash));
    }
  }

  lemma IntactFront(hash: string -> string, chain: seq<Row>)
    requires Intact(hash, chain) && chain != []
    ensures Intact(hash, chain[..|chain| - 1])
  {
    var front := chain[..|chain| - 1];
    forall i | 0 <= i < |front| ensures LinkOk(hash, front, i) {
      assert LinkOk(hash, chain, i);
    }
  }

  /** A chain that passes and has the same newest hash as an honest one equals it row by row: no
      history can be rewritten, lengthened or shortened under a hash somebody has kept. */
  lemma {:induction false} SameHeadSameChain(hash: string -> string, honest: seq<Row>, other: seq<Row>)
    requires IsDigest(hash) && Intact(hash, honest) && Intact(hash, other) && CleanChain(honest)
    requires honest != [] && other != [] && honest[|honest| - 1].rowHash == other[|other| - 1].rowHash
    ensures honest == other
    decreases |honest|
  {
    var m, n := |honest| - 1, |other| - 1;
    assert LinkOk(hash, honest, m) && LinkOk(hash, other, n);
    PrevHashIsClean(hash, honest, m);
    PrevHashIsClean(hash, other, n);
    MaterialDetermines(honest[m].event, honest[m].prevHash, other[n].event, other[n].prevHash);
    if m > 0 && n > 0 {
      IntactFront(hash, honest);
      IntactFront(hash, other);
      assert CleanChain(honest[..m]);
      SameHeadSameChain(hash, honest[..m], other[..n]);
    }
    assert honest == honest[..m] + [honest[m]] && other == other[..n] + [other[n]];
  }

  /** An edited row whose hash was left alone is reported, at that row. */
  lemma EditIsReported(hash: string -> string, chain: seq<Row>, k: nat, edited: Row)
    requires IsDigest(hash) && Intact(hash, chain) && CleanChain(chain) && k < |chain|
    requires edited.rowHash == chain[k].rowHash
    requires edited.event != chain[k].event || edited.prevHash != chain[k].prevHash
    ensures ReasonAt(hash, chain[k := edited], k) == Some(RowHashMismatch)
    ensures FirstBreak(hash, chain[k := edited], 0) == Some(k)
  {
    assert LinkOk(hash, chain, k);
    PrevHashIsClean(hash, chain, k);
    if Material(edited.event, edited.prevHash) == Material(chain[k].event, chain[k].prevHash) {
      MaterialDetermines(chain[k].event, chain[k].prevHash, edited.event, edited.prevHash);
    }
    BeforeTheChange(hash, chain, chain[k := edited], k);
  }

  predicate AgreeUpTo(a: seq<Row>, b: seq<Row>, k: nat) {
    k <= |a| && k <= |b| && forall i :: 0 <= i < k ==> a[i] == b[i]
  }

  lemma {:induction false} FirstBreakIs(hash: string -> string, chain: seq<Row>, from: nat, k: nat)
    requires from <= k < |chain| && ReasonAt(hash, chain, k).Some?
    requires forall i :: from <= i < k ==> ReasonAt(hash, chain, i) == None
    ensures FirstBreak(hash, chain, from) == Some(k)
    decreases k - from
  {
    if from < k {
      FirstBreakIs(hash, chain, from + 1, k);
    }
  }

  lemma SameReason(hash: string -> string, a: seq<Row>, b: seq<Row>, i: nat)
    requires AgreeUpTo(a, b, i + 1)
    ensures ReasonAt(hash, a, i) == ReasonAt(hash, b, i)
  {
    assert a[i] == b[i] && (i > 0 ==> a[i - 1] == b[i - 1]);
  }

  lemma BeforeTheChange(hash: string -> string, chain: seq<Row>, changed: seq<Row>, k: nat)
    requires Intact(hash, chain) && AgreeUpTo(chain, changed, k) && k < |changed|
    requires ReasonAt(hash, changed, k).Some?
    ensures FirstBreak(hash, changed, 0) == Some(k)
  {
    forall i | 0 <= i < k ensures ReasonAt(hash, changed, i) == None {
      IntactIsUnbroken(hash, chain, i);
      SameReason(hash, chain, changed, i);
    }
    FirstBreakIs(hash, changed, 0, k);
  }

  /** An edited row that was hashed anew is reported at its successor, which still commits to the old one. */
  lemma RelinkIsReported(hash: string -> string, chain: seq<Row>, k: nat, edited: Row)
    requires IsDigest(hash) && Intact(hash, chain) && CleanChain(chain) && k + 1 < |chain|
    requires edited.event != chain[k].event && edited.rowHash == hash(Material(edited.event, edited.prevHash))
    requires edited.seq_ == chain[k].seq_ && edited.prevHash == chain[k].prevHash
    ensures FirstBreak(hash, chain[k := edited], 0) == Some(k + 1)
    ensures ReasonAt(hash, chain[k := edited], k + 1) == Some(PrevHashMismatch)
  {
    var changed := chain[k := edited];
    assert LinkOk(hash, chain, k) && LinkOk(hash, chain, k + 1);
    PrevHashIsClean(hash, chain, k);
    if Material(edited.event, edited.prevHash) == Material(chain[k].event, chain[k].prevHash) {
      MaterialDetermines(chain[k].event, chain[k].prevHash, edited.event, edited.prevHash);
    }
    RelinkedPrefix(hash, chain, k, edited);
    BeforeTheChange(hash, changed[..k + 1], changed, k + 1);
  }

  lemma RelinkedPrefix(hash: string -> string, chain: seq<Row>, k: nat, edited: Row)
    requires Intact(hash, chain) && k < |chain| && edited.rowHash == hash(Material(edited.event, edited.prevHash))
    requires edited.seq_ == chain[k].seq_ && edited.prevHash == chain[k].prevHash
    ensures Intact(hash, chain[k := edited][..k + 1])
  {
    var prefix := chain[k := edited][..k + 1];
    forall i | 0 <= i < |prefix| ensures LinkOk(hash, prefix, i) {
      assert LinkOk(hash, chain, i);
    }
  }

  /** A deleted row that is not the newest is reported at the row that follows it. */
  lemma DeletionIsReported(hash: string -> string, chain: seq<Row>, k: nat)
    requires Intact(hash, chain) && k + 1 < |chain|
    ensures
      var left := chain[..k] + chain[k + 1..];
      FirstBreak(hash, left, 0) == Some(k) && ReasonAt(hash, left, k) == Some(if k == 0 then MissingGenesis else SequenceGap)
  {
    var left := chain[..k] + chain[k + 1..];
    assert left[k] == chain[k + 1] && (k > 0 ==> left[k - 1] == chain[k - 1]);
    assert LinkOk(hash, chain, k + 1) && (k > 0 ==> LinkOk(hash, chain, k - 1));
    BeforeTheChange(hash, chain, left, k);
  }
}

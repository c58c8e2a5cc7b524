/** Taking in a provider's statement: services/reconciliation-service/src/statements.mjs:12-66. */
module StatementIngest {
  import opened Basics
  import opened StatementMatcher

  /** A line as sent; the amount is None when it is not a finite number. */
  datatype IncomingLine = IncomingLine(providerRef: string, amount: Option<int>, asset: string, occurredAt: Option<int>)

  datatype Incoming = Incoming(providerId: string, externalId: string, lines: seq<IncomingLine>)

  datatype Reply =
    | Ingested(statement: string, count: nat)
    | DuplicateStatement
    | MissingIdentity
    | ForeignProvider
    | MissingLines
    | InvalidLine

  /** provider_statements by its unique key, the lines, and the match jobs enqueued. */
  datatype Tables = Tables(statements: map<(string, string), string>, lines: seq<Line>, jobs: seq<string>)

  predicate ValidLine(l: IncomingLine) {
    l.providerRef != "" && l.amount.Some? && l.asset != ""
  }

  predicate AllValid(lines: seq<IncomingLine>) {
    forall i :: 0 <= i < |lines| ==> ValidLine(lines[i])
  }

  function PendingLine(statement: string, l: IncomingLine): Line
    requires ValidLine(l)
  {
    Line(statement, l.providerRef, l.amount.value, l.asset, l.occurredAt, LinePending, None)
  }

  function PendingLines(statement: string, lines: seq<IncomingLine>): (r: seq<Line>)
    requires AllValid(lines)
    ensures |r| == |lines| && forall i :: 0 <= i < |lines| ==> r[i] == PendingLine(statement, lines[i])
  {
    seq(|lines|, i requires 0 <= i < |lines| => PendingLine(statement, lines[i]))
  }

  /** The statement, its lines and its match job go in together, unless its key is taken. `newId` is
      the id the database generates. */
  function Ingest(t: Tables, providers: set<string>, body: Incoming, newId: string): (Tables, Reply) {
    var key := (body.providerId, body.externalId);
    if body.providerId == "" || body.externalId == "" then (t, MissingIdentity)
    else if body.providerId !in providers then (t, ForeignProvider)
    else if body.lines == [] then (t, MissingLines)
    else if !AllValid(body.lines) then (t, InvalidLine)
    else if key in t.statements then (t, DuplicateStatement)
    else
      (Tables(t.statements[key := newId], t.lines + PendingLines(newId, body.lines), t.jobs + [newId]),
       Ingested(newId, |body.lines|))
  }

  /** Ingesting never touches a line that is there, and keeps one matched line per reference. */
  lemma IngestKeepsLines(t: Tables, providers: set<string>, body: Incoming, newId: string)
    requires OneMatchedLinePerRef(t.lines)
    ensures
      var t' := Ingest(t, providers, body, newId).0;
      t.lines <= t'.lines && OneMatchedLinePerRef(t'.lines)
      && forall i :: |t.lines| <= i < |t'.lines| ==> t'.lines[i].status == LinePending
  {
  }

  function IngestAll(t: Tables, providers: set<string>, bodies: seq<(Incoming, string)>): Tables
    decreases |bodies|
  {
    if bodies == [] then t else IngestAll(Ingest(t, providers, bodies[0].0, bodies[0].1).0, providers, bodies[1..])
  }

  /** Delivering a statement again, after whatever else was delivered and with whatever lines, changes
      nothing: it has one id, one set of lines and one match job for ever. */
  lemma {:induction false} RedeliveryChangesNothing(
      t: Tables, providers: set<string>, bodies: seq<(Incoming, string)>, again: Incoming, newId: string)
    requires (again.providerId, again.externalId) in t.statements
    ensures
      var t' := IngestAll(t, providers, bodies);
      && Ingest(t', providers, again, newId).0 == t'
      && (again.providerId, again.externalId) in t'.statements
      && t'.statements[(again.providerId, again.externalId)] == t.statements[(again.providerId, again.externalId)]
    decreases |bodies|
  {
    if bodies != [] {
      RedeliveryChangesNothing(Ingest(t, providers, bodies[0].0, bodies[0].1).0, providers, bodies[1..], again, newId);
    }
  }

  // ---------------------------------------------------------------- what is taken in

  /** A statement of one of the tenant's providers with an identity, at least one line, and a reference,
      an amount and an asset on every line. */
  predicate Acceptable(body: Incoming, providers: set<string>) {
    && body.providerId != "" && body.externalId != "" && body.providerId in providers && |body.lines| > 0
    && forall i :: 0 <= i < |body.lines| ==>
         body.lines[i].providerRef != "" && body.lines[i].amount.Some? && body.lines[i].asset != ""
  }

  /** A line waiting to be matched, with what was sent. */
  predicate CameFrom(line: Line, statement: string, sent: IncomingLine) {
    && line.statement == statement && line.ref == sent.providerRef && Some(line.amount) == sent.amount
    && line.asset == sent.asset && line.occurredAt == sent.occurredAt
    && line.status == LinePending && line.confidence.None?
  }

  /** Exactly the acceptable statements that are not there yet go in, with all their lines and one
      match job; anything else changes nothing. */
  lemma TakenInExactlyWhen(t: Tables, providers: set<string>, body: Incoming, newId: string)
    ensures
      var (t', reply) := Ingest(t, providers, body, newId);
      var key, n := (body.providerId, body.externalId), |t.lines|;
      && (reply == Ingested(newId, |body.lines|) <==> Acceptable(body, providers) && key !in t.statements)
      && (reply == DuplicateStatement <==> Acceptable(body, providers) && key in t.statements)
      && (reply.Ingested? ==>
            && t'.statements == t.statements[key := newId] && t'.jobs == t.jobs + [newId]
            && |t'.lines| == n + |body.lines| && t'.lines[..n] == t.lines
            && forall i :: 0 <= i < |body.lines| ==> CameFrom(t'.lines[n + i], newId, body.lines[i]))
      && (!reply.Ingested? ==> t' == t)
  {
  }

  /** The refusals, in the order they are checked in. */
  lemma RefusedExactlyWhen(t: Tables, providers: set<string>, body: Incoming, newId: string)
    ensures
      var reply := Ingest(t, providers, body, newId).1;
      var named := body.providerId != "" && body.externalId != "";
      && (reply == MissingIdentity <==> !named)
      && (reply == ForeignProvider <==> named && body.providerId !in providers)
      && (reply == MissingLines <==> named && body.providerId in providers && body.lines == [])
      && (reply == InvalidLine <==>
            named && body.providerId in providers && body.lines != [] && !Acceptable(body, providers))
  {
  }

  /** Of any deliveries, the statements there afterwards are those there before and the acceptable ones. */
  lemma {:induction false} StatementsAfterAll(t: Tables, providers: set<string>, bodies: seq<(Incoming, string)>, key: (string, string))
    ensures key in IngestAll(t, providers, bodies).statements <==>
      key in t.statements
      || exists i :: 0 <= i < |bodies| && (bodies[i].0.providerId, bodies[i].0.externalId) == key && Acceptable(bodies[i].0, providers)
    decreases |bodies|
  {
    if bodies != [] {
      var first, rest := bodies[0], bodies[1..];
      TakenInExactlyWhen(t, providers, first.0, first.1);
      StatementsAfterAll(Ingest(t, providers, first.0, first.1).0, providers, rest, key);
      assert bodies == [first] + rest;
    }
  }

  class StatementStore {
    var statements: map<(string, string), string>
    var lines: seq<Line>
    var jobs: seq<string>

    function Contents(): Tables
      reads this
    {
      Tables(statements, lines, jobs)
    }

    /** `ingestStatement`. */
    method IngestStatement(providers: set<string>, body: Incoming, newId: string) returns (reply: Reply)
      modifies this
      ensures (Contents(), reply) == Ingest(old(Contents()), providers, body, newId)
    {
      if body.providerId == "" || body.externalId == "" {
        return MissingIdentity;
      }
      if body.providerId !in providers {
        return ForeignProvider;
      }
      if body.lines == [] {
        return MissingLines;
      }
      for i := 0 to |body.lines|
        invariant AllValid(body.lines[..i])
      {
        if !ValidLine(body.lines[i]) {
          assert !AllValid(body.lines);
          return InvalidLine;
        }
        assert body.lines[..i + 1] == body.lines[..i] + [body.lines[i]];
      }
      assert body.lines[..|body.lines|] == body.lines;
      if (body.providerId, body.externalId) in statements {
        return DuplicateStatement;
      }
      statements := statements[(body.providerId, body.externalId) := newId];
      ghost var added := PendingLines(newId, body.lines);
      for i := 0 to |body.lines|
        invariant lines == old(lines) + added[..i] && jobs == old(jobs)
        invariant statements == old(statements)[(body.providerId, body.externalId) := newId]
      {
        lines := lines + [PendingLine(newId, body.lines[i])];
        assert added[..i + 1] == added[..i] + [added[i]];
      }
      assert added[..|body.lines|] == added;
      assert lines == old(lines) + added;
      jobs := jobs + [newId];
      reply := Ingested(newId, |body.lines|);
    }
  }
}

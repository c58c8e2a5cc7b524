/** The transactional outbox and its relays: rows, routes and the statements on them
    (packages/shared/outbox.mjs, services/relay-worker/src/index.mjs:79-122). */
module Outbox {
  import opened Basics

  datatype Route = Route(consumer: string, path: string)

  function RouteOf(eventType: string): Option<Route> {
    if eventType == "audit.event_recorded" then Some(Route("operations", "/audit"))
    else if eventType == "reconciliation.exception_opened" then Some(Route("reconciliation", "/reconciliation/exceptions"))
    else if eventType == "operations.alert_created" then Some(Route("operations", "/alerts"))
    else None
  }

  datatype Event = Event(eventType: string, published: bool, attempts: nat, deadLettered: bool, nextAttempt: Option<int>)

  /** The table, in order of created_at; an event's id is its place. */
  type Table = seq<Event>
  type EventId = nat

  predicate Live(e: Event) {
    !e.published && !e.deadLettered
  }

  predicate Due(e: Event, now: int) {
    Live(e) && (e.nextAttempt.None? || e.nextAttempt.value <= now)
  }

  function Appended(eventType: string): Event {
    Event(eventType, false, 0, false, None)
  }

  function Published(e: Event): Event {
    e.(published := true)
  }

  const BACKOFF_CAP_MS := 60000

  /** Milliseconds to wait after an attempt, from the count before it. */
  function Backoff(attempts: nat): (ms: int)
    ensures 0 < ms <= BACKOFF_CAP_MS
  {
    Min(250 * Power2(attempts + 1), BACKOFF_CAP_MS)
  }

  /** The wait starts at half a second and doubles up to the cap. */
  lemma BackoffDoubles(attempts: nat)
    ensures Backoff(0) == 500 && Backoff(attempts + 1) == Min(2 * Backoff(attempts), BACKOFF_CAP_MS)
  {
    assert Power2(attempts + 2) == 2 * Power2(attempts + 1);
  }

  /** Where the attempts of one relay stop. */
  function Cap(maxRetries: int): nat {
    Max(maxRetries, 1)
  }

  /** `recordDeliveryAttempt`: the UPDATE has no guard on the row's state. */
  function Attempted(e: Event, maxRetries: int, now: int): Event {
    if e.attempts + 1 >= maxRetries then e.(attempts := e.attempts + 1, deadLettered := true)
    else e.(attempts := e.attempts + 1, nextAttempt := Some(now + Backoff(e.attempts)))
  }

  /** Appending the events of one transaction. */
  function AppendAll(table: Table, eventTypes: seq<string>): (r: Table)
    ensures |r| == |table| + |eventTypes| && table <= r
    ensures forall i :: 0 <= i < |eventTypes| ==> r[|table| + i] == Appended(eventTypes[i])
  {
    table + seq(|eventTypes|, i requires 0 <= i < |eventTypes| => Appended(eventTypes[i]))
  }

  method AppendOutboxEvents(table: Table, eventTypes: seq<string>) returns (r: Table)
    ensures r == AppendAll(table, eventTypes)
  {
    r := table;
    for i := 0 to |eventTypes|
      invariant r == AppendAll(table, eventTypes[..i])
    {
      r := r + [Appended(eventTypes[i])];
    }
    assert eventTypes[..|eventTypes|] == eventTypes;
  }
}

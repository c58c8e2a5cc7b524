/** What a poll of the relay selects and what becomes of an event, in terms of its row and of how the
    calls end (services/relay-worker/src/index.mjs:42-122, packages/shared/outbox.mjs:9-13). */
module RelayDecisions {
  import opened Basics
  import opened Outbox
  import opened Relay

  /** The catalog: three types of events, each with an endpoint of its own. */
  lemma RoutesAreTheCatalog(eventType: string, other: string)
    ensures RouteOf(eventType) == Some(Route("operations", "/audit")) <==> eventType == "audit.event_recorded"
    ensures RouteOf(eventType) == Some(Route("reconciliation", "/reconciliation/exceptions")) <==> eventType == "reconciliation.exception_opened"
    ensures RouteOf(eventType) == Some(Route("operations", "/alerts")) <==> eventType == "operations.alert_created"
    ensures RouteOf(eventType).Some? && RouteOf(eventType) == RouteOf(other) ==> eventType == other
    ensures RouteOf(eventType).Some? <==>
      eventType in ["audit.event_recorded", "reconciliation.exception_opened", "operations.alert_created"]
  {
    var audit, exceptions, alerts := Route("operations", "/audit"), Route("reconciliation", "/reconciliation/exceptions"), Route("operations", "/alerts");
    assert audit != exceptions && exceptions != alerts;
    assert audit.path[1] != alerts.path[1] || audit.path[2] != alerts.path[2];
  }

  // ---------------------------------------------------------------- the batch

  /** Neither published nor dead-lettered, and not waiting for a later attempt. */
  predicate Waiting(e: Event, now: int) {
    !e.published && !e.deadLettered && (e.nextAttempt.Some? ==> e.nextAttempt.value <= now)
  }

  /** How many of the events from one place up to another are waiting. */
  function WaitingIn(table: Table, now: int, from: nat, to: nat): nat
    requires to <= |table|
    decreases |table| - from
  {
    if from >= to then 0 else (if Waiting(table[from], now) then 1 else 0) + WaitingIn(table, now, from + 1, to)
  }

  lemma {:induction false} DueFromExactly(table: Table, now: int, i: nat, limit: nat, id: EventId)
    requires i <= |table|
    ensures id in DueFrom(table, now, i, limit) <==>
      i <= id < |table| && Waiting(table[id], now) && WaitingIn(table, now, i, id) < limit
    decreases |table| - i
  {
    if i < |table| && limit > 0 {
      DueFromExactly(table, now, i + 1, if Due(table[i], now) then limit - 1 else limit, id);
    }
  }

  /** A poll takes up an event exactly when it is waiting and fewer than twenty older ones are. */
  lemma PickedExactlyWhen(table: Table, now: int, id: EventId)
    ensures id in Batch(table, now) <==> id < |table| && Waiting(table[id], now) && WaitingIn(table, now, 0, id) < 20
  {
    DueFromExactly(table, now, 0, 20, id);
  }

  // ---------------------------------------------------------------- one event

  predicate TookEffect(o: Outcome) {
    o.EffectOk? || o.EffectError?
  }

  /** An event is published exactly when it had no route or was delivered and the mark took effect, and
      counts an attempt exactly when it had a route, was not both delivered and seen to be marked, and the
      count took effect. The loop goes on exactly when its last statement was answered. */
  lemma ProcessedExactly(e: Event, maxRetries: int, a: RowAnswer)
    requires Live(e)
    ensures
      var (e', goesOn) := Processed(e, maxRetries, a);
      var routed := RouteOf(e.eventType).Some?;
      var done := a.delivered && a.marked.EffectOk?;
      && (e'.published <==> TookEffect(a.marked) && (routed ==> a.delivered))
      && (e'.attempts == e.attempts + 1 <==> routed && !done && TookEffect(a.recorded))
      && (e'.attempts != e.attempts + 1 ==> e'.attempts == e.attempts && e'.nextAttempt == e.nextAttempt && !e'.deadLettered)
      && e'.eventType == e.eventType
      && (goesOn <==> if routed && !done then a.recorded.EffectOk? else a.marked.EffectOk?)
  {
  }

  /** A counted attempt is the last one from the limit on; before it the next one waits half a second,
      doubled with every attempt before, and a minute at most. */
  lemma AttemptedExactly(e: Event, maxRetries: int, now: int)
    ensures
      var e' := Attempted(e, maxRetries, now);
      && e'.attempts == e.attempts + 1 && e'.published == e.published && e'.eventType == e.eventType
      && (e'.deadLettered <==> e.deadLettered || e.attempts + 1 >= maxRetries)
      && (e.attempts + 1 < maxRetries ==> exists wait :: e'.nextAttempt == Some(now + wait) && IsWait(wait, e.attempts))
      && (e.attempts + 1 >= maxRetries ==> e'.nextAttempt == e.nextAttempt)
  {
    BackoffIsWait(e.attempts);
  }

  predicate IsWait(ms: int, attempts: nat) {
    ms == (if 500 * Power2(attempts) < 60000 then 500 * Power2(attempts) else 60000)
  }

  lemma BackoffIsWait(attempts: nat)
    ensures IsWait(Backoff(attempts), attempts)
  {
  }
}

/** At-least-once delivery with an exactly-once effect: several relays, requests delivered late or
    more than once, lost replies and crashes between any two statements
    (packages/shared/outbox.mjs:32-56, services/relay-worker/src/index.mjs:42-96). */
module Delivery {
  import opened Basics
  import opened Outbox

  /** A relay loops over the rows it read; the first of `rest` is the current one. */
  datatype Pc = Next | Waiting | Marking | Recording
  datatype Relay = Relay(rest: seq<EventId>, pc: Pc)

  /** Work a consumer committed on account of an event. */
  datatype Effect = Effect(event: EventId, route: Route)

  type RelayId = nat

  datatype State = State(
    table: Table, inbox: set<(EventId, string)>, effects: seq<Effect>,
    sent: set<EventId>, answered: set<EventId>, relays: map<RelayId, Relay>)

  datatype Step =
    | Append(eventTypes: seq<string>)
    | Poll(relay: RelayId, picked: seq<EventId>, now: int)
    | Send(relay: RelayId)
    | Skip(relay: RelayId, outcome: Outcome)
    | Deliver(event: EventId, commits: bool)
    | Answer(relay: RelayId, ok: bool)
    | Mark(relay: RelayId, outcome: Outcome)
    | Record(relay: RelayId, now: int, outcome: Outcome)
    | Crash(relay: RelayId)

  function RouteIn(table: Table, id: EventId): Option<Route> {
    if id < |table| then RouteOf(table[id].eventType) else None
  }

  predicate Pickable(table: Table, picked: seq<EventId>, now: int) {
    NoRepeats(picked) && forall i :: 0 <= i < |picked| ==> picked[i] < |table| && Due(table[picked[i]], now)
  }

  function Set(s: State, r: RelayId, rest: seq<EventId>, pc: Pc): State {
    s.(relays := s.relays[r := Relay(rest, pc)])
  }

  /** A relay is at a statement, with a current row. */
  predicate At(s: State, r: RelayId, pc: Pc) {
    r in s.relays && s.relays[r].pc == pc && s.relays[r].rest != []
  }

  function Current(s: State, r: RelayId): EventId
    requires r in s.relays && s.relays[r].rest != []
  {
    s.relays[r].rest[0]
  }

  function Advance(s: State, r: RelayId): State
    requires r in s.relays && s.relays[r].rest != []
  {
    Set(s, r, s.relays[r].rest[1..], Next)
  }

  /** The poll is abandoned: the worker loop catches the error and polls again later. */
  function Abandon(s: State, r: RelayId): State {
    Set(s, r, [], Next)
  }

  function Publish(s: State, id: EventId): State {
    s.(table := if id < |s.table| then s.table[id := Published(s.table[id])] else s.table)
  }

  function Attempt(s: State, id: EventId, maxRetries: int, now: int): State {
    s.(table := if id < |s.table| then s.table[id := Attempted(s.table[id], maxRetries, now)] else s.table)
  }

  /** The consumer's transaction: claim the inbox row, and do the work only if it was not there. */
  function Consume(s: State, id: EventId, route: Route): State {
    if (id, route.consumer) in s.inbox then s.(answered := s.answered + {id})
    else
      s.(inbox := s.inbox + {(id, route.consumer)}, effects := s.effects + [Effect(id, route)],
         answered := s.answered + {id})
  }

  function ApplySkip(s: State, r: RelayId, outcome: Outcome): State
    requires At(s, r, Next)
  {
    match outcome
    case EffectOk => Advance(Publish(s, Current(s, r)), r)
    case EffectError => Abandon(Publish(s, Current(s, r)), r)
    case NoEffectError => Abandon(s, r)
  }

  function ApplyMark(s: State, r: RelayId, outcome: Outcome): State
    requires At(s, r, Marking)
  {
    match outcome
    case EffectOk => Advance(Publish(s, Current(s, r)), r)
    case EffectError => Set(Publish(s, Current(s, r)), r, s.relays[r].rest, Recording)
    case NoEffectError => Set(s, r, s.relays[r].rest, Recording)
  }

  function ApplyRecord(s: State, r: RelayId, maxRetries: int, now: int, outcome: Outcome): State
    requires At(s, r, Recording)
  {
    match outcome
    case EffectOk => Advance(Attempt(s, Current(s, r), maxRetries, now), r)
    case EffectError => Abandon(Attempt(s, Current(s, r), maxRetries, now), r)
    case NoEffectError => Abandon(s, r)
  }

  function Apply(maxRetries: int, s: State, step: Step): State {
    match step
    case Append(eventTypes) => s.(table := AppendAll(s.table, eventTypes))
    case Poll(r, picked, now) =>
      if (r !in s.relays || s.relays[r].rest == []) && Pickable(s.table, picked, now) then Set(s, r, picked, Next) else s
    case Send(r) =>
      if At(s, r, Next) && RouteIn(s.table, Current(s, r)).Some?
      then Set(s.(sent := s.sent + {Current(s, r)}), r, s.relays[r].rest, Waiting) else s
    case Skip(r, outcome) =>
      if At(s, r, Next) && RouteIn(s.table, Current(s, r)).None? then ApplySkip(s, r, outcome) else s
    case Deliver(id, commits) =>
      if id in s.sent && commits && RouteIn(s.table, id).Some? then Consume(s, id, RouteIn(s.table, id).value) else s
    case Answer(r, ok) =>
      if !At(s, r, Waiting) then s
      else if !ok then Set(s, r, s.relays[r].rest, Recording)
      else if Current(s, r) in s.answered then Set(s, r, s.relays[r].rest, Marking) else s
    case Mark(r, outcome) => if At(s, r, Marking) then ApplyMark(s, r, outcome) else s
    case Record(r, now, outcome) => if At(s, r, Recording) then ApplyRecord(s, r, maxRetries, now, outcome) else s
    case Crash(r) => s.(relays := s.relays - {r})
  }

  function RunAll(maxRetries: int, s: State, steps: seq<Step>): State
    decreases |steps|
  {
    if steps == [] then s else RunAll(maxRetries, Apply(maxRetries, s, steps[0]), steps[1..])
  }

  const Empty := State([], {}, [], {}, {}, map[])

  // ---------------------------------------------------------------- exactly-once effect

  predicate Claimed(s: State, id: EventId) {
    RouteIn(s.table, id).Some? && (id, RouteIn(s.table, id).value.consumer) in s.inbox
  }

  /** Every effect is of a routed event, at its route, and no event has two. */
  predicate EffectsOk(s: State) {
    && (forall k :: 0 <= k < |s.effects| ==>
          RouteIn(s.table, s.effects[k].event) == Some(s.effects[k].route) && Claimed(s, s.effects[k].event))
    && forall j, k :: 0 <= j < k < |s.effects| ==> s.effects[j].event != s.effects[k].event
  }

  /** The inbox holds exactly the events with an effect. */
  predicate InboxOk(s: State) {
    forall id :: 0 <= id < |s.table| && Claimed(s, id) ==> HasEffect(s.effects, id)
  }

  predicate HasEffect(effects: seq<Effect>, id: EventId) {
    exists k :: 0 <= k < |effects| && effects[k].event == id
  }

  predicate AnsweredOk(s: State) {
    forall id :: id in s.answered ==> Claimed(s, id)
  }

  predicate RelayOk(s: State, relay: Relay) {
    relay.pc == Marking && relay.rest != [] ==> Claimed(s, relay.rest[0])
  }

  predicate RelaysOk(s: State) {
    forall r :: r in s.relays ==> RelayOk(s, s.relays[r])
  }

  predicate PublishedOk(s: State) {
    forall id :: 0 <= id < |s.table| && s.table[id].published && RouteIn(s.table, id).Some? ==> Claimed(s, id)
  }

  predicate Inv(s: State) {
    EffectsOk(s) && InboxOk(s) && AnsweredOk(s) && RelaysOk(s) && PublishedOk(s)
  }

  /** The table keeps every event's type; rows are only added at the end. */
  predicate SameTypes(a: Table, b: Table) {
    |a| <= |b| && forall i :: 0 <= i < |a| ==> a[i].eventType == b[i].eventType
  }

  lemma ClaimsPersist(s: State, s': State)
    requires SameTypes(s.table, s'.table) && s.inbox <= s'.inbox
    ensures forall id :: Claimed(s, id) ==> Claimed(s', id)
    ensures forall id :: RouteIn(s.table, id).Some? ==> RouteIn(s'.table, id) == RouteIn(s.table, id)
  {
  }

  lemma AppendKeepsInv(s: State, eventTypes: seq<string>)
    requires Inv(s) && NoFutureClaims(s)
    ensures Inv(s.(table := AppendAll(s.table, eventTypes))) && NoFutureClaims(s.(table := AppendAll(s.table, eventTypes)))
  {
    var s' := s.(table := AppendAll(s.table, eventTypes));
    ClaimsPersist(s, s');
    forall id | 0 <= id < |s'.table| && Claimed(s', id)
      ensures HasEffect(s'.effects, id)
    {
      assert id < |s.table| && Claimed(s, id);
    }
  }

  /** The inbox holds only events of the table. */
  predicate NoFutureClaims(s: State) {
    forall p :: p in s.inbox ==> p.0 < |s.table|
  }

  lemma PublishKeepsInv(s: State, id: EventId)
    requires Inv(s) && NoFutureClaims(s) && (RouteIn(s.table, id).Some? ==> Claimed(s, id))
    ensures Inv(Publish(s, id)) && NoFutureClaims(Publish(s, id)) && SameTypes(s.table, Publish(s, id).table)
  {
    var s' := Publish(s, id);
    ClaimsPersist(s, s');
    SameClaims(s, s');
  }

  lemma AttemptKeepsInv(s: State, id: EventId, maxRetries: int, now: int)
    requires Inv(s) && NoFutureClaims(s)
    ensures Inv(Attempt(s, id, maxRetries, now)) && NoFutureClaims(Attempt(s, id, maxRetries, now))
  {
    var s' := Attempt(s, id, maxRetries, now);
    ClaimsPersist(s, s');
    SameClaims(s, s');
  }

  lemma SameClaims(s: State, s': State)
    requires SameTypes(s.table, s'.table) && |s.table| == |s'.table| && s.inbox == s'.inbox
    ensures forall id :: Claimed(s', id) <==> Claimed(s, id)
  {
  }

  lemma ConsumeKeepsInv(s: State, id: EventId, route: Route)
    requires Inv(s) && NoFutureClaims(s) && RouteIn(s.table, id) == Some(route)
    ensures Inv(Consume(s, id, route)) && NoFutureClaims(Consume(s, id, route))
  {
    var s' := Consume(s, id, route);
    ClaimsPersist(s, s');
    if (id, route.consumer) !in s.inbox {
      NewEffect(s, id, route);
    }
  }

  lemma NewEffect(s: State, id: EventId, route: Route)
    requires Inv(s) && RouteIn(s.table, id) == Some(route) && (id, route.consumer) !in s.inbox
    ensures EffectsOk(Consume(s, id, route)) && InboxOk(Consume(s, id, route))
  {
    var s' := Consume(s, id, route);
    ClaimsPersist(s, s');
    assert !Claimed(s, id);
    forall other | 0 <= other < |s'.table| && Claimed(s', other)
      ensures HasEffect(s'.effects, other)
    {
      if other == id {
        assert s'.effects[|s.effects|].event == id;
      } else {
        assert Claimed(s, other);
        var k :| 0 <= k < |s.effects| && s.effects[k].event == other;
        assert s'.effects[k].event == other;
      }
    }
  }

  lemma SetKeepsInv(s: State, r: RelayId, rest: seq<EventId>, pc: Pc)
    requires Inv(s) && NoFutureClaims(s) && RelayOk(s, Relay(rest, pc))
    ensures Inv(Set(s, r, rest, pc)) && NoFutureClaims(Set(s, r, rest, pc))
  {
    var s' := Set(s, r, rest, pc);
    ClaimsPersist(s, s');
    SameClaims(s, s');
  }

  lemma CrashKeepsInv(s: State, r: RelayId)
    requires Inv(s) && NoFutureClaims(s)
    ensures Inv(s.(relays := s.relays - {r})) && NoFutureClaims(s.(relays := s.relays - {r}))
  {
    var s' := s.(relays := s.relays - {r});
    ClaimsPersist(s, s');
    SameClaims(s, s');
  }

  lemma SkipKeepsInv(s: State, r: RelayId, outcome: Outcome)
    requires Inv(s) && NoFutureClaims(s) && At(s, r, Next) && RouteIn(s.table, Current(s, r)).None?
    ensures Inv(ApplySkip(s, r, outcome)) && NoFutureClaims(ApplySkip(s, r, outcome))
  {
    var rest, s' := s.relays[r].rest, if outcome.NoEffectError? then s else Publish(s, Current(s, r));
    PublishKeepsInv(s, Current(s, r));
    SetKeepsInv(s', r, if outcome.EffectOk? then rest[1..] else [], Next);
  }

  lemma MarkKeepsInv(s: State, r: RelayId, outcome: Outcome)
    requires Inv(s) && NoFutureClaims(s) && At(s, r, Marking)
    ensures Inv(ApplyMark(s, r, outcome)) && NoFutureClaims(ApplyMark(s, r, outcome))
  {
    assert RelayOk(s, s.relays[r]);
    var rest, s' := s.relays[r].rest, if outcome.NoEffectError? then s else Publish(s, Current(s, r));
    PublishKeepsInv(s, Current(s, r));
    if outcome.EffectOk? {
      SetKeepsInv(s', r, rest[1..], Next);
    } else {
      SetKeepsInv(s', r, rest, Recording);
    }
  }

  lemma RecordKeepsInv(s: State, r: RelayId, maxRetries: int, now: int, outcome: Outcome)
    requires Inv(s) && NoFutureClaims(s) && At(s, r, Recording)
    ensures Inv(ApplyRecord(s, r, maxRetries, now, outcome)) && NoFutureClaims(ApplyRecord(s, r, maxRetries, now, outcome))
  {
    var rest, s' := s.relays[r].rest, if outcome.NoEffectError? then s else Attempt(s, Current(s, r), maxRetries, now);
    AttemptKeepsInv(s, Current(s, r), maxRetries, now);
    SetKeepsInv(s', r, if outcome.EffectOk? then rest[1..] else [], Next);
  }

  lemma AnswerKeepsInv(s: State, r: RelayId, ok: bool, maxRetries: int)
    requires Inv(s) && NoFutureClaims(s)
    ensures Inv(Apply(maxRetries, s, Answer(r, ok))) && NoFutureClaims(Apply(maxRetries, s, Answer(r, ok)))
  {
    if At(s, r, Waiting) {
      if !ok {
        SetKeepsInv(s, r, s.relays[r].rest, Recording);
      } else if Current(s, r) in s.answered {
        SetKeepsInv(s, r, s.relays[r].rest, Marking);
      }
    }
  }

  lemma SendKeepsInv(s: State, r: RelayId)
    requires Inv(s) && NoFutureClaims(s) && At(s, r, Next)
    ensures
      var s' := Set(s.(sent := s.sent + {Current(s, r)}), r, s.relays[r].rest, Waiting);
      Inv(s') && NoFutureClaims(s')
  {
    var s' := s.(sent := s.sent + {Current(s, r)});
    ClaimsPersist(s, s');
    SameClaims(s, s');
    assert Inv(s');
    SetKeepsInv(s', r, s.relays[r].rest, Waiting);
  }

  lemma StepKeepsInv(maxRetries: int, s: State, step: Step)
    requires Inv(s) && NoFutureClaims(s)
    ensures Inv(Apply(maxRetries, s, step)) && NoFutureClaims(Apply(maxRetries, s, step))
  {
    match step
    case Append(eventTypes) => AppendKeepsInv(s, eventTypes);
    case Poll(r, picked, now) => SetKeepsInv(s, r, picked, Next);
    case Send(r) => if At(s, r, Next) { SendKeepsInv(s, r); }
    case Skip(r, outcome) =>
      if At(s, r, Next) && RouteIn(s.table, Current(s, r)).None? { SkipKeepsInv(s, r, outcome); }
    case Deliver(id, commits) =>
      if RouteIn(s.table, id).Some? { ConsumeKeepsInv(s, id, RouteIn(s.table, id).value); }
    case Answer(r, ok) => AnswerKeepsInv(s, r, ok, maxRetries);
    case Mark(r, outcome) => if At(s, r, Marking) { MarkKeepsInv(s, r, outcome); }
    case Record(r, now, outcome) => if At(s, r, Recording) { RecordKeepsInv(s, r, maxRetries, now, outcome); }
    case Crash(r) => CrashKeepsInv(s, r);
  }

  lemma {:induction false} RunsKeepInv(maxRetries: int, s: State, steps: seq<Step>)
    requires Inv(s) && NoFutureClaims(s)
    ensures Inv(RunAll(maxRetries, s, steps)) && NoFutureClaims(RunAll(maxRetries, s, steps))
    decreases |steps|
  {
    if steps != [] {
      StepKeepsInv(maxRetries, s, steps[0]);
      RunsKeepInv(maxRetries, Apply(maxRetries, s, steps[0]), steps[1..]);
    }
  }

  function EffectsOf(effects: seq<Effect>, id: EventId): seq<Effect> {
    if effects == [] then []
    else (if effects[0].event == id then [effects[0]] else []) + EffectsOf(effects[1..], id)
  }

  lemma HasEffectTail(effects: seq<Effect>, id: EventId)
    requires effects != []
    ensures HasEffect(effects, id) <==> effects[0].event == id || HasEffect(effects[1..], id)
  {
    if k :| 0 <= k < |effects| && effects[k].event == id {
      assert k == 0 || effects[1..][k - 1].event == id;
    }
    if k :| 0 <= k < |effects[1..]| && effects[1..][k].event == id {
      assert effects[k + 1].event == id;
    }
  }

  lemma {:induction false} EffectsOfDistinct(effects: seq<Effect>, id: EventId)
    requires forall j, k :: 0 <= j < k < |effects| ==> effects[j].event != effects[k].event
    ensures if HasEffect(effects, id) then exists k :: 0 <= k < |effects| && effects[k].event == id && EffectsOf(effects, id) == [effects[k]]
            else EffectsOf(effects, id) == []
  {
    if effects != [] {
      EffectsOfDistinct(effects[1..], id);
      HasEffectTail(effects, id);
      if effects[0].event != id && HasEffect(effects[1..], id) {
        var k :| 0 <= k < |effects[1..]| && effects[1..][k].event == id && EffectsOf(effects[1..], id) == [effects[1..][k]];
        assert effects[k + 1].event == id;
      }
    }
  }

  /** Over every run: an event has at most one committed effect, at its own route; a routed event
      that is marked published has exactly one; an event without a route has none. */
  lemma ExactlyOnceEffect(maxRetries: int, steps: seq<Step>, id: EventId)
    ensures
      var s := RunAll(maxRetries, Empty, steps);
      var route := RouteIn(s.table, id);
      && (EffectsOf(s.effects, id) == [] || (route.Some? && EffectsOf(s.effects, id) == [Effect(id, route.value)]))
      && (id < |s.table| && s.table[id].published && route.Some? ==> EffectsOf(s.effects, id) == [Effect(id, route.value)])
  {
    RunsKeepInv(maxRetries, Empty, steps);
    var s := RunAll(maxRetries, Empty, steps);
    EffectsOfDistinct(s.effects, id);
    if id < |s.table| && s.table[id].published && RouteIn(s.table, id).Some? {
      assert Claimed(s, id);
    }
  }
}

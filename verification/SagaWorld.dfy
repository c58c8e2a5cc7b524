/** Many payments over one rail and one ledger: a call on behalf of one payment is, for every other,
    one of the things its step system lets the surroundings do, because keys are made from payment ids
    (services/job-worker/src/handlers/payment-saga.mjs:59 and 97). */
module SagaWorld {
  import opened Basics
  import opened Custody
  import opened Saga
  import SagaTheorems
  import Lifecycle
  import Ledger
  import Accounting

  lemma SamePrefix(prefix: string, a: string, b: string)
    ensures prefix + a == prefix + b <==> a == b
  {
    if prefix + a == prefix + b {
      assert a == (prefix + a)[|prefix|..] && b == (prefix + b)[|prefix|..];
    }
  }

  /** Different payments submit and debit under different keys. */
  lemma KeysAreOwn(t: Terms, u: Terms)
    ensures RailKey(t) == RailKey(u) <==> t.id == u.id
    ensures DebitKey(t) == DebitKey(u) <==> t.id == u.id
  {
    SamePrefix("payment:", t.id, u.id);
    SamePrefix("debit:", t.id, u.id);
  }

  // ---------------------------------------------------------------- what other payments see

  /** A step of a payment's own: a statement of one of its runs, or a write of its own rows. */
  predicate OwnStep(step: Step) {
    !step.OtherTransfer? && !step.OtherLedger?
  }

  lemma UnderOfLonger(rail: seq<Transfer>, x: Transfer, key: string)
    ensures Under(rail + [x], key) == Under(rail, key) + (if x.key == key then [x] else [])
  {
    assert (rail + [x])[..|rail|] == rail;
  }

  lemma SubmitLeavesOtherKeys(rail: seq<Transfer>, adapter: string, key: string, issued: Receipt, other: string)
    requires key != other
    ensures Under(Submit(rail, adapter, key, issued).0, other) == Under(rail, other)
  {
    UnderOfLonger(rail, Transfer(adapter, key, issued), other);
  }

  /** The step of its surroundings that another payment sees. */
  ghost function Echo(u: Terms, s: State, step: Step): Step {
    if step.CallAdapter? && At(s, step.run, CallProvider) && step.issued.providerRef != ""
       && step.adapter.Some? && !step.outcome.NoEffectError?
    then OtherTransfer(step.adapter.value, RailKey(u), step.issued)
    else OtherLedger(Apply(u, s, step).store.book)
  }

  lemma LedgerOfOthers(t: Terms, u: Terms, s: State, step: Step)
    requires t.id != u.id && OwnStep(step) && Ledger.Sound(s.store.book)
    ensures LeavesPostingAlone(t, s.store.book, Apply(u, s, step).store.book)
  {
    KeysAreOwn(t, u);
    StepKeepsBookSound(u, s, step);
    match step
    case DebitWallet(run, outcome) =>
      DebitLeavesBook(u, s, run, outcome);
      if At(s, run, Debit) {
        OtherDebitsLeaveItAlone(s.store.book, DebitRequestOf(u, s.runs[run].context), t);
      }
    case _ => OnlyDebitsTouchTheBook(u, s, step);
  }

  lemma SeesLedger(t: Terms, own: State, next: Ledger.Book)
    requires LeavesPostingAlone(t, own.store.book, next)
    ensures Apply(t, own, OtherLedger(next)) == own.(store := own.store.(book := next))
  {
  }

  /** The effect of a provider call on the rail. */
  lemma CallLeavesRail(u: Terms, s: State, step: Step)
    requires step.CallAdapter?
    ensures
      var rail := Apply(u, s, step).store.rail;
      if Echo(u, s, step).OtherTransfer? then rail == Submit(s.store.rail, step.adapter.value, RailKey(u), step.issued).0 else rail == s.store.rail
  {
  }

  lemma CallSeen(t: Terms, u: Terms, s: State, own: State, step: Step)
    requires t.id != u.id && step.CallAdapter? && Apply(u, s, step).store.book == s.store.book
    requires own.store.rail == s.store.rail && own.store.book == s.store.book && Ledger.Sound(s.store.book)
    ensures
      var rail := Apply(u, s, step).store.rail;
      && Apply(t, own, Echo(u, s, step)) == own.(store := own.store.(rail := rail))
      && Under(rail, RailKey(t)) == Under(s.store.rail, RailKey(t))
  {
    KeysAreOwn(t, u);
    CallLeavesRail(u, s, step);
    if Echo(u, s, step).OtherTransfer? {
      SubmitLeavesOtherKeys(s.store.rail, step.adapter.value, RailKey(u), step.issued, RailKey(t));
    } else {
      SeesLedger(t, own, s.store.book);
    }
  }

  /** What a step of payment u does to the rail and the ledger is what its echo does to them for
      payment t; transfers and posting of t are as before. */
  lemma EchoDoesTheSame(t: Terms, u: Terms, s: State, own: State, step: Step)
    requires t.id != u.id && OwnStep(step) && Ledger.Sound(s.store.book)
    requires own.store.rail == s.store.rail && own.store.book == s.store.book
    ensures
      var s' := Apply(u, s, step).store;
      && Apply(t, own, Echo(u, s, step)) == own.(store := own.store.(rail := s'.rail, book := s'.book))
      && Under(s'.rail, RailKey(t)) == Under(s.store.rail, RailKey(t)) && Posting(s'.book, t) == Posting(s.store.book, t)
  {
    LedgerOfOthers(t, u, s, step);
    SeesLedger(t, own, Apply(u, s, step).store.book);
    if step.CallAdapter? {
      OnlyDebitsTouchTheBook(u, s, step);
      CallSeen(t, u, s, own, step);
    } else {
      SagaTheorems.RailUntouched(u, s, step);
    }
  }

  // ---------------------------------------------------------------- all payments together

  type PaymentId = string

  /** What is a payment's own: its rows and its runs. */
  datatype Local = Local(
    status: Lifecycle.Status, receipt: Receipt, settledAt: Option<nat>, submission: Option<Submission>,
    journal: seq<Accounting.JournalEntry>, matched: seq<MatchedSource>, runs: map<RunId, Run>)

  datatype World = World(rail: seq<Transfer>, book: Ledger.Book, payments: map<PaymentId, Local>)

  datatype Move = Move(id: PaymentId, step: Step)

  /** Every payment has its own id. */
  predicate Named(terms: map<PaymentId, Terms>) {
    forall id :: id in terms ==> terms[id].id == id
  }

  function ViewOf(w: World, id: PaymentId): State
    requires id in w.payments
  {
    var l := w.payments[id];
    State(Store(l.status, l.receipt, l.settledAt, l.submission, w.rail, w.book, l.journal, l.matched), l.runs)
  }

  function LocalOf(s: State): Local {
    Local(s.store.status, s.store.receipt, s.store.settledAt, s.store.submission, s.store.journal, s.store.matched, s.runs)
  }

  ghost function ApplyMove(terms: map<PaymentId, Terms>, w: World, m: Move): World {
    if m.id in terms && m.id in w.payments && OwnStep(m.step) then
      var s' := Apply(terms[m.id], ViewOf(w, m.id), m.step);
      World(s'.store.rail, s'.store.book, w.payments[m.id := LocalOf(s')])
    else w
  }

  ghost function RunWorld(terms: map<PaymentId, Terms>, w: World, moves: seq<Move>): World
    decreases |moves|
  {
    if moves == [] then w else RunWorld(terms, ApplyMove(terms, w, moves[0]), moves[1..])
  }

  /** The run of one payment that a run of all of them is. */
  ghost function Projection(terms: map<PaymentId, Terms>, w: World, moves: seq<Move>, id: PaymentId): seq<Step>
    decreases |moves|
  {
    if moves == [] then []
    else
      var m := moves[0];
      (if m.id !in terms || m.id !in w.payments || !OwnStep(m.step) then []
       else if m.id == id then [m.step] else [Echo(terms[m.id], ViewOf(w, m.id), m.step)])
      + Projection(terms, ApplyMove(terms, w, m), moves[1..], id)
  }

  lemma MoveSeenByOwner(terms: map<PaymentId, Terms>, w: World, m: Move)
    requires m.id in terms && m.id in w.payments && OwnStep(m.step)
    ensures ViewOf(ApplyMove(terms, w, m), m.id) == Apply(terms[m.id], ViewOf(w, m.id), m.step)
  {
  }

  lemma MoveSeenByOther(terms: map<PaymentId, Terms>, w: World, m: Move, id: PaymentId)
    requires Named(terms) && Ledger.Sound(w.book) && id != m.id && id in terms && id in w.payments
    requires m.id in terms && m.id in w.payments && OwnStep(m.step)
    ensures ViewOf(ApplyMove(terms, w, m), id) == Apply(terms[id], ViewOf(w, id), Echo(terms[m.id], ViewOf(w, m.id), m.step))
  {
    EchoDoesTheSame(terms[id], terms[m.id], ViewOf(w, m.id), ViewOf(w, id), m.step);
  }

  lemma MoveKeepsBookSound(terms: map<PaymentId, Terms>, w: World, m: Move)
    requires Ledger.Sound(w.book)
    ensures Ledger.Sound(ApplyMove(terms, w, m).book) && ApplyMove(terms, w, m).payments.Keys == w.payments.Keys
  {
    if m.id in terms && m.id in w.payments && OwnStep(m.step) {
      StepKeepsBookSound(terms[m.id], ViewOf(w, m.id), m.step);
    }
  }

  lemma OneMoreStep(t: Terms, s: State, step: Step, rest: seq<Step>)
    ensures RunAll(t, s, [step] + rest) == RunAll(t, Apply(t, s, step), rest)
  {
    assert ([step] + rest)[1..] == rest;
  }

  /** However many payments run together, each sees a run of its own step system. */
  lemma {:induction false} EachRunsAsIfAlone(terms: map<PaymentId, Terms>, w: World, moves: seq<Move>, id: PaymentId)
    requires Named(terms) && Ledger.Sound(w.book) && id in terms && id in w.payments
    ensures id in RunWorld(terms, w, moves).payments
    ensures ViewOf(RunWorld(terms, w, moves), id) == RunAll(terms[id], ViewOf(w, id), Projection(terms, w, moves, id))
    decreases |moves|
  {
    if moves != [] {
      var m, w' := moves[0], ApplyMove(terms, w, moves[0]);
      MoveKeepsBookSound(terms, w, m);
      EachRunsAsIfAlone(terms, w', moves[1..], id);
      var rest := Projection(terms, w', moves[1..], id);
      if m.id !in terms || m.id !in w.payments || !OwnStep(m.step) {
        assert [] + rest == rest;
      } else if m.id == id {
        MoveSeenByOwner(terms, w, m);
        OneMoreStep(terms[id], ViewOf(w, id), m.step, rest);
      } else {
        MoveSeenByOther(terms, w, m, id);
        OneMoreStep(terms[id], ViewOf(w, id), Echo(terms[m.id], ViewOf(w, m.id), m.step), rest);
      }
    }
  }

  // ---------------------------------------------------------------- every payment its own effects

  predicate MovesUse(moves: seq<Move>, a: string) {
    forall i :: 0 <= i < |moves| && moves[i].step.CallAdapter? && moves[i].step.adapter.Some? ==> moves[i].step.adapter.value == a
  }

  lemma {:induction false} ProjectionUses(terms: map<PaymentId, Terms>, w: World, moves: seq<Move>, id: PaymentId, a: string)
    requires MovesUse(moves, a)
    ensures SagaTheorems.UsesOnly(Projection(terms, w, moves, id), {a})
    decreases |moves|
  {
    if moves != [] {
      assert MovesUse(moves[1..], a);
      ProjectionUses(terms, ApplyMove(terms, w, moves[0]), moves[1..], id, a);
    }
  }

  ghost predicate FreshWorld(terms: map<PaymentId, Terms>, w: World) {
    Named(terms) && Ledger.Sound(w.book) && forall id :: id in terms && id in w.payments ==> Fresh(terms[id], ViewOf(w, id))
  }

  /** A settled payment has a transfer of its own, carried under its own key, and a posting of its own
      that takes its own amount plus fee, whatever other payments run at the same time. */
  lemma SettledHasItsOwn(terms: map<PaymentId, Terms>, w: World, moves: seq<Move>, id: PaymentId, a: string)
    requires FreshWorld(terms, w) && MovesUse(moves, a) && id in terms && id in w.payments
    ensures id in RunWorld(terms, w, moves).payments
    ensures
      var t, d := terms[id], ViewOf(RunWorld(terms, w, moves), id).store;
      d.status == Lifecycle.Settled ==>
        && Under(d.rail, RailKey(t)) == [Transfer(a, RailKey(t), d.receipt)]
        && Posting(d.book, t).Some? && TakenFrom(Posting(d.book, t).value, t.wallet) == t.amount + t.fee
  {
    EachRunsAsIfAlone(terms, w, moves, id);
    ProjectionUses(terms, w, moves, id, a);
    SagaTheorems.EffectsComeInOrder(terms[id], ViewOf(w, id), Projection(terms, w, moves, id));
    SagaTheorems.AtMostOneTransfer(terms[id], ViewOf(w, id), Projection(terms, w, moves, id), a);
  }

  /** Two settled payments have made two transfers, however their runs were interleaved. */
  lemma TwoSettledTwoTransfers(terms: map<PaymentId, Terms>, w: World, moves: seq<Move>, id: PaymentId, other: PaymentId, a: string)
    requires FreshWorld(terms, w) && MovesUse(moves, a) && id != other
    requires id in terms && id in w.payments && other in terms && other in w.payments
    ensures
      var w' := RunWorld(terms, w, moves);
      && id in w'.payments && other in w'.payments
      && (w'.payments[id].status == Lifecycle.Settled && w'.payments[other].status == Lifecycle.Settled ==>
            exists i, j :: 0 <= i < |w'.rail| && 0 <= j < |w'.rail| && i != j
              && w'.rail[i] == Transfer(a, RailKey(terms[id]), w'.payments[id].receipt)
              && w'.rail[j] == Transfer(a, RailKey(terms[other]), w'.payments[other].receipt))
  {
    SettledHasItsOwn(terms, w, moves, id, a);
    SettledHasItsOwn(terms, w, moves, other, a);
    var w' := RunWorld(terms, w, moves);
    if w'.payments[id].status == Lifecycle.Settled && w'.payments[other].status == Lifecycle.Settled {
      KeysAreOwn(terms[id], terms[other]);
      var i := PlaceOnRail(w'.rail, Transfer(a, RailKey(terms[id]), w'.payments[id].receipt));
      var j := PlaceOnRail(w'.rail, Transfer(a, RailKey(terms[other]), w'.payments[other].receipt));
      assert w'.rail[i].key != w'.rail[j].key;
    }
  }

  lemma PlaceOnRail(rail: seq<Transfer>, x: Transfer) returns (i: nat)
    requires Under(rail, x.key) == [x]
    ensures i < |rail| && rail[i] == x
  {
    UnderMembers(rail, x.key);
    assert x in [x];
    i :| 0 <= i < |rail| && rail[i] == x;
  }
}

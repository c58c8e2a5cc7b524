/** What every interleaving of saga runs guarantees, and what an uninterrupted run completes. */
module SagaTheorems {
  import opened Basics
  import opened Custody
  import opened Saga
  import Lifecycle
  import Ledger
  import Accounting
  import Policy

  // ---------------------------------------------------------------- safety of all runs

  lemma FreshIsInv(t: Terms, s: State)
    requires Fresh(t, s)
    ensures Inv(t, s)
  {
    UnderMembers(s.store.rail, RailKey(t));
  }

  lemma {:induction false} RunsKeepInv(t: Terms, s: State, steps: seq<Step>)
    requires Inv(t, s)
    ensures Inv(t, RunAll(t, s, steps))
    decreases |steps|
  {
    if steps != [] {
      StepKeepsCore(t, s, steps[0]);
      StepKeepsBookSound(t, s, steps[0]);
      RunsKeepInv(t, Apply(t, s, steps[0]), steps[1..]);
    }
  }

  /** The order of effects, in every state any number of interleaved, duplicated or stopped runs and
      retries can reach: settled means a full journal batch and exactly one Matched row; a journal
      means the debit was posted; the debit means a persisted provider reference, and takes exactly
      amount plus fee from the source wallet; that reference is one the provider accepted under
      the payment's key. */
  lemma EffectsComeInOrder(t: Terms, s: State, steps: seq<Step>)
    requires Fresh(t, s)
    ensures
      var d := RunAll(t, s, steps).store;
      && (d.status == Lifecycle.Settled ==> FullBatch(t, d.journal) && |d.matched| == 1)
      && (d.journal != [] ==> FullBatch(t, d.journal) && Posting(d.book, t).Some?)
      && (Posting(d.book, t).Some? ==>
            d.receipt.providerRef != "" && TakenFrom(Posting(d.book, t).value, t.wallet) == t.amount + t.fee)
      && (d.receipt.providerRef != "" ==> WasAccepted(t, d, d.receipt))
      && |d.matched| <= 1
  {
    FreshIsInv(t, s);
    RunsKeepInv(t, s, steps);
  }

  // ---------------------------------------------------------------- at most one transfer

  /** Every resolution of the payment's provider during the steps names an adapter of the set. */
  predicate UsesOnly(steps: seq<Step>, adapters: set<string>) {
    forall i :: 0 <= i < |steps| && steps[i].CallAdapter? && steps[i].adapter.Some? ==> steps[i].adapter.value in adapters
  }

  predicate CarriedBy(t: Terms, rail: seq<Transfer>, adapters: set<string>) {
    forall x :: x in rail && x.key == RailKey(t) ==> x.adapter in adapters
  }

  lemma StepCarriedBy(t: Terms, s: State, step: Step, adapters: set<string>)
    requires CarriedBy(t, s.store.rail, adapters) && UsesOnly([step], adapters)
    ensures CarriedBy(t, Apply(t, s, step).store.rail, adapters)
  {
    assert [step][0] == step;
    if !step.CallAdapter? && !step.OtherTransfer? {
      RailUntouched(t, s, step);
    }
  }

  lemma RailUntouched(t: Terms, s: State, step: Step)
    requires !step.CallAdapter? && !step.OtherTransfer?
    ensures Apply(t, s, step).store.rail == s.store.rail
  {
  }

  lemma {:induction false} RunsCarriedBy(t: Terms, s: State, steps: seq<Step>, adapters: set<string>)
    requires CarriedBy(t, s.store.rail, adapters) && UsesOnly(steps, adapters)
    ensures CarriedBy(t, RunAll(t, s, steps).store.rail, adapters)
    decreases |steps|
  {
    if steps != [] {
      StepCarriedBy(t, s, steps[0], adapters);
      RunsCarriedBy(t, Apply(t, s, steps[0]), steps[1..], adapters);
    }
  }

  lemma OneCarrierOneTransfer(t: Terms, s: State, a: string)
    requires Inv(t, s) && CarriedBy(t, s.store.rail, {a})
    ensures |Under(s.store.rail, RailKey(t))| <= 1
    ensures forall r :: WasAccepted(t, s.store, r) ==> Under(s.store.rail, RailKey(t)) == [Transfer(a, RailKey(t), r)]
  {
    OneAdapterOneTransfer(s.store.rail, RailKey(t));
    UnderMembers(s.store.rail, RailKey(t));
  }

  /** With one adapter behind the payment's provider, at most one external transfer is made over
      all runs and retries, whatever is lost or repeated, and the persisted reference is its. */
  lemma AtMostOneTransfer(t: Terms, s: State, steps: seq<Step>, a: string)
    requires Fresh(t, s) && UsesOnly(steps, {a})
    ensures
      var d := RunAll(t, s, steps).store;
      && |Under(d.rail, RailKey(t))| <= 1
      && (d.receipt.providerRef != "" ==> Under(d.rail, RailKey(t)) == [Transfer(a, RailKey(t), d.receipt)])
  {
    FreshIsInv(t, s);
    RunsKeepInv(t, s, steps);
    UnderMembers(s.store.rail, RailKey(t));
    RunsCarriedBy(t, s, steps, {a});
    OneCarrierOneTransfer(t, RunAll(t, s, steps), a);
  }

  lemma {:induction false} RunConcat(t: Terms, s: State, first: seq<Step>, then_: seq<Step>)
    ensures RunAll(t, s, first + then_) == RunAll(t, RunAll(t, s, first), then_)
    decreases |first|
  {
    if first == [] {
      assert first + then_ == then_;
    } else {
      assert (first + then_)[1..] == first[1..] + then_;
      RunConcat(t, Apply(t, s, first[0]), first[1..], then_);
    }
  }

  lemma {:induction false} RailOnlyGrows(t: Terms, s: State, steps: seq<Step>)
    ensures s.store.rail <= RunAll(t, s, steps).store.rail
    decreases |steps|
  {
    if steps != [] {
      var s' := Apply(t, s, steps[0]);
      if !steps[0].CallAdapter? && !steps[0].OtherTransfer? {
        RailUntouched(t, s, steps[0]);
      }
      assert s.store.rail <= s'.store.rail;
      RailOnlyGrows(t, s', steps[1..]);
    }
  }

  lemma {:induction false} ReceiptStaysNamed(t: Terms, s: State, steps: seq<Step>)
    requires Inv(t, s) && s.store.receipt.providerRef != ""
    ensures RunAll(t, s, steps).store.receipt.providerRef != ""
    decreases |steps|
  {
    if steps != [] {
      StepKeepsCore(t, s, steps[0]);
      StepKeepsBookSound(t, s, steps[0]);
      ReceiptStays(t, s, steps[0]);
      ReceiptStaysNamed(t, Apply(t, s, steps[0]), steps[1..]);
    }
  }

  lemma ReceiptStays(t: Terms, s: State, step: Step)
    requires Inv(t, s) && s.store.receipt.providerRef != ""
    ensures Apply(t, s, step).store.receipt.providerRef != ""
  {
    if step.Persist? {
      if At(s, step.run, PersistReceipt) {
        assert RunAgrees(t, s.store, s.runs[step.run]);
      }
    } else {
      OnlyPersistWritesReceipt(t, s, step);
    }
  }

  lemma OnlyPersistWritesReceipt(t: Terms, s: State, step: Step)
    requires !step.Persist?
    ensures Apply(t, s, step).store.receipt == s.store.receipt
  {
  }

  /** With one adapter, a provider reference once persisted never changes again. */
  lemma ReferenceNeverChanges(t: Terms, s: State, before: seq<Step>, after: seq<Step>, a: string)
    requires Fresh(t, s) && UsesOnly(before + after, {a})
    requires RunAll(t, s, before).store.receipt.providerRef != ""
    ensures RunAll(t, s, before + after).store.receipt == RunAll(t, s, before).store.receipt
  {
    RunConcat(t, s, before, after);
    forall i | 0 <= i < |before|
      ensures (before + after)[i] == before[i]
    {
    }
    assert UsesOnly(before, {a});
    AtMostOneTransfer(t, s, before, a);
    AtMostOneTransfer(t, s, before + after, a);
    FreshIsInv(t, s);
    RunsKeepInv(t, s, before);
    var mid := RunAll(t, s, before);
    RailOnlyGrows(t, mid, after);
    ReceiptStaysNamed(t, mid, after);
    var end := RunAll(t, s, before + after);
    var x := Transfer(a, RailKey(t), mid.store.receipt);
    UnderMembers(mid.store.rail, RailKey(t));
    assert Under(mid.store.rail, RailKey(t))[0] == x;
    var i :| 0 <= i < |mid.store.rail| && mid.store.rail[i] == x;
    assert end.store.rail[i] == x;
    UnderMembers(end.store.rail, RailKey(t));
    assert x in Under(end.store.rail, RailKey(t));
  }

  // ---------------------------------------------------------------- exactly when one transfer

  /** A run up to and including its call to the provider. */
  function SubmitSteps(run: RunId, c: Context, a: string, issued: Receipt, outcome: Outcome): seq<Step> {
    [Start(run, c), Decide(run, Some(Policy.Clear)), AddSubmission(run, EffectOk), ReadSubmission(run),
     CallAdapter(run, Some(a), issued, outcome)]
  }

  lemma Unroll(t: Terms, s: State, steps: seq<Step>)
    requires steps != []
    ensures RunAll(t, s, steps) == RunAll(t, Apply(t, s, steps[0]), steps[1..])
  {
  }

  lemma FiveSteps(t: Terms, s: State, st: seq<Step>)
    requires |st| == 5
    ensures RunAll(t, s, st) == Apply(t, Apply(t, Apply(t, Apply(t, Apply(t, s, st[0]), st[1]), st[2]), st[3]), st[4])
  {
    var s1 := Apply(t, s, st[0]);
    var s2 := Apply(t, s1, st[1]);
    var s3 := Apply(t, s2, st[2]);
    var s4 := Apply(t, s3, st[3]);
    assert st[1..][1..] == st[2..] && st[2..][1..] == st[3..] && st[3..][1..] == st[4..] && st[4..][1..] == [];
    Unroll(t, s, st);
    Unroll(t, s1, st[1..]);
    Unroll(t, s2, st[2..]);
    Unroll(t, s3, st[3..]);
    Unroll(t, s4, st[4..]);
  }

  lemma ReadsSubmission(t: Terms, s: State, run: RunId)
    requires At(s, run, InsertSubmission) && (s.store.submission.None? || s.store.submission.value.receipt.None?)
    ensures
      var s' := Apply(t, Apply(t, s, AddSubmission(run, EffectOk)), ReadSubmission(run));
      && At(s', run, CallProvider) && s'.runs.Keys == s.runs.Keys
      && s'.store == s.store.(submission := s'.store.submission)
      && s'.store.submission.Some? && s'.store.submission.value.receipt.None?
  {
  }

  lemma CallsProvider(t: Terms, s: State, run: RunId, a: string, issued: Receipt, outcome: Outcome)
    requires At(s, run, CallProvider) && issued.providerRef != "" && !outcome.NoEffectError?
    ensures
      var s' := Apply(t, s, CallAdapter(run, Some(a), issued, outcome));
      && s'.store == s.store.(rail := Submit(s.store.rail, a, RailKey(t), issued).0) && s'.runs.Keys == s.runs.Keys
      && run in s'.runs && s'.runs[run].pc == (if outcome.EffectOk? then RecordSubmitted else RecordFailed)
  {
  }

  /** A run that reaches the provider with no recorded result submits under the payment's key. */
  lemma SubmitStepsReach(t: Terms, s: State, run: RunId, c: Context, a: string, issued: Receipt, outcome: Outcome)
    requires run !in s.runs && s.store.status == Lifecycle.Executing && s.store.receipt.providerRef == ""
    requires s.store.submission.None? || s.store.submission.value.receipt.None?
    requires issued.providerRef != "" && !outcome.NoEffectError?
    ensures
      var s' := RunAll(t, s, SubmitSteps(run, c, a, issued, outcome));
      && s'.store == s.store.(rail := Submit(s.store.rail, a, RailKey(t), issued).0, submission := s'.store.submission)
      && s'.store.submission.Some? && s'.store.submission.value.receipt.None?
      && run in s'.runs && s'.runs[run].pc == (if outcome.EffectOk? then RecordSubmitted else RecordFailed)
      && s'.runs.Keys == s.runs.Keys + {run}
  {
    FiveSteps(t, s, SubmitSteps(run, c, a, issued, outcome));
    var s2 := Apply(t, Apply(t, s, Start(run, c)), Decide(run, Some(Policy.Clear)));
    ReadsSubmission(t, s2, run);
    CallsProvider(t, Apply(t, Apply(t, s2, AddSubmission(run, EffectOk)), ReadSubmission(run)), run, a, issued, outcome);
  }

  lemma LostReplyThenOtherAdapter(t: Terms, s: State, a: string, b: string, c: Context, r: Receipt, q: Receipt)
    requires s.runs == map[] && s.store.status == Lifecycle.Executing && s.store.receipt.providerRef == ""
    requires s.store.submission.None? && Under(s.store.rail, RailKey(t)) == [] && a != b
    requires r.providerRef != "" && q.providerRef != ""
    ensures
      var end := RunAll(t, RunAll(t, s, SubmitSteps(0, c, a, r, EffectError)), SubmitSteps(1, c, b, q, EffectOk));
      |Under(end.store.rail, RailKey(t))| == 2
  {
    SubmitStepsReach(t, s, 0, c, a, r, EffectError);
    SubmitStepsReach(t, RunAll(t, s, SubmitSteps(0, c, a, r, EffectError)), 1, c, b, q, EffectOk);
    TwoSubmissions(s.store.rail, RailKey(t), a, b, r, q);
  }

  /** The provider of the source wallet is moved to another adapter between a submission whose reply
      was lost and its retry: two transfers. */
  lemma TwoAdaptersTwoTransfers(t: Terms, s: State, a: string, b: string, c: Context) returns (steps: seq<Step>)
    requires s.runs == map[] && s.store.status == Lifecycle.Executing && s.store.receipt.providerRef == ""
    requires s.store.submission.None? && Under(s.store.rail, RailKey(t)) == [] && a != b
    ensures UsesOnly(steps, {a, b})
    ensures |Under(RunAll(t, s, steps).store.rail, RailKey(t))| == 2
  {
    var r, q := Receipt("first", ""), Receipt("second", "");
    var attempt, retry := SubmitSteps(0, c, a, r, EffectError), SubmitSteps(1, c, b, q, EffectOk);
    steps := attempt + retry;
    RunConcat(t, s, attempt, retry);
    LostReplyThenOtherAdapter(t, s, a, b, c, r, q);
  }

  lemma TwoSubmissions(rail: seq<Transfer>, key: string, a: string, b: string, r: Receipt, q: Receipt)
    requires Under(rail, key) == [] && a != b
    ensures |Under(Submit(Submit(rail, a, key, r).0, b, key, q).0, key)| == 2
  {
    UnderMembers(rail, key);
    LookupFinds(rail, a, key);
    assert Lookup(rail, a, key).None?;
    var one := rail + [Transfer(a, key, r)];
    LookupFinds(one, b, key);
    assert Lookup(one, b, key).None?;
    var two := one + [Transfer(b, key, q)];
    assert two[..|two| - 1] == one && one[..|one| - 1] == rail;
  }

  /** At most one transfer over every run and retry, exactly when the providers the source wallet
      may be assigned to are all served by one adapter. */
  lemma AtMostOneTransferExactlyWhen(t: Terms, s: State, adapters: set<string>)
    requires Fresh(t, s) && s.store.status == Lifecycle.Executing
    ensures
      (forall steps | UsesOnly(steps, adapters) :: |Under(RunAll(t, s, steps).store.rail, RailKey(t))| <= 1)
      <==> (forall a, b :: a in adapters && b in adapters ==> a == b)
  {
    if forall a, b :: a in adapters && b in adapters ==> a == b {
      var a := if adapters == {} then "" else var x :| x in adapters; x;
      assert adapters <= {a};
      forall steps | UsesOnly(steps, adapters)
        ensures |Under(RunAll(t, s, steps).store.rail, RailKey(t))| <= 1
      {
        AtMostOneTransfer(t, s, steps, a);
      }
    } else {
      var a, b :| a in adapters && b in adapters && a != b;
      var steps := TwoAdaptersTwoTransfers(t, s, a, b, Context(None, "", ""));
      assert UsesOnly(steps, adapters);
    }
  }
}

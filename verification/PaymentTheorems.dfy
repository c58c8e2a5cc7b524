/** What holds of a payment after any interleaving of approvals, executions, cancellations, retries,
    saga runs and the expiry sweep, from its creation on. */
module PaymentTheorems {
  import opened Basics
  import opened Lifecycle
  import opened Payments
  import Policy
  import Saga

  // ---------------------------------------------------------------- status runs

  /** The event log is a walk of the transition graph ending at the current status, and nothing
      follows Settled, Cancelled or Blocked in it. */
  lemma StatusRuns(t: Terms, auth: bool, evaluation: Policy.Verdict, steps: seq<Step>)
    ensures
      var d := RunAll(t, auth, Initial(t, evaluation), steps).rows;
      IsWalk(d.log, d.status) && forall i :: 0 <= i < |d.log| && Absorbing(d.log[i].to) ==> i == |d.log| - 1
  {
    InitialInv(t, auth, evaluation);
    RunsKeepInv(t, auth, Initial(t, evaluation), steps);
    var d := RunAll(t, auth, Initial(t, evaluation), steps).rows;
    forall i | 0 <= i < |d.log| && Absorbing(d.log[i].to)
      ensures i == |d.log| - 1
    {
      AbsorbingStays(d.log, d.status, i);
    }
  }

  lemma AbsorbedStep(t: Terms, auth: bool, s: State, step: Step)
    requires Inv(t, auth, s) && Absorbing(s.rows.status)
    ensures Apply(t, auth, s, step).rows == s.rows
  {
    if step.SettleSaga? {
      if step.call in s.calls && s.calls[step.call].SagaRunning? {
        assert CallOk(t, auth, s.rows.status, s.selfApprovalSeen, s.calls[step.call]);
      }
    }
  }

  /** From Settled, Cancelled or Blocked on, no step of any call changes the payment's rows. */
  lemma {:induction false} AbsorbedForGood(t: Terms, auth: bool, s: State, steps: seq<Step>)
    requires Inv(t, auth, s) && Absorbing(s.rows.status)
    ensures RunAll(t, auth, s, steps).rows == s.rows
    decreases |steps|
  {
    if steps != [] {
      StepKeepsInv(t, auth, s, steps[0]);
      AbsorbedStep(t, auth, s, steps[0]);
      AbsorbedForGood(t, auth, Apply(t, auth, s, steps[0]), steps[1..]);
    }
  }

  /** `executePayment` enqueues at most one job in a payment's lifetime, and the log holds a passage
      from Approved to Executing exactly when it did. */
  lemma AtMostOneJob(t: Terms, auth: bool, evaluation: Policy.Verdict, steps: seq<Step>)
    ensures
      var d := RunAll(t, auth, Initial(t, evaluation), steps).rows;
      d.jobs <= 1 && (d.jobs == 1 <==> Event(Some(Approved), Executing) in d.log)
  {
    InitialInv(t, auth, evaluation);
    RunsKeepInv(t, auth, Initial(t, evaluation), steps);
    RunsKeepLaunchLogged(t, auth, Initial(t, evaluation), steps);
  }

  predicate LaunchLogged(d: Rows) {
    Event(Some(Approved), Executing) in d.log <==> Launched(d.status)
  }

  lemma WriteKeepsLaunchLogged(d: Rows, to: Status)
    requires LaunchLogged(d) && (to == Cancelled ==> d.status != Failed)
    ensures LaunchLogged(OrSame(d, WriteStatus(d, to)))
  {
  }

  lemma ApproveTxKeepsLaunchLogged(t: Terms, d: Rows, user: string)
    requires LaunchLogged(d)
    ensures LaunchLogged(OrSame(d, ApproveTx(t, d, user)))
  {
    var approvers := d.approvers + [user];
    var approved := d.(approvers := approvers, approvals := Distinct(approvers));
    WriteKeepsLaunchLogged(approved, if approved.approvals >= t.required then Approved else PendingApproval);
  }

  lemma CommitKeepsLaunchLogged(t: Terms, auth: bool, s: State, id: CallId)
    requires LaunchLogged(s.rows) && id in s.calls
    ensures LaunchLogged(CommitCall(t, s, id, s.calls[id]).rows)
  {
    var d := s.rows;
    match s.calls[id]
    case ApproveReady(user) => ApproveTxKeepsLaunchLogged(t, d, user);
    case ApproveBlocking => WriteKeepsLaunchLogged(d, Blocked);
    case ExecuteBlocking => WriteKeepsLaunchLogged(d, Blocked);
    case ExecuteReady(rules) => WriteKeepsLaunchLogged(d, Executing);
    case CancelReady => if d.status != Failed { WriteKeepsLaunchLogged(d, Cancelled); }
    case RetryReady => WriteKeepsLaunchLogged(d, Executing);
    case _ =>
  }

  lemma ReadingStepsLeaveRows(t: Terms, auth: bool, s: State, step: Step)
    requires !step.Commit? && !step.SettleSaga? && !step.FailSaga? && !step.Expire?
    ensures Apply(t, auth, s, step).rows == s.rows
  {
  }

  lemma StepKeepsLaunchLogged(t: Terms, auth: bool, s: State, step: Step)
    requires Inv(t, auth, s) && LaunchLogged(s.rows)
    ensures LaunchLogged(Apply(t, auth, s, step).rows)
  {
    match step
    case Commit(id) =>
      if id in s.calls { CommitKeepsLaunchLogged(t, auth, s, id); }
    case SettleSaga(id) =>
    case FailSaga(id) =>
    case Expire =>
    case _ => ReadingStepsLeaveRows(t, auth, s, step);
  }

  lemma {:induction false} RunsKeepLaunchLogged(t: Terms, auth: bool, s: State, steps: seq<Step>)
    requires Inv(t, auth, s) && LaunchLogged(s.rows)
    ensures LaunchLogged(RunAll(t, auth, s, steps).rows)
    decreases |steps|
  {
    if steps != [] {
      StepKeepsInv(t, auth, s, steps[0]);
      StepKeepsLaunchLogged(t, auth, s, steps[0]);
      RunsKeepLaunchLogged(t, auth, Apply(t, auth, s, steps[0]), steps[1..]);
    }
  }

  // ---------------------------------------------------------------- refused writes

  /** The only application write the trigger ever refuses is the settlement, and only from Failed. */
  lemma OnlySettlementIsRefused(t: Terms, auth: bool, evaluation: Policy.Verdict, steps: seq<Step>)
    ensures
      var s := RunAll(t, auth, Initial(t, evaluation), steps);
      forall r :: r in s.refusals ==> r == Refusal(Settlement, Failed)
  {
    InitialInv(t, auth, evaluation);
    RunsKeepInv(t, auth, Initial(t, evaluation), steps);
  }

  /** And it can happen: two runs of one launched payment, where one fails it before the other settles. */
  lemma SettlementIsRefusedAfterFailure(t: Terms, auth: bool, s: State, a: CallId, b: CallId)
    requires Inv(t, auth, s) && s.rows.status == Executing && a != b && a !in s.calls && b !in s.calls
    ensures RunAll(t, auth, s, [Saga(a), Saga(b), FailSaga(a), SettleSaga(b)]).refusals
         == s.refusals + [Refusal(Settlement, Failed)]
  {
    RunFour(t, auth, s, Saga(a), Saga(b), FailSaga(a), SettleSaga(b));
  }

  lemma RunFour(t: Terms, auth: bool, s: State, a: Step, b: Step, c: Step, d: Step)
    ensures
      RunAll(t, auth, s, [a, b, c, d])
      == Apply(t, auth, Apply(t, auth, Apply(t, auth, Apply(t, auth, s, a), b), c), d)
  {
    var s1 := Apply(t, auth, s, a);
    var s2 := Apply(t, auth, s1, b);
    assert [a, b, c, d][1..] == [b, c, d] && [b, c, d][1..] == [c, d] && [c, d][1..] == [d] && [d][1..] == [];
    var s3 := Apply(t, auth, s2, c);
    assert RunAll(t, auth, s, [a, b, c, d]) == RunAll(t, auth, s1, [b, c, d]) == RunAll(t, auth, s2, [c, d]);
    assert RunAll(t, auth, s2, [c, d]) == RunAll(t, auth, s3, [d]) == RunAll(t, auth, Apply(t, auth, s3, d), []);
  }

  // ---------------------------------------------------------------- four eyes

  /** The approvals column is the number of distinct approvers, and never exceeds max(required, 1). */
  lemma ApprovalsCountApprovers(t: Terms, auth: bool, evaluation: Policy.Verdict, steps: seq<Step>)
    ensures
      var d := RunAll(t, auth, Initial(t, evaluation), steps).rows;
      d.approvals == Distinct(d.approvers) == |d.approvers| <= Max(t.required, 1)
  {
    InitialInv(t, auth, evaluation);
    RunsKeepInv(t, auth, Initial(t, evaluation), steps);
    DistinctCounts(RunAll(t, auth, Initial(t, evaluation), steps).rows.approvers);
  }

  predicate AllowsSelfApproval(step: Step) {
    step.SelfChecked? && step.policyRules.selfApprovalAllowed
  }

  lemma {:induction false} SeenOnlyIfRead(t: Terms, auth: bool, s: State, steps: seq<Step>)
    requires !s.selfApprovalSeen && forall i :: 0 <= i < |steps| ==> !AllowsSelfApproval(steps[i])
    ensures !RunAll(t, auth, s, steps).selfApprovalSeen
    decreases |steps|
  {
    if steps != [] {
      assert !AllowsSelfApproval(steps[0]);
      SeenOnlyIfRead(t, auth, Apply(t, auth, s, steps[0]), steps[1..]);
    }
  }

  /** A payment that goes from Approved to Executing has at least as many distinct approvers as the
      policy read by that call's own evaluation demands, and they are the approvers on record. */
  lemma EnoughApproversWhenLaunched(t: Terms, auth: bool, evaluation: Policy.Verdict, steps: seq<Step>)
    ensures
      var s := RunAll(t, auth, Initial(t, evaluation), steps);
      && |s.launches| == s.rows.jobs
      && forall l :: l in s.launches ==>
           l.approvers == s.rows.approvers && Policy.RequiredApprovalsFor(AmountEur(t), l.rules) <= Distinct(l.approvers)
  {
    var s := RunAll(t, auth, Initial(t, evaluation), steps);
    InitialInv(t, auth, evaluation);
    RunsKeepInv(t, auth, Initial(t, evaluation), steps);
    DistinctCounts(s.rows.approvers);
    forall l | l in s.launches
      ensures l.approvers == s.rows.approvers && Policy.RequiredApprovalsFor(AmountEur(t), l.rules) <= Distinct(l.approvers)
    {
      assert LaunchOk(t, l, s.rows.approvers);
    }
  }

  /** With authentication on and a recorded creator, the creator is never an approver, unless some
      approval read a policy that allows self-approval. */
  lemma CreatorNeverApproves(t: Terms, evaluation: Policy.Verdict, steps: seq<Step>, creator: string)
    requires t.createdBy == Some(creator) && creator != AutoApprover
    requires forall i :: 0 <= i < |steps| ==> !AllowsSelfApproval(steps[i])
    ensures creator !in RunAll(t, true, Initial(t, evaluation), steps).rows.approvers
  {
    InitialInv(t, true, evaluation);
    CreatorStaysOut(t, Initial(t, evaluation), steps, creator);
  }

  lemma CreatorStaysOut(t: Terms, s: State, steps: seq<Step>, creator: string)
    requires Inv(t, true, s) && !s.selfApprovalSeen && t.createdBy == Some(creator) && creator != AutoApprover
    requires forall i :: 0 <= i < |steps| ==> !AllowsSelfApproval(steps[i])
    ensures creator !in RunAll(t, true, s, steps).rows.approvers
  {
    RunsKeepInv(t, true, s, steps);
    SeenOnlyIfRead(t, true, s, steps);
    UnseenCreatorIsNoApprover(t, RunAll(t, true, s, steps), creator);
  }

  lemma UnseenCreatorIsNoApprover(t: Terms, s: State, creator: string)
    requires Inv(t, true, s) && !s.selfApprovalSeen && t.createdBy == Some(creator) && creator != AutoApprover
    ensures creator !in s.rows.approvers
  {
    assert IsCreator(t, creator);
  }

  /** The step of the saga's system that answers to a step here: the last statement of a saga run, a
      retry of a failed payment, or a command. */
  function SagaStep(step: Step, from: Status, to: Status, run: Saga.RunId, now: nat): Saga.Step {
    match step
    case FailSaga(_) => Saga.Fail(run, EffectOk)
    case SettleSaga(_) => Saga.MarkSettled(run, now, EffectOk)
    case _ => if from == Failed then Saga.Retry else Saga.Command(to)
  }

  /** A saga run is where such a statement is its next. */
  predicate SagaIsThere(step: Step, g: Saga.State, run: Saga.RunId) {
    && (step.FailSaga? ==> Saga.At(g, run, Saga.FailPayment))
    && (step.SettleSaga? ==> Saga.At(g, run, Saga.Settle))
  }

  /** Nothing but the status and the time of settlement. */
  predicate OnlyStatusChanges(d: Saga.Store, d': Saga.Store, to: Status) {
    d' == d.(status := to, settledAt := d'.settledAt)
  }

  /** What a step here can do to the status. */
  predicate Changes(step: Step, from: Status, to: Status) {
    match step
    case FailSaga(_) => from == Executing && to == Failed
    case SettleSaga(_) => from == Executing && to == Settled
    case _ => (from == Failed && to == Executing) || Saga.IsCommand(from, to)
  }

  lemma CommitChanges(t: Terms, s: State, id: CallId)
    requires id in s.calls
    ensures
      var from, to := s.rows.status, CommitCall(t, s, id, s.calls[id]).rows.status;
      to != from ==> Changes(Commit(id), from, to)
  {
  }

  lemma ChangesAreThese(t: Terms, auth: bool, s: State, step: Step)
    requires Inv(t, auth, s) && Apply(t, auth, s, step).rows.status != s.rows.status
    ensures Changes(step, s.rows.status, Apply(t, auth, s, step).rows.status)
  {
    match step
    case Commit(id) => CommitChanges(t, s, id);
    case SettleSaga(id) => assert CallOk(t, auth, s.rows.status, s.selfApprovalSeen, s.calls[id]);
    case FailSaga(id) =>
    case Expire =>
    case _ => ReadingStepsLeaveRows(t, auth, s, step); assert false;
  }

  lemma SagaMakesTheChange(step: Step, to: Status, st: Saga.Terms, g: Saga.State, run: Saga.RunId, now: nat)
    requires Changes(step, g.store.status, to) && SagaIsThere(step, g, run)
    ensures OnlyStatusChanges(g.store, Saga.Apply(st, g, SagaStep(step, g.store.status, to, run, now)).store, to)
  {
  }

  /** The saga's step system covers this service: whenever a step here changes the status, its step
      for it makes the same change to any saga state of the same status, and no other. */
  lemma SagaKnowsEveryChange(t: Terms, auth: bool, s: State, step: Step, st: Saga.Terms, g: Saga.State, run: Saga.RunId, now: nat)
    requires Inv(t, auth, s) && g.store.status == s.rows.status && SagaIsThere(step, g, run)
    requires Apply(t, auth, s, step).rows.status != s.rows.status
    ensures
      var to := Apply(t, auth, s, step).rows.status;
      OnlyStatusChanges(g.store, Saga.Apply(st, g, SagaStep(step, s.rows.status, to, run, now)).store, to)
  {
    ChangesAreThese(t, auth, s, step);
    SagaMakesTheChange(step, Apply(t, auth, s, step).rows.status, st, g, run, now);
  }
}

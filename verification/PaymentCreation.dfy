/** What creation decides, and who can have approved a payment afterwards
    (services/payment-service/src/payments.mjs:121-148 and 206-281). */
module PaymentCreation {
  import opened Basics
  import opened Lifecycle
  import opened Payments
  import Policy

  /** The rows a payment starts with, verdict by verdict: blocked for a Blocked evaluation, approved by
      the policy for a Clear one that asks for no approval, and otherwise pending. */
  lemma CreationDecides(t: Terms, evaluation: Policy.Verdict)
    ensures
      var d := Created(t, evaluation);
      && (d.status == Blocked <==> evaluation == Policy.Blocked)
      && (d.status == Approved <==> evaluation == Policy.Clear && t.required == 0)
      && (d.status != Blocked && d.status != Approved ==> d.status == PendingApproval)
      && (d.status == Approved ==> d.approvers == ["policy:auto"] && d.approvals == 1)
      && (d.status != Approved ==> d.approvers == [] && d.approvals == 0)
      && d.log == [Event(None, d.status)] && d.jobs == 0
  {
  }

  // ---------------------------------------------------------------- who approved

  /** The users some approval was asked for by. */
  function Askers(steps: seq<Step>): set<string> {
    if steps == [] then {} else (if steps[0].Approve? then {steps[0].user} else {}) + Askers(steps[1..])
  }

  function UserOf(call: Call): set<string> {
    match call
    case ApproveEvaluating(user) => {user}
    case ApproveSelfCheck(user) => {user}
    case ApproveReady(user) => {user}
    case _ => {}
  }

  /** Approvers and approvals under way are of these users, and what is approved or launched has an approver. */
  predicate OnlyBy(s: State, users: set<string>) {
    && (forall a :: a in s.rows.approvers ==> a in users)
    && (forall id :: id in s.calls ==> UserOf(s.calls[id]) <= users)
    && (s.rows.status == Approved || Launched(s.rows.status) ==> s.rows.approvers != [])
  }

  lemma OthersKeepOnlyBy(s: State, s': State, users: set<string>)
    requires OnlyBy(s, users) && s'.calls.Keys <= s.calls.Keys && (forall id :: id in s'.calls ==> s'.calls[id] == s.calls[id])
    requires s'.rows.approvers == s.rows.approvers
    requires s'.rows.status == Approved || Launched(s'.rows.status) ==> s.rows.status == Approved || Launched(s.rows.status)
    ensures OnlyBy(s', users)
  {
  }

  lemma ApprovalKeepsOnlyBy(t: Terms, s: State, id: CallId, user: string, users: set<string>)
    requires OnlyBy(s, users) && id in s.calls && s.calls[id] == ApproveReady(user)
    ensures OnlyBy(End(Written(s, Approval, ApproveTx(t, s.rows, user)), id), users)
  {
    var s' := End(Written(s, Approval, ApproveTx(t, s.rows, user)), id);
    assert UserOf(s.calls[id]) == {user};
    assert forall q :: q in s'.calls ==> q in s.calls && s'.calls[q] == s.calls[q];
    assert s'.rows == s.rows || s'.rows.approvers == s.rows.approvers + [user];
  }

  /** Any other transaction leaves the approvers, and launches only what is approved. */
  lemma CommitOfOthers(t: Terms, s: State, id: CallId)
    requires id in s.calls && !s.calls[id].ApproveReady?
    ensures
      var s' := CommitCall(t, s, id, s.calls[id]);
      && s'.rows.approvers == s.rows.approvers
      && (s'.rows.status == Approved || Launched(s'.rows.status) ==> s.rows.status == Approved || Launched(s.rows.status))
  {
  }

  lemma CommitEndsTheCall(t: Terms, s: State, id: CallId)
    requires id in s.calls
    ensures
      var s' := CommitCall(t, s, id, s.calls[id]);
      s'.calls.Keys <= s.calls.Keys && forall q :: q in s'.calls ==> s'.calls[q] == s.calls[q]
  {
  }

  lemma CommitKeepsOnlyBy(t: Terms, s: State, id: CallId, users: set<string>)
    requires OnlyBy(s, users) && id in s.calls
    ensures OnlyBy(CommitCall(t, s, id, s.calls[id]), users)
  {
    if s.calls[id].ApproveReady? {
      ApprovalKeepsOnlyBy(t, s, id, s.calls[id].user, users);
    } else {
      CommitOfOthers(t, s, id);
      CommitEndsTheCall(t, s, id);
      OthersKeepOnlyBy(s, CommitCall(t, s, id, s.calls[id]), users);
    }
  }

  lemma BeginKeepsOnlyBy(s: State, id: CallId, call: Call, users: set<string>)
    requires OnlyBy(s, users) && UserOf(call) <= users
    ensures OnlyBy(Begin(s, id, call), users) && OnlyBy(Advance(s, id, call), users) && OnlyBy(End(s, id), users)
  {
  }

  lemma DecideKeepsOnlyBy(t: Terms, auth: bool, s: State, id: CallId, verdict: Policy.Verdict, rules: Policy.Rules, users: set<string>)
    requires OnlyBy(s, users) && id in s.calls
    ensures OnlyBy(Decide(t, auth, s, id, s.calls[id], verdict, rules), users)
  {
    match s.calls[id]
    case ApproveEvaluating(user) =>
      assert UserOf(s.calls[id]) == {user};
      BeginKeepsOnlyBy(s, id, ApproveBlocking, users);
      BeginKeepsOnlyBy(s, id, ApproveSelfCheck(user), users);
      BeginKeepsOnlyBy(s, id, ApproveReady(user), users);
    case ExecuteEvaluating =>
      BeginKeepsOnlyBy(s, id, ExecuteBlocking, users);
      BeginKeepsOnlyBy(s, id, ExecuteReady(rules), users);
    case _ =>
  }

  lemma SelfCheckKeepsOnlyBy(t: Terms, auth: bool, s: State, id: CallId, rules: Policy.Rules, users: set<string>)
    requires OnlyBy(s, users)
    ensures OnlyBy(Apply(t, auth, s, SelfChecked(id, rules)), users)
  {
    if id in s.calls && s.calls[id].ApproveSelfCheck? {
      var s' := s.(selfApprovalSeen := s.selfApprovalSeen || rules.selfApprovalAllowed);
      assert UserOf(s.calls[id]) == {s.calls[id].user};
      BeginKeepsOnlyBy(s', id, ApproveReady(s.calls[id].user), users);
    }
  }

  lemma SagaKeepsOnlyBy(t: Terms, auth: bool, s: State, step: Step, users: set<string>)
    requires Inv(t, auth, s) && OnlyBy(s, users) && (step.FailSaga? || step.SettleSaga?)
    ensures OnlyBy(Apply(t, auth, s, step), users)
  {
    var s' := Apply(t, auth, s, step);
    if step.call in s.calls && s.calls[step.call].SagaRunning? {
      assert CallOk(t, auth, s.rows.status, s.selfApprovalSeen, s.calls[step.call]);
      OthersKeepOnlyBy(s, s', users);
    }
  }

  lemma StepKeepsOnlyBy(t: Terms, auth: bool, s: State, step: Step, users: set<string>)
    requires Inv(t, auth, s) && OnlyBy(s, users) && (step.Approve? ==> step.user in users)
    ensures OnlyBy(Apply(t, auth, s, step), users)
  {
    match step
    case Approve(id, user) => BeginKeepsOnlyBy(s, id, ApproveEvaluating(user), users);
    case Execute(id) => BeginKeepsOnlyBy(s, id, ExecuteEvaluating, users);
    case Cancel(id) => BeginKeepsOnlyBy(s, id, CancelReady, users);
    case Retry(id) => BeginKeepsOnlyBy(s, id, RetryReady, users);
    case Saga(id) => BeginKeepsOnlyBy(s, id, SagaRunning, users);
    case Evaluated(id, request, rules) =>
      if id in s.calls && Describes(t, request) {
        DecideKeepsOnlyBy(t, auth, s, id, Policy.Evaluate(request, rules).value, rules, users);
      }
    case SelfChecked(id, rules) => SelfCheckKeepsOnlyBy(t, auth, s, id, rules, users);
    case Commit(id) => if id in s.calls { CommitKeepsOnlyBy(t, s, id, users); }
    case Expire => OthersKeepOnlyBy(s, Apply(t, auth, s, Expire), users);
    case Drop(id) => BeginKeepsOnlyBy(s, id, CancelReady, users);
    case _ => SagaKeepsOnlyBy(t, auth, s, step, users);
  }

  lemma {:induction false} RunsKeepOnlyBy(t: Terms, auth: bool, s: State, steps: seq<Step>, users: set<string>)
    requires Inv(t, auth, s) && OnlyBy(s, users) && Askers(steps) <= users
    ensures OnlyBy(RunAll(t, auth, s, steps), users)
    decreases |steps|
  {
    if steps != [] {
      StepKeepsOnlyBy(t, auth, s, steps[0], users);
      StepKeepsInv(t, auth, s, steps[0]);
      RunsKeepOnlyBy(t, auth, Apply(t, auth, s, steps[0]), steps[1..], users);
    }
  }

  lemma {:induction false} AskersAsked(steps: seq<Step>, user: string)
    ensures user in Askers(steps) <==> exists i :: 0 <= i < |steps| && steps[i].Approve? && steps[i].user == user
  {
    if steps != [] {
      AskersAsked(steps[1..], user);
      if i :| 0 <= i < |steps| && steps[i].Approve? && steps[i].user == user {
        assert i == 0 || steps[1..][i - 1] == steps[i];
      }
      if i :| 0 <= i < |steps[1..]| && steps[1..][i].Approve? && steps[1..][i].user == user {
        assert steps[i + 1] == steps[1..][i];
      }
    }
  }

  predicate AskedToApprove(steps: seq<Step>, user: string) {
    exists i :: 0 <= i < |steps| && steps[i].Approve? && steps[i].user == user
  }

  predicate AutoApproved(t: Terms, evaluation: Policy.Verdict) {
    evaluation == Policy.Clear && t.required == 0
  }

  /** Over every run: an approver on record asked for the approval, or is the policy itself, and that
      only if the payment was created under a Clear evaluation and asks for no approval. */
  lemma ApproversAsked(t: Terms, auth: bool, evaluation: Policy.Verdict, steps: seq<Step>, a: string)
    requires a in RunAll(t, auth, Initial(t, evaluation), steps).rows.approvers
    ensures AskedToApprove(steps, a) || (a == AutoApprover && AutoApproved(t, evaluation))
  {
    var users := Askers(steps) + (if AutoApproved(t, evaluation) then {AutoApprover} else {});
    InitialInv(t, auth, evaluation);
    RunsKeepOnlyBy(t, auth, Initial(t, evaluation), steps, users);
    AskersAsked(steps, a);
  }

  /** A payment that was not approved by the policy at creation is approved, executed or settled only
      after somebody asked to approve it and is on record. */
  lemma ApprovedOnlyBySomebody(t: Terms, auth: bool, evaluation: Policy.Verdict, steps: seq<Step>)
    requires !AutoApproved(t, evaluation)
    ensures
      var d := RunAll(t, auth, Initial(t, evaluation), steps).rows;
      d.status in {Approved, Executing, Failed, Settled} ==> exists a :: a in d.approvers && AskedToApprove(steps, a)
  {
    var d := RunAll(t, auth, Initial(t, evaluation), steps).rows;
    InitialInv(t, auth, evaluation);
    RunsKeepOnlyBy(t, auth, Initial(t, evaluation), steps, Askers(steps));
    if d.status in {Approved, Executing, Failed, Settled} {
      AskersAsked(steps, d.approvers[0]);
      assert d.approvers[0] in d.approvers && AskedToApprove(steps, d.approvers[0]);
    }
  }
}

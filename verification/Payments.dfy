/** Approval, execution, cancellation and retry of one payment
    (services/payment-service/src/payments.mjs), with every call split at its statements and any
    number of calls and saga runs interleaved. */
module Payments {
  import opened Basics
  import opened Lifecycle
  import Policy

  // ---------------------------------------------------------------- the payment's rows

  /** What is fixed when the payment is created. */
  datatype Terms = Terms(asset: string, amount: real, fee: real, required: nat, createdBy: Option<string>)

  /** The changing columns, the payment_approvals rows, the event log, and the jobs executePayment enqueued. */
  datatype Rows = Rows(status: Status, approvals: nat, approvers: seq<string>, log: seq<Event>, jobs: nat)

  const AutoApprover := "policy:auto"

  function AmountEur(t: Terms): real {
    Policy.ValueToEur(t.amount, t.asset)
  }

  /** The rows createPayment inserts, given its evaluation. */
  function Created(t: Terms, evaluation: Policy.Verdict): Rows {
    var autoApproved := evaluation == Policy.Clear && t.required == 0;
    var status := if evaluation == Policy.Blocked then Blocked else if autoApproved then Approved else PendingApproval;
    Rows(status, if autoApproved then 1 else 0, if autoApproved then [AutoApprover] else [], OnInsert(status), 0)
  }

  // ---------------------------------------------------------------- transactions

  /** An UPDATE of the status column: None when the trigger raises and the transaction rolls back. */
  function WriteStatus(d: Rows, to: Status): Option<Rows> {
    match OnUpdate(d.log, d.status, to)
    case None => None
    case Some(log) => Some(d.(status := to, log := log))
  }

  function OrSame(d: Rows, written: Option<Rows>): Rows {
    match written case Some(d') => d' case None => d
  }

  /** `transitionInTx`: re-read under the row lock, and move only from the expected status. */
  function TransitionTx(d: Rows, from: Status, to: Status): Option<Rows> {
    if d.status != from then Some(d) else WriteStatus(d, to)
  }

  function Distinct(approvers: seq<string>): nat {
    |set a | a in approvers|
  }

  function ApproveTx(t: Terms, d: Rows, approver: string): Option<Rows> {
    if d.status != PendingApproval || approver in d.approvers then Some(d)
    else
      var approvers := d.approvers + [approver];
      var approvals := Distinct(approvers);
      WriteStatus(d.(approvers := approvers, approvals := approvals), if approvals >= t.required then Approved else PendingApproval)
  }

  function ExecuteTx(d: Rows): Option<Rows> {
    if d.status != Approved then Some(d)
    else
      match WriteStatus(d, Executing)
      case None => None
      case Some(d') => Some(d'.(jobs := d'.jobs + 1))
  }

  function CancelTx(d: Rows): Option<Rows> {
    if d.status !in {PendingApproval, Approved} then Some(d) else WriteStatus(d, Cancelled)
  }

  function FailTx(d: Rows): Option<Rows> {
    if d.status != Executing then Some(d) else WriteStatus(d, Failed)
  }

  function RetryTx(d: Rows): Option<Rows> {
    if d.status != Failed then Some(d) else WriteStatus(d, Executing)
  }

  function ExpireTx(d: Rows): Option<Rows> {
    if d.status != PendingApproval then Some(d) else WriteStatus(d, Cancelled)
  }

  /** The saga's settlement: no guard of its own. */
  function SettleTx(d: Rows): Option<Rows> {
    WriteStatus(d, Settled)
  }

  // ---------------------------------------------------------------- calls

  /** A call in flight, at the statement it executes next. */
  datatype Call =
    | ApproveEvaluating(user: string)
    | ApproveBlocking
    | ApproveSelfCheck(user: string)
    | ApproveReady(user: string)
    | ExecuteEvaluating
    | ExecuteBlocking
    | ExecuteReady(rules: Policy.Rules)
    | CancelReady
    | RetryReady
    | SagaRunning

  datatype Write = Transition | Approval | Execution | Cancellation | SagaFailure | Settlement | RetryUpdate | Expiry

  /** A write the trigger refused, and the status it found. */
  datatype Refusal = Refusal(write: Write, found: Status)

  /** A passage from Approved to Executing: the rules its own evaluation read, and who had approved. */
  datatype Launch = Launch(rules: Policy.Rules, approvers: seq<string>)

  type CallId = nat

  datatype State = State(
    rows: Rows, calls: map<CallId, Call>, refusals: seq<Refusal>, launches: seq<Launch>,
    selfApprovalSeen: bool)

  datatype Step =
    | Approve(call: CallId, user: string)
    | Execute(call: CallId)
    | Cancel(call: CallId)
    | Retry(call: CallId)
    | Saga(call: CallId)
    | Evaluated(call: CallId, request: Policy.Request, policyRules: Policy.Rules)
    | SelfChecked(call: CallId, policyRules: Policy.Rules)
    | Commit(call: CallId)
    | FailSaga(call: CallId)
    | SettleSaga(call: CallId)
    | Expire
    | Drop(call: CallId)

  function Begin(s: State, id: CallId, call: Call): State {
    if id in s.calls then s else s.(calls := s.calls[id := call])
  }

  function Advance(s: State, id: CallId, call: Call): State {
    s.(calls := s.calls[id := call])
  }

  function End(s: State, id: CallId): State {
    s.(calls := s.calls - {id})
  }

  function Written(s: State, write: Write, result: Option<Rows>): State {
    match result
    case Some(d) => s.(rows := d)
    case None => s.(refusals := s.refusals + [Refusal(write, s.rows.status)])
  }

  /** The evaluation request is built from the payment as this call has read it. */
  predicate Describes(t: Terms, request: Policy.Request) {
    Policy.Complete(request) && request.payment.value == Policy.Payment(t.asset, t.amount, t.fee, t.required)
  }

  function Decide(t: Terms, auth: bool, s: State, id: CallId, call: Call, verdict: Policy.Verdict, rules: Policy.Rules): State {
    match call
    case ApproveEvaluating(user) =>
      (match verdict
       case Blocked => Advance(s, id, ApproveBlocking)
       case Review => End(s, id)
       case Clear => Advance(s, id, if t.createdBy.Some? && auth then ApproveSelfCheck(user) else ApproveReady(user)))
    case ExecuteEvaluating =>
      (match verdict
       case Blocked => Advance(s, id, ExecuteBlocking)
       case Review => End(s, id)
       case Clear => Advance(s, id, ExecuteReady(rules)))
    case _ => s
  }

  /** The transaction a call ends with. */
  function CommitCall(t: Terms, s: State, id: CallId, call: Call): State {
    var d := s.rows;
    match call
    case ApproveBlocking => End(Written(s, Transition, TransitionTx(d, PendingApproval, Blocked)), id)
    case ApproveReady(user) => End(Written(s, Approval, ApproveTx(t, d, user)), id)
    case ExecuteBlocking => End(Written(s, Transition, TransitionTx(d, Approved, Blocked)), id)
    case ExecuteReady(rules) =>
      var s' := End(Written(s, Execution, ExecuteTx(d)), id);
      if s'.rows.jobs > d.jobs then s'.(launches := s.launches + [Launch(rules, d.approvers)]) else s'
    case CancelReady => End(Written(s, Cancellation, CancelTx(d)), id)
    case RetryReady => End(Written(s, RetryUpdate, RetryTx(d)), id)
    case _ => s
  }

  /** One step; a step that is not enabled leaves the state alone. `auth` is AUTH_REQUIRED. */
  function Apply(t: Terms, auth: bool, s: State, step: Step): State {
    var status := s.rows.status;
    match step
    case Approve(id, user) => if status == PendingApproval then Begin(s, id, ApproveEvaluating(user)) else s
    case Execute(id) => if status == Approved then Begin(s, id, ExecuteEvaluating) else s
    case Cancel(id) => if status in {PendingApproval, Approved} then Begin(s, id, CancelReady) else s
    case Retry(id) => if status == Failed then Begin(s, id, RetryReady) else s
    case Saga(id) => if status == Executing then Begin(s, id, SagaRunning) else s
    case Evaluated(id, request, rules) =>
      if id in s.calls && Describes(t, request)
      then Decide(t, auth, s, id, s.calls[id], Policy.Evaluate(request, rules).value, rules) else s
    case SelfChecked(id, rules) =>
      if id in s.calls && s.calls[id].ApproveSelfCheck? then
        var s' := s.(selfApprovalSeen := s.selfApprovalSeen || rules.selfApprovalAllowed);
        if t.createdBy == Some(s.calls[id].user) && !rules.selfApprovalAllowed then End(s', id)
        else Advance(s', id, ApproveReady(s.calls[id].user))
      else s
    case Commit(id) => if id in s.calls then CommitCall(t, s, id, s.calls[id]) else s
    case FailSaga(id) =>
      if id in s.calls && s.calls[id].SagaRunning? then End(Written(s, SagaFailure, FailTx(s.rows)), id) else s
    case SettleSaga(id) =>
      if id in s.calls && s.calls[id].SagaRunning? then End(Written(s, Settlement, SettleTx(s.rows)), id) else s
    case Expire => Written(s, Expiry, ExpireTx(s.rows))
    case Drop(id) => End(s, id)
  }

  function RunAll(t: Terms, auth: bool, s: State, steps: seq<Step>): State
    decreases |steps|
  {
    if steps == [] then s else RunAll(t, auth, Apply(t, auth, s, steps[0]), steps[1..])
  }

  function Initial(t: Terms, evaluation: Policy.Verdict): State {
    State(Created(t, evaluation), map[], [], [], false)
  }

  // ---------------------------------------------------------------- the invariant

  predicate IsCreator(t: Terms, user: string) {
    t.createdBy == Some(user) && user != AutoApprover
  }

  predicate Launched(status: Status) {
    status in {Executing, Failed, Settled}
  }

  predicate Tally(d: Rows) {
    NoRepeats(d.approvers) && d.approvals == |d.approvers|
  }

  /** What each status says about the number of approvals and of enqueued jobs. */
  predicate Stage(t: Terms, status: Status, approvals: nat, jobs: nat) {
    && approvals <= Max(t.required, 1)
    && (status == PendingApproval ==> approvals == 0 || approvals < t.required)
    && (status == Approved || Launched(status) ==> t.required <= approvals)
    && jobs == (if Launched(status) then 1 else 0)
  }

  predicate RowsOk(t: Terms, d: Rows) {
    IsWalk(d.log, d.status) && Tally(d) && Stage(t, d.status, d.approvals, d.jobs)
  }

  predicate CallOk(t: Terms, auth: bool, status: Status, selfApprovalSeen: bool, call: Call) {
    match call
    case ApproveReady(user) => auth && IsCreator(t, user) ==> selfApprovalSeen
    case ExecuteReady(rules) => Policy.RequiredApprovalsFor(AmountEur(t), rules) <= t.required
    case SagaRunning => Launched(status)
    case _ => true
  }

  predicate CallsOk(t: Terms, auth: bool, s: State) {
    forall id :: id in s.calls ==> CallOk(t, auth, s.rows.status, s.selfApprovalSeen, s.calls[id])
  }

  predicate LaunchOk(t: Terms, l: Launch, approvers: seq<string>) {
    l.approvers == approvers && Policy.RequiredApprovalsFor(AmountEur(t), l.rules) <= |approvers|
  }

  predicate LaunchesOk(t: Terms, s: State) {
    |s.launches| == s.rows.jobs && forall l :: l in s.launches ==> LaunchOk(t, l, s.rows.approvers)
  }

  predicate RefusalsOk(s: State) {
    forall r :: r in s.refusals ==> r == Refusal(Settlement, Failed)
  }

  predicate FourEyes(t: Terms, auth: bool, s: State) {
    auth && !s.selfApprovalSeen ==> forall a :: a in s.rows.approvers ==> !IsCreator(t, a)
  }

  predicate Inv(t: Terms, auth: bool, s: State) {
    RowsOk(t, s.rows) && LaunchesOk(t, s) && RefusalsOk(s) && CallsOk(t, auth, s) && FourEyes(t, auth, s)
  }

  lemma {:induction false} DistinctCounts(approvers: seq<string>)
    requires NoRepeats(approvers)
    ensures Distinct(approvers) == |approvers|
  {
    if approvers == [] {
      assert (set a | a in approvers) == {};
    } else {
      var front, last := approvers[..|approvers| - 1], approvers[|approvers| - 1];
      DistinctCounts(front);
      assert (set a | a in approvers) == (set a | a in front) + {last};
    }
  }

  // ---------------------------------------------------------------- each transaction

  /** The rows a guarded transaction leaves, when it does not touch the approvals. */
  predicate Keeps(t: Terms, d: Rows, result: Option<Rows>) {
    && result.Some? && RowsOk(t, result.value)
    && result.value.approvers == d.approvers && result.value.jobs == d.jobs
    && (Launched(d.status) ==> Launched(result.value.status))
  }

  /** The settlement is refused exactly when it finds the payment Failed. */
  lemma SettleRefusedExactlyFromFailed(t: Terms, d: Rows)
    requires RowsOk(t, d) && Launched(d.status)
    ensures SettleTx(d).None? <==> d.status == Failed
    ensures SettleTx(d).Some? ==> Keeps(t, d, SettleTx(d))
  {
  }

  lemma ApproveKeeps(t: Terms, d: Rows, user: string)
    requires RowsOk(t, d)
    ensures ApproveTx(t, d, user).Some? && RowsOk(t, ApproveTx(t, d, user).value)
    ensures ApproveTx(t, d, user).value.jobs == d.jobs
    ensures ApproveTx(t, d, user).value == d
      || (d.status == PendingApproval && ApproveTx(t, d, user).value.approvers == d.approvers + [user]
          && !Launched(ApproveTx(t, d, user).value.status))
  {
    if d.status == PendingApproval && user !in d.approvers {
      var approvers := d.approvers + [user];
      DistinctCounts(approvers);
    }
  }

  // ---------------------------------------------------------------- each step

  lemma EndKeepsInv(t: Terms, auth: bool, s: State, id: CallId)
    requires Inv(t, auth, s)
    ensures Inv(t, auth, End(s, id))
  {
  }

  lemma ApprovalKeepsInv(t: Terms, auth: bool, s: State, user: string)
    requires Inv(t, auth, s) && (auth && IsCreator(t, user) ==> s.selfApprovalSeen)
    ensures Inv(t, auth, Written(s, Approval, ApproveTx(t, s.rows, user)))
  {
    ApproveKeeps(t, s.rows, user);
    var d := ApproveTx(t, s.rows, user).value;
    if d != s.rows {
      assert s.launches == [];
    }
  }

  lemma ExecuteKeeps(t: Terms, d: Rows)
    requires RowsOk(t, d)
    ensures ExecuteTx(d).Some? && RowsOk(t, ExecuteTx(d).value) && ExecuteTx(d).value.approvers == d.approvers
    ensures d.status == Approved ==>
      ExecuteTx(d).value.status == Executing && d.jobs == 0 && ExecuteTx(d).value.jobs == 1 && t.required <= |d.approvers|
    ensures d.status != Approved ==> ExecuteTx(d).value == d
  {
  }

  lemma LaunchKeepsInv(t: Terms, auth: bool, s: State, id: CallId, rules: Policy.Rules)
    requires Inv(t, auth, s) && id in s.calls && s.calls[id] == ExecuteReady(rules)
    ensures Inv(t, auth, CommitCall(t, s, id, ExecuteReady(rules)))
  {
    ExecuteKeeps(t, s.rows);
    if s.rows.status == Approved {
      assert CallOk(t, auth, s.rows.status, s.selfApprovalSeen, s.calls[id]);
      LaunchedKeepsInv(t, auth, s, ExecuteTx(s.rows).value, rules);
      EndKeepsInv(t, auth, s.(rows := ExecuteTx(s.rows).value, launches := s.launches + [Launch(rules, s.rows.approvers)]), id);
      assert s.launches == [];
    } else {
      EndKeepsInv(t, auth, s, id);
    }
  }

  lemma LaunchedKeepsInv(t: Terms, auth: bool, s: State, d: Rows, rules: Policy.Rules)
    requires Inv(t, auth, s) && s.rows.jobs == 0 && Policy.RequiredApprovalsFor(AmountEur(t), rules) <= t.required <= |s.rows.approvers|
    requires RowsOk(t, d) && d.approvers == s.rows.approvers && d.jobs == 1 && Launched(d.status)
    ensures Inv(t, auth, s.(rows := d, launches := s.launches + [Launch(rules, s.rows.approvers)]))
  {
    assert s.launches == [];
  }

  lemma BlockingKeeps(t: Terms, d: Rows, from: Status)
    requires RowsOk(t, d) && from in {PendingApproval, Approved}
    ensures Keeps(t, d, TransitionTx(d, from, Blocked))
  {
  }

  lemma CancelKeeps(t: Terms, d: Rows)
    requires RowsOk(t, d)
    ensures Keeps(t, d, CancelTx(d)) && Keeps(t, d, ExpireTx(d))
  {
  }

  lemma RetryKeeps(t: Terms, d: Rows)
    requires RowsOk(t, d)
    ensures Keeps(t, d, RetryTx(d)) && Keeps(t, d, FailTx(d))
  {
  }

  lemma GuardedWrite(t: Terms, auth: bool, s: State, write: Write, result: Option<Rows>)
    requires Inv(t, auth, s) && Keeps(t, s.rows, result)
    ensures Inv(t, auth, Written(s, write, result))
  {
  }

  lemma CommitKeepsInv(t: Terms, auth: bool, s: State, id: CallId)
    requires Inv(t, auth, s) && id in s.calls
    ensures Inv(t, auth, CommitCall(t, s, id, s.calls[id]))
  {
    var d := s.rows;
    assert CallOk(t, auth, d.status, s.selfApprovalSeen, s.calls[id]);
    match s.calls[id]
    case ApproveBlocking =>
      BlockingKeeps(t, d, PendingApproval);
      GuardedCommit(t, auth, s, id, Transition, TransitionTx(d, PendingApproval, Blocked));
    case ExecuteBlocking =>
      BlockingKeeps(t, d, Approved);
      GuardedCommit(t, auth, s, id, Transition, TransitionTx(d, Approved, Blocked));
    case CancelReady =>
      CancelKeeps(t, d);
      GuardedCommit(t, auth, s, id, Cancellation, CancelTx(d));
    case RetryReady =>
      RetryKeeps(t, d);
      GuardedCommit(t, auth, s, id, RetryUpdate, RetryTx(d));
    case ApproveReady(user) =>
      ApprovalKeepsInv(t, auth, s, user);
      EndKeepsInv(t, auth, Written(s, Approval, ApproveTx(t, d, user)), id);
    case ExecuteReady(rules) =>
      LaunchKeepsInv(t, auth, s, id, rules);
    case _ =>
  }

  lemma GuardedCommit(t: Terms, auth: bool, s: State, id: CallId, write: Write, result: Option<Rows>)
    requires Inv(t, auth, s) && Keeps(t, s.rows, result)
    ensures Inv(t, auth, End(Written(s, write, result), id))
  {
    GuardedWrite(t, auth, s, write, result);
    EndKeepsInv(t, auth, Written(s, write, result), id);
  }

  lemma DecideKeepsInv(t: Terms, auth: bool, s: State, id: CallId, verdict: Policy.Verdict, rules: Policy.Rules)
    requires Inv(t, auth, s) && id in s.calls
    requires verdict == Policy.Clear ==> Policy.RequiredApprovalsFor(AmountEur(t), rules) <= t.required
    ensures Inv(t, auth, Decide(t, auth, s, id, s.calls[id], verdict, rules))
  {
    EndKeepsInv(t, auth, s, id);
  }

  lemma EvaluationKeepsInv(t: Terms, auth: bool, s: State, id: CallId, request: Policy.Request, rules: Policy.Rules)
    requires Inv(t, auth, s) && id in s.calls && Describes(t, request)
    ensures Inv(t, auth, Decide(t, auth, s, id, s.calls[id], Policy.Evaluate(request, rules).value, rules))
  {
    if Policy.Evaluate(request, rules) != Some(Policy.Blocked) {
      Policy.NotBlockedMeansEnoughRequired(request, rules);
    }
    DecideKeepsInv(t, auth, s, id, Policy.Evaluate(request, rules).value, rules);
  }

  lemma SelfCheckKeepsInv(t: Terms, auth: bool, s: State, id: CallId, rules: Policy.Rules)
    requires Inv(t, auth, s) && id in s.calls && s.calls[id].ApproveSelfCheck?
    ensures Inv(t, auth, Apply(t, auth, s, SelfChecked(id, rules)))
  {
    var user, s' := s.calls[id].user, s.(selfApprovalSeen := s.selfApprovalSeen || rules.selfApprovalAllowed);
    assert Inv(t, auth, s');
    EndKeepsInv(t, auth, s', id);
  }

  lemma FailSagaKeepsInv(t: Terms, auth: bool, s: State, id: CallId)
    requires Inv(t, auth, s)
    ensures Inv(t, auth, Apply(t, auth, s, FailSaga(id)))
  {
    RetryKeeps(t, s.rows);
    GuardedCommit(t, auth, s, id, SagaFailure, FailTx(s.rows));
  }

  lemma SettleSagaKeepsInv(t: Terms, auth: bool, s: State, id: CallId)
    requires Inv(t, auth, s)
    ensures Inv(t, auth, Apply(t, auth, s, SettleSaga(id)))
  {
    if id in s.calls && s.calls[id].SagaRunning? {
      assert CallOk(t, auth, s.rows.status, s.selfApprovalSeen, s.calls[id]);
      SettleRefusedExactlyFromFailed(t, s.rows);
      EndKeepsInv(t, auth, Written(s, Settlement, SettleTx(s.rows)), id);
    }
  }

  lemma BeginKeepsInv(t: Terms, auth: bool, s: State, step: Step)
    requires Inv(t, auth, s) && (step.Approve? || step.Execute? || step.Cancel? || step.Retry? || step.Saga?)
    ensures Inv(t, auth, Apply(t, auth, s, step))
  {
  }

  lemma StepKeepsInv(t: Terms, auth: bool, s: State, step: Step)
    requires Inv(t, auth, s)
    ensures Inv(t, auth, Apply(t, auth, s, step))
  {
    match step
    case Evaluated(id, request, rules) =>
      if id in s.calls && Describes(t, request) {
        EvaluationKeepsInv(t, auth, s, id, request, rules);
      }
    case SelfChecked(id, rules) =>
      if id in s.calls && s.calls[id].ApproveSelfCheck? {
        SelfCheckKeepsInv(t, auth, s, id, rules);
      }
    case Commit(id) =>
      if id in s.calls {
        CommitKeepsInv(t, auth, s, id);
      }
    case FailSaga(id) => FailSagaKeepsInv(t, auth, s, id);
    case SettleSaga(id) => SettleSagaKeepsInv(t, auth, s, id);
    case Expire =>
      CancelKeeps(t, s.rows);
      GuardedWrite(t, auth, s, Expiry, ExpireTx(s.rows));
    case Drop(id) => EndKeepsInv(t, auth, s, id);
    case _ => BeginKeepsInv(t, auth, s, step);
  }

  lemma InitialInv(t: Terms, auth: bool, evaluation: Policy.Verdict)
    ensures Inv(t, auth, Initial(t, evaluation)) && !Initial(t, evaluation).selfApprovalSeen
  {
  }

  lemma {:induction false} RunsKeepInv(t: Terms, auth: bool, s: State, steps: seq<Step>)
    requires Inv(t, auth, s)
    ensures Inv(t, auth, RunAll(t, auth, s, steps))
    decreases |steps|
  {
    if steps != [] {
      StepKeepsInv(t, auth, s, steps[0]);
      RunsKeepInv(t, auth, Apply(t, auth, s, steps[0]), steps[1..]);
    }
  }
}

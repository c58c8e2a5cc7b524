/** What a request to approve, execute, cancel or retry a payment does to its rows, and exactly when
    (services/payment-service/src/payments.mjs:206-404). */
module PaymentDecisions {
  import opened Basics
  import opened Lifecycle
  import opened Payments
  import opened PaymentService
  import Policy

  /** The second row differs from the first in its status, and the change is logged. */
  predicate Moves(d: Rows, d': Rows, to: Status) {
    d' == d.(status := to, log := d.log + [Event(Some(d.status), to)])
  }

  /** Some approval is still to be given, and this user may give it. */
  predicate MayApprove(t: Terms, auth: bool, d: Rows, user: string, policy: Policy.Rules) {
    && d.status == PendingApproval && user !in d.approvers
    && (t.createdBy == Some(user) && auth ==> policy.selfApprovalAllowed)
  }

  /** An approval request adds its user under a Clear evaluation only, if that user may approve, and the
      payment is approved by the last one required; a Blocked evaluation blocks a pending payment. */
  lemma ApprovalDecides(t: Terms, auth: bool, d: Rows, user: string, evaluation: Option<Policy.Verdict>, policy: Policy.Rules)
    requires RowsOk(t, d)
    ensures
      var d' := ApproveEffect(t, auth, d, user, evaluation, policy);
      var counts := evaluation == Some(Policy.Clear) && MayApprove(t, auth, d, user, policy);
      var approved := d.(approvers := d.approvers + [user], approvals := d.approvals + 1);
      if counts then
        if d.approvals + 1 >= t.required then Moves(approved, d', Approved) else d' == approved
      else if evaluation == Some(Policy.Blocked) && d.status == PendingApproval then Moves(d, d', Blocked)
      else d' == d
  {
    if MayApprove(t, auth, d, user, policy) {
      DistinctCounts(d.approvers + [user]);
    }
  }

  /** An execution request launches an approved payment under a Clear evaluation, with one job; under a
      Blocked one it blocks it. */
  lemma ExecutionDecides(d: Rows, evaluation: Option<Policy.Verdict>)
    ensures
      var d' := ExecuteEffect(d, evaluation);
      if d.status == Approved && evaluation == Some(Policy.Clear) then Moves(d.(jobs := d.jobs + 1), d', Executing)
      else if d.status == Approved && evaluation == Some(Policy.Blocked) then Moves(d, d', Blocked)
      else d' == d
  {
  }

  /** What the guarded transactions move from, and where to. */
  lemma TransactionsDecide(d: Rows)
    ensures
      && (if d.status == PendingApproval || d.status == Approved then Moves(d, OrSame(d, CancelTx(d)), Cancelled) else CancelTx(d) == Some(d))
      && (if d.status == Failed then Moves(d, OrSame(d, RetryTx(d)), Executing) else RetryTx(d) == Some(d))
      && (if d.status == Executing then Moves(d, OrSame(d, FailTx(d)), Failed) else FailTx(d) == Some(d))
      && (if d.status == PendingApproval then Moves(d, OrSame(d, ExpireTx(d)), Cancelled) else ExpireTx(d) == Some(d))
      && (if d.status == Executing then Moves(d, OrSame(d, SettleTx(d)), Settled)
          else SettleTx(d) == if d.status == Settled then Some(d) else None)
  {
  }

  // ---------------------------------------------------------------- which calls there are

  /** Each call starts in the states its first reading allows, and not otherwise. */
  lemma CallsStartExactlyWhen(t: Terms, auth: bool, s: State, id: CallId, user: string)
    requires id !in s.calls
    ensures
      var status := s.rows.status;
      && (id in Apply(t, auth, s, Approve(id, user)).calls <==> status == PendingApproval)
      && (id in Apply(t, auth, s, Execute(id)).calls <==> status == Approved)
      && (id in Apply(t, auth, s, Cancel(id)).calls <==> status == PendingApproval || status == Approved)
      && (id in Apply(t, auth, s, Retry(id)).calls <==> status == Failed)
      && (id in Apply(t, auth, s, Saga(id)).calls <==> status == Executing)
  {
  }

  /** A call under way is not started again. */
  lemma CallsStartOnce(t: Terms, auth: bool, s: State, id: CallId, user: string)
    requires id in s.calls
    ensures Apply(t, auth, s, Approve(id, user)) == Apply(t, auth, s, Execute(id)) == s
    ensures Apply(t, auth, s, Cancel(id)) == Apply(t, auth, s, Retry(id)) == Apply(t, auth, s, Saga(id)) == s
  {
  }

  /** Only a run of the saga fails or settles a payment. */
  lemma SagaEndsNeedARun(t: Terms, auth: bool, s: State, id: CallId)
    ensures
      var running := id in s.calls && s.calls[id] == SagaRunning;
      && (Apply(t, auth, s, FailSaga(id)).rows == if running then OrSame(s.rows, FailTx(s.rows)) else s.rows)
      && (Apply(t, auth, s, SettleSaga(id)).rows == if running then OrSame(s.rows, SettleTx(s.rows)) else s.rows)
  {
  }

  /** A request to cancel or to retry that no other call interrupts. */
  lemma CancelAndRetryAlone(t: Terms, auth: bool, d: Rows)
    ensures Apply(t, auth, Apply(t, auth, Idle(d), Cancel(0)), Commit(0)).rows == OrSame(d, CancelTx(d))
    ensures Apply(t, auth, Apply(t, auth, Idle(d), Retry(0)), Commit(0)).rows == OrSame(d, RetryTx(d))
  {
    var cancelling, retrying := Apply(t, auth, Idle(d), Cancel(0)), Apply(t, auth, Idle(d), Retry(0));
    assert d.status in {PendingApproval, Approved} ==> cancelling.calls[0] == CancelReady;
    assert d.status == Failed ==> retrying.calls[0] == RetryReady;
  }
}

/** The commands of the payment service as one request executes them
    (services/payment-service/src/payments.mjs:206-404), on a mutable payment row with its trigger.
    Each is tied to the step system: with no other call in between it does what that call's steps do. */
module PaymentService {
  import opened Basics
  import opened Lifecycle
  import opened Payments
  import opened PaymentTheorems
  import Policy

  datatype Answer =
    | Done
    | NotAccepted
    | InvalidState
    | MissingContext
    | ReviewRequired
    | SelfApprovalForbidden
    | AlreadyApproved
    | StateChangedConcurrently

  predicate Refused(a: Answer) {
    a !in {Done, NotAccepted}
  }

  /** The request sent to the policy service: this payment in the fetched context. */
  function Asked(t: Terms, context: Policy.Request): Policy.Request {
    context.(payment := Some(Policy.Payment(t.asset, t.amount, t.fee, t.required)))
  }

  function Idle(d: Rows): State {
    State(d, map[], [], [], false)
  }

  function ApproveScript(user: string, request: Policy.Request, rules: Policy.Rules, policy: Policy.Rules): seq<Step> {
    [Approve(0, user), Evaluated(0, request, rules), SelfChecked(0, policy), Commit(0)]
  }

  function ExecuteScript(request: Policy.Request, rules: Policy.Rules): seq<Step> {
    [Execute(0), Evaluated(0, request, rules), Commit(0), Drop(0)]
  }

  /** What one approval request does to the rows, given the evaluation and the policy it reads. */
  function ApproveEffect(t: Terms, auth: bool, d: Rows, user: string, evaluation: Option<Policy.Verdict>, policy: Policy.Rules): Rows {
    if d.status != PendingApproval then d
    else
      match evaluation
      case Some(Blocked) => OrSame(d, TransitionTx(d, PendingApproval, Blocked))
      case Some(Clear) =>
        if t.createdBy == Some(user) && auth && !policy.selfApprovalAllowed then d else OrSame(d, ApproveTx(t, d, user))
      case _ => d
  }

  function ExecuteEffect(d: Rows, evaluation: Option<Policy.Verdict>): Rows {
    if d.status != Approved then d
    else
      match evaluation
      case Some(Blocked) => OrSame(d, TransitionTx(d, Approved, Blocked))
      case Some(Clear) => OrSame(d, ExecuteTx(d))
      case _ => d
  }

  function At(d: Rows, call: Call): State {
    State(d, map[0 := call], [], [], false)
  }

  lemma EvaluatedAt(t: Terms, auth: bool, d: Rows, call: Call, context: Policy.Request, rules: Policy.Rules)
    ensures
      Apply(t, auth, At(d, call), Evaluated(0, Asked(t, context), rules))
      == (match Policy.Evaluate(Asked(t, context), rules)
          case None => At(d, call)
          case Some(verdict) => Payments.Decide(t, auth, At(d, call), 0, call, verdict, rules))
  {
  }

  lemma FinishApproval(t: Terms, auth: bool, s: State, user: string, policy: Policy.Rules)
    requires 0 in s.calls && s.calls[0] == (if t.createdBy.Some? && auth then ApproveSelfCheck(user) else ApproveReady(user))
    ensures
      Apply(t, auth, Apply(t, auth, s, SelfChecked(0, policy)), Commit(0)).rows
      == if t.createdBy == Some(user) && auth && !policy.selfApprovalAllowed then s.rows else OrSame(s.rows, ApproveTx(t, s.rows, user))
  {
  }

  lemma FinishBlocking(t: Terms, auth: bool, s: State, policy: Policy.Rules)
    requires 0 in s.calls && s.calls[0] == ApproveBlocking
    ensures Apply(t, auth, Apply(t, auth, s, SelfChecked(0, policy)), Commit(0)).rows
         == OrSame(s.rows, TransitionTx(s.rows, PendingApproval, Blocked))
  {
  }

  lemma FinishNothing(t: Terms, auth: bool, s: State, policy: Policy.Rules)
    requires 0 !in s.calls || s.calls[0].ApproveEvaluating?
    ensures Apply(t, auth, Apply(t, auth, s, SelfChecked(0, policy)), Commit(0)).rows == s.rows
  {
  }

  /** An approval request that no other call interrupts has that effect. */
  lemma ApproveAlone(t: Terms, auth: bool, d: Rows, user: string, context: Policy.Request, rules: Policy.Rules, policy: Policy.Rules)
    ensures
      RunAll(t, auth, Idle(d), ApproveScript(user, Asked(t, context), rules, policy)).rows
      == ApproveEffect(t, auth, d, user, Policy.Evaluate(Asked(t, context), rules), policy)
  {
    RunFour(t, auth, Idle(d), Approve(0, user), Evaluated(0, Asked(t, context), rules), SelfChecked(0, policy), Commit(0));
    if d.status == PendingApproval {
      var call := ApproveEvaluating(user);
      EvaluatedAt(t, auth, d, call, context, rules);
      var s := Apply(t, auth, At(d, call), Evaluated(0, Asked(t, context), rules));
      match Policy.Evaluate(Asked(t, context), rules)
      case Some(Clear) => FinishApproval(t, auth, s, user, policy);
      case Some(Blocked) => FinishBlocking(t, auth, s, policy);
      case _ => FinishNothing(t, auth, s, policy);
    }
  }

  lemma FinishExecution(t: Terms, auth: bool, s: State)
    requires 0 in s.calls && (s.calls[0].ExecuteReady? || s.calls[0].ExecuteBlocking? || s.calls[0].ExecuteEvaluating?)
    ensures Apply(t, auth, Apply(t, auth, s, Commit(0)), Drop(0)).rows
         == match s.calls[0]
            case ExecuteReady(_) => OrSame(s.rows, ExecuteTx(s.rows))
            case ExecuteBlocking => OrSame(s.rows, TransitionTx(s.rows, Approved, Blocked))
            case _ => s.rows
  {
  }

  /** After the evaluation an execution request is at the statement its verdict leads to, or over. */
  lemma ExecutionEvaluated(t: Terms, auth: bool, d: Rows, context: Policy.Request, rules: Policy.Rules)
    ensures
      var s := Apply(t, auth, At(d, ExecuteEvaluating), Evaluated(0, Asked(t, context), rules));
      && s.rows == d
      && (match Policy.Evaluate(Asked(t, context), rules)
          case None => 0 in s.calls && s.calls[0] == ExecuteEvaluating
          case Some(Blocked) => 0 in s.calls && s.calls[0] == ExecuteBlocking
          case Some(Clear) => 0 in s.calls && s.calls[0] == ExecuteReady(rules)
          case Some(Review) => 0 !in s.calls)
  {
    EvaluatedAt(t, auth, d, ExecuteEvaluating, context, rules);
  }

  lemma ExecuteAlone(t: Terms, auth: bool, d: Rows, context: Policy.Request, rules: Policy.Rules)
    ensures
      RunAll(t, auth, Idle(d), ExecuteScript(Asked(t, context), rules)).rows
      == ExecuteEffect(d, Policy.Evaluate(Asked(t, context), rules))
  {
    RunFour(t, auth, Idle(d), Execute(0), Evaluated(0, Asked(t, context), rules), Commit(0), Drop(0));
    if d.status == Approved {
      var s := Apply(t, auth, At(d, ExecuteEvaluating), Evaluated(0, Asked(t, context), rules));
      ExecutionEvaluated(t, auth, d, context, rules);
      assert Apply(t, auth, Idle(d), Execute(0)) == At(d, ExecuteEvaluating);
      if 0 in s.calls {
        FinishExecution(t, auth, s);
      } else {
        assert Apply(t, auth, Apply(t, auth, s, Commit(0)), Drop(0)).rows == d;
      }
    } else {
      NothingRuns(t, auth, Idle(d), Asked(t, context), rules);
    }
  }

  lemma NothingRuns(t: Terms, auth: bool, s: State, request: Policy.Request, rules: Policy.Rules)
    requires 0 !in s.calls && s.rows.status != Approved
    ensures
      var s1 := Apply(t, auth, Apply(t, auth, s, Execute(0)), Evaluated(0, request, rules));
      Apply(t, auth, Apply(t, auth, s1, Commit(0)), Drop(0)).rows == s.rows
  {
  }

  /** Distinct approvers, as the COUNT of the original sees them. */
  method CountDistinct(approvers: seq<string>) returns (n: nat)
    ensures n == Distinct(approvers)
  {
    var seen: set<string> := {};
    for i := 0 to |approvers|
      invariant seen == set a | a in approvers[..i]
    {
      assert approvers[..i + 1] == approvers[..i] + [approvers[i]];
      seen := seen + {approvers[i]};
    }
    assert approvers[..|approvers|] == approvers;
    n := |seen|;
  }

  class PaymentRow {
    const t: Terms
    var status: Status
    var approvals: nat
    var approvers: seq<string>
    var log: seq<Event>
    var jobs: nat
    var retryJobs: nat

    function Contents(): Rows
      reads this
    {
      Rows(status, approvals, approvers, log, jobs)
    }

    constructor (t: Terms, evaluation: Policy.Verdict)
      ensures this.t == t && Contents() == Created(t, evaluation) && retryJobs == 0
    {
      this.t := t;
      jobs, retryJobs := 0, 0;
      if evaluation == Policy.Blocked {
        status, approvals, approvers, log := Blocked, 0, [], OnInsert(Blocked);
      } else if evaluation == Policy.Clear && t.required == 0 {
        status, approvals, approvers, log := Approved, 1, [AutoApprover], OnInsert(Approved);
      } else {
        status, approvals, approvers, log := PendingApproval, 0, [], OnInsert(PendingApproval);
      }
    }

    /** UPDATE of the status column, with the trigger. */
    method UpdateStatus(to: Status) returns (raised: bool)
      modifies this`status, this`log
      ensures raised == WriteStatus(old(Contents()), to).None?
      ensures Contents() == OrSame(old(Contents()), WriteStatus(old(Contents()), to))
    {
      raised := false;
      if to != status {
        if !Allowed(status, to) {
          return true;
        }
        log := log + [Event(Some(status), to)];
      }
      status := to;
    }

    method TransitionInTx(from: Status, to: Status) returns (moved: bool)
      modifies this`status, this`log
      ensures Contents() == OrSame(old(Contents()), TransitionTx(old(Contents()), from, to))
      ensures moved <==> old(status) == from && WriteStatus(old(Contents()), to).Some?
    {
      if status != from {
        return false;
      }
      var raised := UpdateStatus(to);
      moved := !raised;
    }

    /** The approval transaction: re-read, insert the approver unless present, recount, update. */
    method ApproveInTx(user: string) returns (answer: Answer)
      requires RowsOk(t, Contents())
      modifies this
      ensures Contents() == OrSame(old(Contents()), ApproveTx(t, old(Contents()), user))
      ensures answer == AlreadyApproved <==> old(status) == PendingApproval && user in old(approvers)
      ensures answer in {Done, AlreadyApproved}
    {
      ApproveKeeps(t, Contents(), user);
      if status != PendingApproval {
        return Done;
      }
      if user in approvers {
        return AlreadyApproved;
      }
      approvers := approvers + [user];
      approvals := CountDistinct(approvers);
      var raised := UpdateStatus(if approvals >= t.required then Approved else PendingApproval);
      answer := Done;
    }

    /** `approvePayment`. */
    method ApprovePayment(auth: bool, user: string, context: Policy.Request, rules: Policy.Rules, policy: Policy.Rules)
        returns (answer: Answer)
      requires RowsOk(t, Contents())
      modifies this
      ensures Contents() == RunAll(t, auth, Idle(old(Contents())), ApproveScript(user, Asked(t, context), rules, policy)).rows
      ensures Refused(answer) ==> Contents() == old(Contents())
      ensures answer == Done && old(status) == PendingApproval ==> status == Blocked || user in approvers
    {
      ApproveAlone(t, auth, Contents(), user, context, rules, policy);
      if status in {Approved, Executing, Settled} {
        return Done;
      }
      if status != PendingApproval {
        return InvalidState;
      }
      var evaluation := Policy.Evaluate(Asked(t, context), rules);
      if evaluation == None {
        return MissingContext;
      }
      if evaluation == Some(Policy.Blocked) {
        var moved := TransitionInTx(PendingApproval, Blocked);
        return Done;
      }
      if evaluation == Some(Policy.Review) {
        return ReviewRequired;
      }
      if t.createdBy.Some? && auth {
        if t.createdBy == Some(user) && !policy.selfApprovalAllowed {
          return SelfApprovalForbidden;
        }
      }
      answer := ApproveInTx(user);
    }

    /** `executePayment`. */
    method ExecutePayment(auth: bool, context: Policy.Request, rules: Policy.Rules) returns (answer: Answer)
      requires RowsOk(t, Contents())
      modifies this
      ensures Contents() == RunAll(t, auth, Idle(old(Contents())), ExecuteScript(Asked(t, context), rules)).rows
      ensures Refused(answer) ==> Contents() == old(Contents())
      ensures answer == Done ==> status == Executing && jobs == 1
    {
      ExecuteAlone(t, auth, Contents(), context, rules);
      if status == Settled {
        return NotAccepted;
      }
      if status == Executing {
        return Done;
      }
      if status != Approved {
        return InvalidState;
      }
      var evaluation := Policy.Evaluate(Asked(t, context), rules);
      if evaluation == None {
        return MissingContext;
      }
      if evaluation == Some(Policy.Blocked) {
        var moved := TransitionInTx(Approved, Blocked);
        return NotAccepted;
      }
      if evaluation == Some(Policy.Review) {
        return ReviewRequired;
      }
      var transitioned := TransitionInTx(Approved, Executing);
      if !transitioned {
        return StateChangedConcurrently;
      }
      jobs := jobs + 1;
      answer := Done;
    }

    /** `cancelPayment`. */
    method CancelPayment() returns (answer: Answer)
      requires RowsOk(t, Contents())
      modifies this`status, this`log
      ensures Contents() == OrSame(old(Contents()), CancelTx(old(Contents())))
      ensures answer == Done <==> status == Cancelled
      ensures Refused(answer) ==> Contents() == old(Contents())
    {
      if status == Cancelled {
        return Done;
      }
      if status !in {PendingApproval, Approved} {
        return InvalidState;
      }
      var raised := UpdateStatus(Cancelled);
      answer := Done;
    }

    /** `retryExecution`: the guarded update, and a job for a saga run to come, whether or not the
        update found the payment failed. */
    method RetryExecution() returns (answer: Answer)
      requires RowsOk(t, Contents())
      modifies this`status, this`log, this`retryJobs
      ensures Contents() == OrSame(old(Contents()), RetryTx(old(Contents())))
      ensures answer == Done <==> status == Executing
      ensures Refused(answer) ==> Contents() == old(Contents())
      ensures retryJobs == old(retryJobs) + (if old(status) in {Executing, Failed} then 1 else 0)
    {
      if status !in {Executing, Failed} {
        return InvalidState;
      }
      if status == Failed {
        var raised := UpdateStatus(Executing);
      }
      retryJobs := retryJobs + 1;
      answer := Done;
    }
  }
}

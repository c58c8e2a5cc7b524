/** When a completed job stays completed: `completeJob` is two statements, and an error of either sends
    the worker to `failJob`, which does not look at the job's status
    (packages/shared/jobs.mjs:62-122, services/job-worker/src/queue.mjs:40-49). */
module JobCompletion {
  import opened Basics
  import opened Jobs

  /** The only statement that changes a completed job is a `failJob` on it that takes effect. */
  lemma CompletedStepExactlyWhen(s: State, step: Step, id: JobId)
    requires Inv(s) && id < |s.jobs| && s.jobs[id].status == Completed
    ensures id < |Apply(s, step).jobs|
    ensures Apply(s, step).jobs[id] != s.jobs[id]
       <==> step.Fail? && At(s, step.worker, Failing) && Current(s, step.worker) == id && !step.outcome.NoEffectError?
  {
    if step.Complete? && At(s, step.worker, Completing) {
      var w := step.worker;
      assert WorkerOk(s, w, s.workers[w]) && HeldOk(s, w, s.workers[w], 0);
    }
  }

  /** What may go wrong in `completeJob`: an error although the first statement took effect, and an
      error of the second. */
  predicate Allowed(step: Step, lostCompletion: bool, failedLog: bool) {
    && (step.Complete? && step.outcome.EffectError? ==> lostCompletion)
    && (step.LogSuccess? && !step.outcome.EffectOk? ==> failedLog)
  }

  predicate AllAllowed(steps: seq<Step>, lostCompletion: bool, failedLog: bool) {
    forall i :: 0 <= i < |steps| ==> Allowed(steps[i], lostCompletion, failedLog)
  }

  /** No worker is about to fail a job that is completed. */
  predicate FailsOnlyRunning(s: State) {
    forall w :: w in s.workers && At(s, w, Failing) ==> s.jobs[Current(s, w)].status == Running
  }

  lemma AnothersCurrent(s: State, v: WorkerId, w: WorkerId)
    requires Inv(s) && v in s.workers && w in s.workers && v != w && s.workers[v].rest != [] && s.workers[w].rest != []
    ensures Current(s, v) != Current(s, w)
  {
    assert Holds(s, v, Current(s, v)) && Holds(s, w, Current(s, w));
  }

  /** The current job of a worker that has not yet completed it is running. */
  lemma CurrentIsRunning(s: State, w: WorkerId)
    requires Inv(s) && (At(s, w, Handling) || At(s, w, Completing))
    ensures s.jobs[Current(s, w)].status == Running
  {
    assert WorkerOk(s, w, s.workers[w]) && HeldOk(s, w, s.workers[w], 0);
  }

  lemma OwnStatementKeepsFailsOnlyRunning(s: State, step: Step)
    requires Inv(s) && FailsOnlyRunning(s) && Allowed(step, false, false)
    requires step.Handle? || step.Complete? || step.LogSuccess? || step.Fail?
    ensures FailsOnlyRunning(Apply(s, step))
  {
    var s', w := Apply(s, step), step.worker;
    if At(s, w, Handling) || At(s, w, Completing) {
      CurrentIsRunning(s, w);
    }
    forall v | v in s'.workers && At(s', v, Failing)
      ensures s'.jobs[Current(s', v)].status == Running
    {
      if v != w && w in s.workers && s.workers[w].rest != [] {
        AnothersCurrent(s, v, w);
      }
    }
  }

  lemma StepKeepsFailsOnlyRunning(s: State, step: Step)
    requires Inv(s) && FailsOnlyRunning(s) && Allowed(step, false, false)
    ensures FailsOnlyRunning(Apply(s, step))
  {
    var s' := Apply(s, step);
    match step
    case Enqueue(maxAttempts, runAt) =>
      forall w | w in s'.workers && At(s', w, Failing)
        ensures s'.jobs[Current(s', w)].status == Running
      {
        HeldIsBusy(s, w, Current(s, w));
      }
    case Claim(w, picked, now, outcome) =>
    case Crash(w) =>
    case _ => OwnStatementKeepsFailsOnlyRunning(s, step);
  }

  lemma {:induction false} CompletedStays(s: State, steps: seq<Step>, id: JobId)
    requires Inv(s) && FailsOnlyRunning(s) && AllAllowed(steps, false, false)
    requires id < |s.jobs| && s.jobs[id].status == Completed
    ensures var s' := RunAll(s, steps); id < |s'.jobs| && s'.jobs[id] == s.jobs[id]
    decreases |steps|
  {
    if steps != [] {
      assert Allowed(steps[0], false, false);
      CompletedStepExactlyWhen(s, steps[0], id);
      StepKeepsInv(s, steps[0]);
      StepKeepsFailsOnlyRunning(s, steps[0]);
      CompletedStays(Apply(s, steps[0]), steps[1..], id);
    }
  }

  lemma {:induction false} RunsKeepFailsOnlyRunning(s: State, steps: seq<Step>)
    requires Inv(s) && FailsOnlyRunning(s) && AllAllowed(steps, false, false)
    ensures FailsOnlyRunning(RunAll(s, steps))
    decreases |steps|
  {
    if steps != [] {
      assert Allowed(steps[0], false, false);
      StepKeepsInv(s, steps[0]);
      StepKeepsFailsOnlyRunning(s, steps[0]);
      RunsKeepFailsOnlyRunning(Apply(s, steps[0]), steps[1..]);
    }
  }

  lemma RunConcat(s: State, first: seq<Step>, then_: seq<Step>)
    ensures RunAll(s, first + then_) == RunAll(RunAll(s, first), then_)
    decreases |first|
  {
    if first == [] {
      assert first + then_ == then_;
    } else {
      assert (first + then_)[0] == first[0] && (first + then_)[1..] == first[1..] + then_;
      RunConcat(Apply(s, first[0]), first[1..], then_);
    }
  }

  /** A job completed after the first statements is as it was after the others. */
  predicate StaysCompleted(first: seq<Step>, then_: seq<Step>, id: JobId) {
    var s, s' := RunAll(Empty, first), RunAll(Empty, first + then_);
    id < |s.jobs| && s.jobs[id].status == Completed ==> id < |s'.jobs| && s'.jobs[id] == s.jobs[id]
  }

  lemma CompletedForGood(first: seq<Step>, then_: seq<Step>, id: JobId)
    requires AllAllowed(first, false, false) && AllAllowed(then_, false, false)
    ensures StaysCompleted(first, then_, id)
  {
    var s := RunAll(Empty, first);
    RunConcat(Empty, first, then_);
    if id < |s.jobs| && s.jobs[id].status == Completed {
      RunsKeepInv(Empty, first);
      RunsKeepFailsOnlyRunning(Empty, first);
      CompletedStays(s, then_, id);
    }
  }

  // ---------------------------------------------------------------- how it fails

  /** A worker claims the only job and its handler returns. */
  function ToCompletion(maxAttempts: int): seq<Step> {
    [Enqueue(maxAttempts, 0), Claim(0, [0], 0, EffectOk), Handle(0, Returned)]
  }

  /** It is marked completed, but an error comes back. */
  function CompletedWithError(lost: bool): seq<Step> {
    if lost then [Complete(0, EffectError)] else [Complete(0, EffectOk), LogSuccess(0, NoEffectError)]
  }

  lemma ToCompletionRuns(maxAttempts: int)
    ensures
      var s := RunAll(Empty, ToCompletion(maxAttempts));
      && s.jobs == [Job(Running, 1, maxAttempts, 0, Some(0))] && s.alerts == []
      && s.workers == map[0 := Worker([0], Completing)]
  {
    var steps := ToCompletion(maxAttempts);
    var s1 := Apply(Empty, steps[0]);
    assert s1.jobs == [Enqueued(maxAttempts, 0)];
    assert Pickable(s1.jobs, [0], 0);
    var s2 := Apply(s1, steps[1]);
    assert s2.jobs == [Job(Running, 1, maxAttempts, 0, Some(0))] && s2.workers == map[0 := Worker([0], Handling)];
    assert steps[1..] == [steps[1], steps[2]] && steps[1..][1..] == [steps[2]] && [steps[2]][1..] == [];
    assert RunAll(Empty, steps) == RunAll(s1, steps[1..]) == RunAll(s2, [steps[2]]) == RunAll(Apply(s2, steps[2]), []);
  }

  lemma CompletedWithErrorRuns(s: State, lost: bool)
    requires |s.jobs| == 1 && s.workers == map[0 := Worker([0], Completing)]
    ensures
      var s' := RunAll(s, CompletedWithError(lost));
      && s'.jobs == [CompletedJob(s.jobs[0])] && s'.alerts == s.alerts && s'.workers == map[0 := Worker([0], Failing)]
  {
    var steps := CompletedWithError(lost);
    var s1 := Apply(s, steps[0]);
    if lost {
      assert steps[1..] == [];
      assert RunAll(s, steps) == RunAll(s1, []);
    } else {
      assert steps[1..] == [steps[1]] && [steps[1]][1..] == [];
      assert RunAll(s, steps) == RunAll(s1, [steps[1]]) == RunAll(Apply(s1, steps[1]), []);
    }
  }

  /** An error of either statement makes the worker fail the job it has completed: one with attempts
      left is then due to run again, one without is dead-lettered and raises an alert. */
  lemma CompletedJobIsFailed(maxAttempts: int, lost: bool)
    ensures
      var done := RunAll(Empty, ToCompletion(maxAttempts) + CompletedWithError(lost));
      var s := RunAll(Empty, ToCompletion(maxAttempts) + CompletedWithError(lost) + [Fail(0, 0, EffectOk)]);
      && |done.jobs| == |s.jobs| == 1 && done.jobs[0].status == Completed && done.alerts == []
      && (if maxAttempts <= 1 then s.jobs[0].status == DeadLettered && s.alerts == [0]
          else Claimable(s.jobs[0], Backoff(1)) && s.alerts == [])
  {
    var begun, ended := ToCompletion(maxAttempts), CompletedWithError(lost);
    var s1 := RunAll(Empty, begun);
    ToCompletionRuns(maxAttempts);
    CompletedWithErrorRuns(s1, lost);
    RunConcat(Empty, begun, ended);
    RunConcat(Empty, begun + ended, [Fail(0, 0, EffectOk)]);
    var s2 := RunAll(s1, ended);
    assert [Fail(0, 0, EffectOk)][1..] == [];
    assert RunAll(s2, [Fail(0, 0, EffectOk)]) == RunAll(Apply(s2, Fail(0, 0, EffectOk)), []);
  }

  /** A completed job stays completed over every run if and only if neither kind of error occurs. */
  lemma CompletedIsFinalExactlyWhen(lostCompletion: bool, failedLog: bool)
    ensures (forall first, then_, id | AllAllowed(first + then_, lostCompletion, failedLog) :: StaysCompleted(first, then_, id))
       <==> !lostCompletion && !failedLog
  {
    if lostCompletion || failedLog {
      var first, then_ := ToCompletion(1) + CompletedWithError(lostCompletion), [Fail(0, 0, EffectOk)];
      CompletedJobIsFailed(1, lostCompletion);
      assert AllAllowed(first + then_, lostCompletion, failedLog);
      assert !StaysCompleted(first, then_, 0);
    } else {
      forall first, then_, id | AllAllowed(first + then_, false, false)
        ensures StaysCompleted(first, then_, id)
      {
        assert first == (first + then_)[..|first|] && then_ == (first + then_)[|first|..];
        CompletedForGood(first, then_, id);
      }
    }
  }
}

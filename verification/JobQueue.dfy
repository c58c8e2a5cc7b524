/** The statements of the job queue as a worker executes them, on mutable tables
    (packages/shared/jobs.mjs:33-122, services/job-worker/src/queue.mjs:30-50). */
module JobQueue {
  import opened Basics
  import opened Jobs
  import Outbox

  /** The rows a claim selects: due, oldest run_at first, at most `limit`, and none older left out. */
  predicate IsSelection(jobs: seq<Job>, picked: seq<JobId>, now: int, limit: nat) {
    && Pickable(jobs, picked, now) && |picked| <= limit
    && (forall i, j :: 0 <= i < j < |picked| ==> jobs[picked[i]].runAt <= jobs[picked[j]].runAt)
    && forall id :: 0 <= id < |jobs| && Claimable(jobs[id], now) && id !in picked ==>
         |picked| == limit && NoLater(jobs, picked, jobs[id].runAt)
  }

  predicate NoLater(jobs: seq<Job>, picked: seq<JobId>, runAt: int)
    requires forall i :: 0 <= i < |picked| ==> picked[i] < |jobs|
  {
    forall i :: 0 <= i < |picked| ==> jobs[picked[i]].runAt <= runAt
  }

  /** The claimable job with the least run_at that is not yet picked. */
  method NextDue(jobs: seq<Job>, picked: seq<JobId>, now: int) returns (next: Option<JobId>)
    ensures next.Some? ==> next.value < |jobs| && Claimable(jobs[next.value], now) && next.value !in picked
    ensures next.Some? ==> forall id :: 0 <= id < |jobs| && Claimable(jobs[id], now) && id !in picked ==> jobs[next.value].runAt <= jobs[id].runAt
    ensures next.None? ==> forall id :: 0 <= id < |jobs| && Claimable(jobs[id], now) ==> id in picked
  {
    next := None;
    for id := 0 to |jobs|
      invariant next.Some? ==> next.value < id && Claimable(jobs[next.value], now) && next.value !in picked
      invariant next.Some? ==> forall k :: 0 <= k < id && Claimable(jobs[k], now) && k !in picked ==> jobs[next.value].runAt <= jobs[k].runAt
      invariant next.None? ==> forall k :: 0 <= k < id && Claimable(jobs[k], now) ==> k in picked
    {
      if Claimable(jobs[id], now) && id !in picked && (next.None? || jobs[id].runAt < jobs[next.value].runAt) {
        next := Some(id);
      }
    }
  }

  method SelectDue(jobs: seq<Job>, now: int, limit: nat) returns (picked: seq<JobId>)
    ensures IsSelection(jobs, picked, now, limit)
  {
    picked := [];
    while |picked| < limit
      invariant Pickable(jobs, picked, now) && |picked| <= limit
      invariant forall i, j :: 0 <= i < j < |picked| ==> jobs[picked[i]].runAt <= jobs[picked[j]].runAt
      invariant forall id :: 0 <= id < |jobs| && Claimable(jobs[id], now) && id !in picked ==> NoLater(jobs, picked, jobs[id].runAt)
      decreases limit - |picked|
    {
      var next := NextDue(jobs, picked, now);
      if next.None? {
        return;
      }
      assert NoLater(jobs, picked, jobs[next.value].runAt);
      picked := picked + [next.value];
    }
  }

  /** After its n-th failed attempt a job waits as long as an outbox event after its n-th. */
  lemma BackoffsAgree(attempt: nat)
    requires attempt >= 1
    ensures Backoff(attempt) == Outbox.Backoff(attempt - 1)
  {
  }

  /** One worker running one job, with nobody else writing it: the steps of `runJob`. */
  function RunScript(handled: Handled, completed: Outcome, logged: Outcome, now: int, failed: Outcome): seq<Step> {
    [Handle(0, handled), Complete(0, completed), LogSuccess(0, logged), Fail(0, now, failed)]
  }

  function OneWorker(jobs: seq<Job>, log: seq<Attempt>, alerts: seq<JobId>, id: JobId, pc: Pc): State {
    State(jobs, log, alerts, map[0 := Worker([id], pc)])
  }

  lemma RunFour(s: State, a: Step, b: Step, c: Step, d: Step)
    ensures RunAll(s, [a, b, c, d]) == Apply(Apply(Apply(Apply(s, a), b), c), d)
  {
    var s1 := Apply(s, a);
    var s2 := Apply(s1, b);
    var s3 := Apply(s2, c);
    assert [a, b, c, d][1..] == [b, c, d] && [b, c, d][1..] == [c, d] && [c, d][1..] == [d] && [d][1..] == [];
    assert RunAll(s, [a, b, c, d]) == RunAll(s1, [b, c, d]) == RunAll(s2, [c, d]);
    assert RunAll(s2, [c, d]) == RunAll(s3, [d]) == RunAll(Apply(s3, d), []);
  }

  /** The tables after `failJob`. */
  function AfterFail(s: State, id: JobId, now: int, outcome: Outcome): State
    requires id < |s.jobs|
  {
    if outcome.NoEffectError? then s else FailTx(s, id, now)
  }

  predicate SameTables(a: State, b: State) {
    a.jobs == b.jobs && a.log == b.log && a.alerts == b.alerts
  }

  lemma FailingRuns(s: State, id: JobId, now: int, failed: Outcome)
    requires id < |s.jobs| && s.workers == map[0 := Worker([id], Failing)]
    ensures SameTables(Apply(s, Fail(0, now, failed)), AfterFail(s, id, now, failed))
  {
  }

  /** What one run of a job does to the tables. */
  function RunEffect(s: State, id: JobId, handled: Handled, completed: Outcome, logged: Outcome, now: int, failed: Outcome): State
    requires id < |s.jobs|
  {
    if handled != Returned then AfterFail(s, id, now, failed)
    else
      var s1 := if completed.NoEffectError? then s else s.(jobs := s.jobs[id := CompletedJob(s.jobs[id])]);
      if !completed.EffectOk? then AfterFail(s1, id, now, failed)
      else
        var s2 := if logged.NoEffectError? then s1 else s1.(log := s1.log + [Attempt(id, s1.jobs[id].attempts, Success)]);
        if logged.EffectOk? then s2 else AfterFail(s2, id, now, failed)
  }

  /** Once the job has failed the other statements are passed over, and `failJob` is called. */
  lemma FailureRuns(s: State, id: JobId, completed: Outcome, logged: Outcome, now: int, failed: Outcome)
    requires id < |s.jobs| && s.workers == map[0 := Worker([id], Failing)]
    ensures SameTables(Apply(Apply(Apply(s, Complete(0, completed)), LogSuccess(0, logged)), Fail(0, now, failed)),
                       AfterFail(s, id, now, failed))
  {
    assert Apply(s, Complete(0, completed)) == s && Apply(s, LogSuccess(0, logged)) == s;
    FailingRuns(s, id, now, failed);
  }

  lemma CompletionRuns(s: State, id: JobId, completed: Outcome, logged: Outcome, now: int, failed: Outcome)
    requires id < |s.jobs| && s.workers == map[0 := Worker([id], Completing)]
    ensures SameTables(Apply(Apply(Apply(s, Complete(0, completed)), LogSuccess(0, logged)), Fail(0, now, failed)),
                       RunEffect(s, id, Returned, completed, logged, now, failed))
  {
    var s1 := Apply(s, Complete(0, completed));
    assert At(s, 0, Completing);
    if completed.EffectOk? {
      var s2 := Apply(s1, LogSuccess(0, logged));
      assert At(s1, 0, LoggingSuccess);
      if !logged.EffectOk? {
        FailingRuns(s2, id, now, failed);
      }
    } else {
      FailingRuns(s1, id, now, failed);
    }
  }

  lemma HandlingRuns(s: State, id: JobId, handled: Handled)
    requires id < |s.jobs| && s.workers == map[0 := Worker([id], Handling)]
    ensures Apply(s, Handle(0, handled)) == s.(workers := map[0 := Worker([id], if handled == Returned then Completing else Failing)])
  {
  }

  lemma ScriptHasThatEffect(s: State, id: JobId, handled: Handled, completed: Outcome, logged: Outcome, now: int, failed: Outcome)
    requires id < |s.jobs| && s.workers == map[0 := Worker([id], Handling)]
    ensures SameTables(RunAll(s, RunScript(handled, completed, logged, now, failed)),
                       RunEffect(s, id, handled, completed, logged, now, failed))
  {
    var s1 := s.(workers := map[0 := Worker([id], if handled == Returned then Completing else Failing)]);
    HandlingRuns(s, id, handled);
    if handled == Returned {
      CompletionRuns(s1, id, completed, logged, now, failed);
    } else {
      FailureRuns(s1, id, completed, logged, now, failed);
    }
    RunFour(s, Handle(0, handled), Complete(0, completed), LogSuccess(0, logged), Fail(0, now, failed));
  }

  /** What is awaited in the `try` block throws. */
  predicate Throws(handled: Handled, first: Outcome, second: Outcome) {
    handled == Threw || (handled == Returned && !(first.EffectOk? && second.EffectOk?))
  }

  class Queue {
    var jobs: seq<Job>
    var log: seq<Attempt>
    var alerts: seq<JobId>
    var noHandler: nat
    var completed: nat
    var failed: nat
    var deadLettered: nat

    function Tables(): State
      reads this
    {
      State(jobs, log, alerts, map[])
    }

    /** `claimJobs`: select, mark, and log one attempt per row, in one transaction. */
    method ClaimJobs(workerId: WorkerId, limit: nat, now: int) returns (rows: seq<JobId>)
      modifies this`jobs, this`log
      ensures IsSelection(old(jobs), rows, now, limit)
      ensures Tables() == ClaimTx(old(Tables()), rows, workerId)
    {
      rows := SelectDue(jobs, now, limit);
      MarkRunning(rows, workerId);
      LogStarted(rows);
    }

    method MarkRunning(rows: seq<JobId>, workerId: WorkerId)
      requires NoRepeats(rows) && forall i :: 0 <= i < |rows| ==> rows[i] < |jobs|
      modifies this`jobs
      ensures jobs == Claimed(old(jobs), rows, workerId)
    {
      assert rows[..0] == [];
      assert jobs == Claimed(jobs, rows[..0], workerId);
      for i := 0 to |rows|
        invariant jobs == Claimed(old(jobs), rows[..i], workerId)
      {
        assert rows[..i + 1] == rows[..i] + [rows[i]];
        var job := jobs[rows[i]];
        jobs := jobs[rows[i] := job.(status := Running, attempts := job.attempts + 1, lockedBy := Some(workerId))];
      }
      assert rows[..|rows|] == rows;
    }

    method LogStarted(rows: seq<JobId>)
      requires forall i :: 0 <= i < |rows| ==> rows[i] < |jobs|
      modifies this`log
      ensures log == old(log) + StartedRows(jobs, rows)
    {
      for i := 0 to |rows|
        invariant log == old(log) + StartedRows(jobs, rows[..i])
      {
        assert rows[..i + 1] == rows[..i] + [rows[i]];
        log := log + [Attempt(rows[i], jobs[rows[i]].attempts, Started)];
      }
      assert rows[..|rows|] == rows;
    }

    /** `completeJob`: two statements, each on its own. */
    method CompleteJob(id: JobId, attemptNo: nat, first: Outcome, second: Outcome) returns (threw: bool)
      requires id < |jobs|
      modifies this`jobs, this`log
      ensures jobs == if first.NoEffectError? then old(jobs) else old(jobs)[id := CompletedJob(old(jobs)[id])]
      ensures log == if first.EffectOk? && !second.NoEffectError? then old(log) + [Attempt(id, attemptNo, Success)] else old(log)
      ensures threw <==> !(first.EffectOk? && second.EffectOk?)
    {
      if !first.NoEffectError? {
        jobs := jobs[id := jobs[id].(status := Completed, lockedBy := None)];
      }
      if !first.EffectOk? {
        return true;
      }
      if !second.NoEffectError? {
        log := log + [Attempt(id, attemptNo, Success)];
      }
      threw := !second.EffectOk?;
    }

    /** `failJob`: one transaction on the re-read row. */
    method FailJob(id: JobId, maxAttempts: int, now: int, outcome: Outcome) returns (threw: bool)
      requires id < |jobs| && maxAttempts == jobs[id].maxAttempts
      modifies this`jobs, this`log, this`alerts
      ensures Tables() == AfterFail(old(Tables()), id, now, outcome)
      ensures threw <==> !outcome.EffectOk?
    {
      if !outcome.NoEffectError? {
        var job := jobs[id];
        if job.attempts >= maxAttempts {
          jobs := jobs[id := job.(status := DeadLettered, lockedBy := None)];
          log := log + [Attempt(id, job.attempts, LastError)];
          alerts := alerts + [id];
        } else {
          jobs := jobs[id := job.(status := Failed, runAt := now + Backoff(job.attempts), lockedBy := None)];
          log := log + [Attempt(id, job.attempts, Error)];
        }
      }
      threw := !outcome.EffectOk?;
    }

    /** `runJob` on a row as claimed: `job` is the copy the worker holds. */
    method RunJob(id: JobId, job: Job, handled: Handled, first: Outcome, second: Outcome, now: int, failing: Outcome)
        returns (escaped: bool)
      requires id < |jobs| && job == jobs[id]
      modifies this
      ensures SameTables(Tables(),
        RunAll(OneWorker(old(jobs), old(log), old(alerts), id, Handling), RunScript(handled, first, second, now, failing)))
      ensures completed == old(completed) + (if handled == Returned then 1 else 0)
      ensures noHandler == old(noHandler) + (if handled == NoHandler then 1 else 0)
      ensures failed == old(failed) + (if Throws(handled, first, second) then 1 else 0)
      ensures deadLettered == old(deadLettered) + (if Throws(handled, first, second) && Exhausted(job, job.maxAttempts) then 1 else 0)
      ensures escaped <==> (handled == NoHandler || Throws(handled, first, second)) && !failing.EffectOk?
      ensures alerts == old(alerts) +
        (if (handled == NoHandler || Throws(handled, first, second)) && Exhausted(job, job.maxAttempts) && !failing.NoEffectError? then [id] else [])
    {
      ScriptHasThatEffect(OneWorker(jobs, log, alerts, id, Handling), id, handled, first, second, now, failing);
      if handled == NoHandler {
        noHandler := noHandler + 1;
        escaped := FailJob(id, job.maxAttempts, now, failing);
        return;
      }
      var threw := handled == Threw;
      if !threw {
        completed := completed + 1;
        threw := CompleteJob(id, job.attempts, first, second);
      }
      escaped := false;
      if threw {
        escaped := CatchError(id, job, now, failing);
      }
    }

    /** The catch block of `runJob`. */
    method CatchError(id: JobId, job: Job, now: int, failing: Outcome) returns (escaped: bool)
      requires id < |jobs| && job.attempts == jobs[id].attempts && job.maxAttempts == jobs[id].maxAttempts
      modifies this`jobs, this`log, this`alerts, this`failed, this`deadLettered
      ensures Tables() == AfterFail(old(Tables()), id, now, failing)
      ensures failed == old(failed) + 1
      ensures deadLettered == old(deadLettered) + (if Exhausted(job, job.maxAttempts) then 1 else 0)
      ensures escaped <==> !failing.EffectOk?
    {
      failed := failed + 1;
      if job.attempts >= job.maxAttempts {
        deadLettered := deadLettered + 1;
      }
      escaped := FailJob(id, job.maxAttempts, now, failing);
    }
  }
}

/** Which jobs a claim takes and what a failure makes of a job, in terms of the rows themselves
    (packages/shared/jobs.mjs:33-122, services/job-worker/src/queue.mjs:30-50). */
module JobDecisions {
  import opened Basics
  import opened Jobs
  import opened JobQueue

  // ---------------------------------------------------------------- what a claim takes

  /** Never run, or failed and meant to be run again, and its time has come. */
  predicate IsDue(job: Job, now: int) {
    (job.status == Pending || job.status == Failed) && !(job.runAt > now)
  }

  function DueJobs(jobs: seq<Job>, now: int): set<JobId> {
    set id: JobId | id < |jobs| && IsDue(jobs[id], now)
  }

  function Ids(picked: seq<JobId>): set<JobId> {
    set id | id in picked
  }

  /** All due jobs, or as many as the limit allows and then none that is due before one taken. */
  ghost predicate TakesOldest(jobs: seq<Job>, picked: seq<JobId>, now: int, limit: nat) {
    var taken, due := Ids(picked), DueJobs(jobs, now);
    && |taken| == |picked| && taken <= due
    && |picked| == Min(limit, |due|)
    && (forall i, j :: 0 <= i < j < |picked| ==> picked[i] < |jobs| && picked[j] < |jobs| && jobs[picked[i]].runAt <= jobs[picked[j]].runAt)
    && forall id, late :: id in taken && late in due - taken ==> jobs[id].runAt <= jobs[late].runAt
  }

  lemma {:induction false} SetOfDistinct(picked: seq<JobId>)
    ensures |Ids(picked)| <= |picked|
    ensures NoRepeats(picked) <==> |Ids(picked)| == |picked|
  {
    if picked != [] {
      var front, last := picked[..|picked| - 1], picked[|picked| - 1];
      SetOfDistinct(front);
      assert Ids(picked) == Ids(front) + {last};
      if last in front {
        var k :| 0 <= k < |front| && front[k] == last;
        assert picked[k] == picked[|picked| - 1];
        assert Ids(picked) == Ids(front);
      } else {
        RepeatsOfLonger(picked);
      }
    }
  }

  lemma RepeatsOfLonger(picked: seq<JobId>)
    requires picked != [] && picked[|picked| - 1] !in picked[..|picked| - 1]
    ensures NoRepeats(picked) <==> NoRepeats(picked[..|picked| - 1])
  {
    var front := picked[..|picked| - 1];
    if NoRepeats(front) {
      forall i, j | 0 <= i < j < |picked| ensures picked[i] != picked[j] {
        assert picked[i] in front;
      }
    }
    if NoRepeats(picked) {
      forall i, j | 0 <= i < j < |front| ensures front[i] != front[j] {
        assert front[i] == picked[i] && front[j] == picked[j];
      }
    }
  }

  lemma TakenWithinDue(taken: set<JobId>, due: set<JobId>, limit: nat)
    requires taken <= due
    ensures |taken| <= |due| && (|taken| == |due| <==> taken == due)
  {
    assert due == taken + (due - taken);
    assert |due| == |taken| + |due - taken|;
  }

  /** The SELECT of a claim takes the oldest due jobs, as many as there are up to the limit. */
  lemma ClaimTakesOldest(jobs: seq<Job>, picked: seq<JobId>, now: int, limit: nat)
    requires IsSelection(jobs, picked, now, limit)
    ensures TakesOldest(jobs, picked, now, limit)
  {
    var taken, due := Ids(picked), DueJobs(jobs, now);
    SetOfDistinct(picked);
    assert forall id :: id in taken ==> id in due;
    TakenWithinDue(taken, due, limit);
    if taken != due {
      var id :| id in due && id !in taken;
      assert Claimable(jobs[id], now) && id !in picked;
    }
    forall id, late | id in taken && late in due - taken ensures jobs[id].runAt <= jobs[late].runAt {
      assert Claimable(jobs[late], now) && late !in picked;
      assert NoLater(jobs, picked, jobs[late].runAt);
      var i :| 0 <= i < |picked| && picked[i] == id;
    }
  }

  lemma OldestIsASelection(jobs: seq<Job>, picked: seq<JobId>, now: int, limit: nat)
    requires TakesOldest(jobs, picked, now, limit)
    ensures IsSelection(jobs, picked, now, limit)
  {
    var taken, due := Ids(picked), DueJobs(jobs, now);
    SetOfDistinct(picked);
    forall i | 0 <= i < |picked| ensures picked[i] < |jobs| && Claimable(jobs[picked[i]], now) {
      assert picked[i] in taken;
    }
    forall id | 0 <= id < |jobs| && Claimable(jobs[id], now) && id !in picked
      ensures |picked| == limit && NoLater(jobs, picked, jobs[id].runAt)
    {
      assert id in due - taken;
      TakenWithinDue(taken, due, limit);
      forall i | 0 <= i < |picked| ensures jobs[picked[i]].runAt <= jobs[id].runAt {
        assert picked[i] in taken;
      }
    }
  }

  // ---------------------------------------------------------------- what a failure does

  /** Milliseconds until the next attempt: half a second after the first, doubling, a minute at most. */
  function WaitAfter(attempt: nat): int {
    if 250 * Power2(attempt) >= 60000 then 60000 else 250 * Power2(attempt)
  }

  /** A failed job is dead-lettered with an alert from its last attempt on, and before it waits to be
      claimed again; its attempts are not counted twice and nobody holds it. */
  lemma FailureDecides(s: State, id: JobId, now: int)
    requires id < |s.jobs|
    ensures
      var job, s' := s.jobs[id], FailTx(s, id, now);
      var after, last := s'.jobs[id], job.attempts >= job.maxAttempts;
      && |s'.jobs| == |s.jobs| && (forall k :: 0 <= k < |s.jobs| && k != id ==> s'.jobs[k] == s.jobs[k])
      && after.attempts == job.attempts && after.maxAttempts == job.maxAttempts && after.lockedBy.None?
      && (after.status == DeadLettered <==> last) && (after.status == Failed <==> !last)
      && (forall later :: IsDue(after, later) <==> !last && later >= now + WaitAfter(job.attempts))
      && s'.alerts == s.alerts + (if last then [id] else [])
      && s'.log == s.log + [Attempt(id, job.attempts, if last then LastError else Error)]
      && s'.workers == s.workers
  {
  }

  /** A claimed job is held by its worker with one attempt more; no other row changes. */
  lemma ClaimDecides(s: State, picked: seq<JobId>, w: WorkerId, id: JobId)
    requires id < |s.jobs| && forall i :: 0 <= i < |picked| ==> picked[i] < |s.jobs|
    ensures
      var job, after := s.jobs[id], ClaimTx(s, picked, w).jobs[id];
      && (id in picked ==> after.status == Running && after.attempts == job.attempts + 1 && after.lockedBy == Some(w))
      && (id in picked ==> after.runAt == job.runAt && after.maxAttempts == job.maxAttempts)
      && (id !in picked ==> after == job)
  {
  }

  /** Every claimed job has its new attempt logged as started. */
  lemma ClaimLogs(s: State, picked: seq<JobId>, w: WorkerId)
    requires forall i :: 0 <= i < |picked| ==> picked[i] < |s.jobs|
    ensures
      var s' := ClaimTx(s, picked, w);
      && |s'.log| == |s.log| + |picked| && s'.log[..|s.log|] == s.log && s'.alerts == s.alerts
      && forall i :: 0 <= i < |picked| ==> s'.log[|s.log| + i] == Attempt(picked[i], s.jobs[picked[i]].attempts + 1, Started)
  {
  }

  /** A claim that took effect has claimed its jobs whether the worker learns of it or not; only a worker
      that does has a batch to work through. */
  lemma ClaimEnds(s: State, w: WorkerId, picked: seq<JobId>, now: int, outcome: Outcome)
    requires (w !in s.workers || s.workers[w].rest == []) && Pickable(s.jobs, picked, now)
    ensures
      var s' := Apply(s, Claim(w, picked, now, outcome));
      && (outcome == NoEffectError ==> s' == s)
      && (outcome != NoEffectError ==> SameTables(s', ClaimTx(s, picked, w)))
      && (outcome == EffectOk ==> s'.workers == s.workers[w := Worker(picked, Handling)])
      && (outcome != EffectOk ==> s'.workers == s.workers)
  {
  }

  /** A completed job is nobody's any more and otherwise as it was. */
  lemma CompletionDecides(job: Job)
    ensures
      var after := CompletedJob(job);
      && after.status == Completed && after.lockedBy.None?
      && after.attempts == job.attempts && after.maxAttempts == job.maxAttempts && after.runAt == job.runAt
  {
  }

  /** After a failure has been recorded the worker takes the next job of its batch; when recording it ends
      in an error the rest of the batch is left claimed. */
  lemma FailEnds(s: State, w: WorkerId, now: int, outcome: Outcome)
    requires At(s, w, Failing)
    ensures
      var s', rest := Apply(s, Fail(w, now, outcome)), s.workers[w].rest;
      && SameTables(s', AfterFail(s, rest[0], now, outcome))
      && s'.workers == s.workers[w := Worker(if outcome == EffectOk then rest[1..] else [], Handling)]
  {
  }

  /** The first statement of `completeJob` completes the job when it takes effect; the worker goes on to the
      second exactly when it is told so, and to its catch block otherwise. */
  lemma CompleteEnds(s: State, w: WorkerId, outcome: Outcome)
    requires At(s, w, Completing)
    ensures
      var s', rest := Apply(s, Complete(w, outcome)), s.workers[w].rest;
      var job := s.jobs[rest[0]];
      && s'.jobs == s.jobs[rest[0] := if outcome == NoEffectError then job else job.(status := Completed, lockedBy := None)]
      && s'.log == s.log && s'.alerts == s.alerts
      && s'.workers == s.workers[w := Worker(rest, if outcome == EffectOk then LoggingSuccess else Failing)]
  {
  }

  /** The second logs the attempt as a success when it takes effect; the worker takes its next job exactly
      when it is told so. */
  lemma LogEnds(s: State, w: WorkerId, outcome: Outcome)
    requires At(s, w, LoggingSuccess)
    ensures
      var s', rest := Apply(s, LogSuccess(w, outcome)), s.workers[w].rest;
      && s'.log == s.log + (if outcome == NoEffectError then [] else [Attempt(rest[0], s.jobs[rest[0]].attempts, Success)])
      && s'.jobs == s.jobs && s'.alerts == s.alerts
      && s'.workers == s.workers[w := if outcome == EffectOk then Worker(rest[1..], Handling) else Worker(rest, Failing)]
  {
  }

  /** A worker that dies leaves the tables as they are, and its jobs claimed. */
  lemma CrashLeavesTables(s: State, w: WorkerId)
    ensures
      var s' := Apply(s, Crash(w));
      SameTables(s', s) && w !in s'.workers && forall v :: v in s.workers && v != w ==> v in s'.workers && s'.workers[v] == s.workers[v]
  {
  }

  /** The catch block is reached exactly when the handler or one of the statements of `completeJob`
      throws; it is then that the run is counted as failed. */
  lemma ThrowsExactlyWhenCaught(s: State, id: JobId, handled: Handled, completed: Outcome, logged: Outcome)
    requires id < |s.jobs| && s.workers == map[0 := Worker([id], Handling)] && handled != NoHandler
    ensures
      var s' := Apply(Apply(Apply(s, Handle(0, handled)), Complete(0, completed)), LogSuccess(0, logged));
      && 0 in s'.workers
      && (Throws(handled, completed, logged) <==> s'.workers[0] == Worker([id], Failing))
      && (!Throws(handled, completed, logged) <==> s'.workers[0] == Worker([], Handling))
    ensures !Throws(NoHandler, completed, logged)
  {
    var s1 := Apply(s, Handle(0, handled));
    HandlingRuns(s, id, handled);
    var s2 := Apply(s1, Complete(0, completed));
    assert [id][1..] == [];
    assert s1.workers[0] == Worker([id], if handled == Returned then Completing else Failing);
    if handled == Returned && completed.EffectOk? {
      assert s2.workers[0] == Worker([id], LoggingSuccess);
    } else {
      assert s2.workers[0] == Worker([id], Failing);
    }
  }
}

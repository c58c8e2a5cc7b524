/** The job queue: several workers, each claiming batches and running them one job after the other,
    any of them stopping anywhere (packages/shared/jobs.mjs:33-122,
    services/job-worker/src/queue.mjs:30-50). */
module Jobs {
  import opened Basics

  datatype JobStatus = Pending | Running | Failed | Completed | DeadLettered

  type JobId = nat
  type WorkerId = nat

  /** A row of platform.jobs; its id is its place in the table. */
  datatype Job = Job(status: JobStatus, attempts: nat, maxAttempts: int, runAt: int, lockedBy: Option<WorkerId>)

  datatype AttemptOutcome = Started | Success | Error | LastError

  /** A row of platform.job_attempts. */
  datatype Attempt = Attempt(job: JobId, attemptNo: nat, outcome: AttemptOutcome)

  function Enqueued(maxAttempts: int, runAt: int): Job {
    Job(Pending, 0, maxAttempts, runAt, None)
  }

  predicate Claimable(job: Job, now: int) {
    job.status in {Pending, Failed} && job.runAt <= now
  }

  predicate Pickable(jobs: seq<Job>, picked: seq<JobId>, now: int) {
    NoRepeats(picked) && forall i :: 0 <= i < |picked| ==> picked[i] < |jobs| && Claimable(jobs[picked[i]], now)
  }

  /** The UPDATE of `claimJobs`. */
  function Claimed(jobs: seq<Job>, picked: seq<JobId>, w: WorkerId): (r: seq<Job>)
    ensures |r| == |jobs|
    ensures forall i :: 0 <= i < |jobs| ==>
      r[i] == if i in picked then jobs[i].(status := Running, attempts := jobs[i].attempts + 1, lockedBy := Some(w)) else jobs[i]
  {
    seq(|jobs|, i requires 0 <= i < |jobs| =>
      if i in picked then jobs[i].(status := Running, attempts := jobs[i].attempts + 1, lockedBy := Some(w)) else jobs[i])
  }

  function StartedRows(jobs: seq<Job>, picked: seq<JobId>): (r: seq<Attempt>)
    requires forall i :: 0 <= i < |picked| ==> picked[i] < |jobs|
    ensures |r| == |picked| && forall i :: 0 <= i < |picked| ==> r[i] == Attempt(picked[i], jobs[picked[i]].attempts, Started)
  {
    seq(|picked|, i requires 0 <= i < |picked| => Attempt(picked[i], jobs[picked[i]].attempts, Started))
  }

  /** Milliseconds to wait after the given attempt. */
  function Backoff(attempt: nat): int {
    Min(250 * Power2(attempt), 60000)
  }

  predicate Exhausted(job: Job, maxAttempts: int) {
    job.attempts >= maxAttempts
  }

  function FailedJob(job: Job, maxAttempts: int, now: int): Job {
    if Exhausted(job, maxAttempts) then job.(status := DeadLettered, lockedBy := None)
    else job.(status := Failed, runAt := now + Backoff(job.attempts), lockedBy := None)
  }

  function CompletedJob(job: Job): Job {
    job.(status := Completed, lockedBy := None)
  }

  // ---------------------------------------------------------------- the step system

  /** A worker loops over the jobs it claimed; the first of `rest` is the current one. */
  datatype Pc = Handling | Completing | LoggingSuccess | Failing
  datatype Worker = Worker(rest: seq<JobId>, pc: Pc)

  datatype Handled = NoHandler | Returned | Threw

  datatype State = State(jobs: seq<Job>, log: seq<Attempt>, alerts: seq<JobId>, workers: map<WorkerId, Worker>)

  datatype Step =
    | Enqueue(maxAttempts: int, runAt: int)
    | Claim(worker: WorkerId, picked: seq<JobId>, now: int, outcome: Outcome)
    | Handle(worker: WorkerId, handled: Handled)
    | Complete(worker: WorkerId, outcome: Outcome)
    | LogSuccess(worker: WorkerId, outcome: Outcome)
    | Fail(worker: WorkerId, now: int, outcome: Outcome)
    | Crash(worker: WorkerId)

  predicate At(s: State, w: WorkerId, pc: Pc) {
    w in s.workers && s.workers[w].pc == pc && s.workers[w].rest != [] && s.workers[w].rest[0] < |s.jobs|
  }

  function Current(s: State, w: WorkerId): JobId
    requires w in s.workers && s.workers[w].rest != []
  {
    s.workers[w].rest[0]
  }

  function Set(s: State, w: WorkerId, rest: seq<JobId>, pc: Pc): State {
    s.(workers := s.workers[w := Worker(rest, pc)])
  }

  function Goto(s: State, w: WorkerId, pc: Pc): State
    requires w in s.workers
  {
    Set(s, w, s.workers[w].rest, pc)
  }

  function Advance(s: State, w: WorkerId): State
    requires w in s.workers && s.workers[w].rest != []
  {
    Set(s, w, s.workers[w].rest[1..], Handling)
  }

  function ClaimTx(s: State, picked: seq<JobId>, w: WorkerId): State
    requires forall i :: 0 <= i < |picked| ==> picked[i] < |s.jobs|
  {
    var jobs := Claimed(s.jobs, picked, w);
    s.(jobs := jobs, log := s.log + StartedRows(jobs, picked))
  }

  /** The transaction of `failJob`, which re-reads the row under its lock. */
  function FailTx(s: State, id: JobId, now: int): State
    requires id < |s.jobs|
  {
    var job := s.jobs[id];
    var exhausted := Exhausted(job, job.maxAttempts);
    s.(jobs := s.jobs[id := FailedJob(job, job.maxAttempts, now)],
       log := s.log + [Attempt(id, job.attempts, if exhausted then LastError else Error)],
       alerts := if exhausted then s.alerts + [id] else s.alerts)
  }

  function ApplyClaim(s: State, w: WorkerId, picked: seq<JobId>, outcome: Outcome): State
    requires forall i :: 0 <= i < |picked| ==> picked[i] < |s.jobs|
  {
    match outcome
    case NoEffectError => s
    case EffectError => ClaimTx(s, picked, w)
    case EffectOk => Set(ClaimTx(s, picked, w), w, picked, Handling)
  }

  function ApplyComplete(s: State, w: WorkerId, outcome: Outcome): State
    requires At(s, w, Completing)
  {
    var id := Current(s, w);
    var s' := if outcome.NoEffectError? then s else s.(jobs := s.jobs[id := CompletedJob(s.jobs[id])]);
    Goto(s', w, if outcome.EffectOk? then LoggingSuccess else Failing)
  }

  function ApplyLog(s: State, w: WorkerId, outcome: Outcome): State
    requires At(s, w, LoggingSuccess)
  {
    var id := Current(s, w);
    var s' := if outcome.NoEffectError? then s else s.(log := s.log + [Attempt(id, s.jobs[id].attempts, Success)]);
    if outcome.EffectOk? then Advance(s', w) else Goto(s', w, Failing)
  }

  /** An error of `failJob` escapes `runJob`: the rest of the batch is left claimed. */
  function ApplyFail(s: State, w: WorkerId, now: int, outcome: Outcome): State
    requires At(s, w, Failing)
  {
    match outcome
    case EffectOk => Advance(FailTx(s, Current(s, w), now), w)
    case EffectError => Set(FailTx(s, Current(s, w), now), w, [], Handling)
    case NoEffectError => Set(s, w, [], Handling)
  }

  function Apply(s: State, step: Step): State {
    match step
    case Enqueue(maxAttempts, runAt) => s.(jobs := s.jobs + [Enqueued(maxAttempts, runAt)])
    case Claim(w, picked, now, outcome) =>
      if (w !in s.workers || s.workers[w].rest == []) && Pickable(s.jobs, picked, now) then ApplyClaim(s, w, picked, outcome) else s
    case Handle(w, handled) =>
      if At(s, w, Handling) then Goto(s, w, if handled.Returned? then Completing else Failing) else s
    case Complete(w, outcome) => if At(s, w, Completing) then ApplyComplete(s, w, outcome) else s
    case LogSuccess(w, outcome) => if At(s, w, LoggingSuccess) then ApplyLog(s, w, outcome) else s
    case Fail(w, now, outcome) => if At(s, w, Failing) then ApplyFail(s, w, now, outcome) else s
    case Crash(w) => s.(workers := s.workers - {w})
  }

  function RunAll(s: State, steps: seq<Step>): State
    decreases |steps|
  {
    if steps == [] then s else RunAll(Apply(s, steps[0]), steps[1..])
  }

  const Empty := State([], [], [], map[])

  // ---------------------------------------------------------------- the invariant

  function StartedCount(log: seq<Attempt>, id: JobId): nat {
    if log == [] then 0
    else
      var last := log[|log| - 1];
      StartedCount(log[..|log| - 1], id) + (if last.job == id && last.outcome == Started then 1 else 0)
  }

  function AlertCount(alerts: seq<JobId>, id: JobId): nat {
    if alerts == [] then 0 else AlertCount(alerts[..|alerts| - 1], id) + (if alerts[|alerts| - 1] == id then 1 else 0)
  }

  predicate JobOk(job: Job, started: nat, alerts: nat) {
    && job.attempts == started <= Max(job.maxAttempts, 1)
    && alerts == (if job.status == DeadLettered then 1 else 0)
    && (job.status == Pending ==> job.attempts == 0)
    && (job.status == Failed ==> job.attempts < job.maxAttempts)
  }

  predicate JobsOk(s: State) {
    forall id :: 0 <= id < |s.jobs| ==> JobOk(s.jobs[id], StartedCount(s.log, id), AlertCount(s.alerts, id))
  }

  /** Nothing is logged or alerted about jobs that do not exist. */
  predicate NoStrangers(s: State) {
    && (forall i :: 0 <= i < |s.log| ==> s.log[i].job < |s.jobs|)
    && forall i :: 0 <= i < |s.alerts| ==> s.alerts[i] < |s.jobs|
  }

  /** What a worker holds is running under its name, or is its current job, already completed. */
  predicate HeldOk(s: State, w: WorkerId, worker: Worker, i: nat)
    requires i < |worker.rest|
  {
    var id := worker.rest[i];
    && id < |s.jobs|
    && (s.jobs[id].status == Running || (s.jobs[id].status == Completed && i == 0 && worker.pc in {LoggingSuccess, Failing}))
    && (s.jobs[id].status == Running ==> s.jobs[id].lockedBy == Some(w))
  }

  predicate WorkerOk(s: State, w: WorkerId, worker: Worker) {
    NoRepeats(worker.rest) && forall i :: 0 <= i < |worker.rest| ==> HeldOk(s, w, worker, i)
  }

  predicate WorkersOk(s: State) {
    forall w :: w in s.workers ==> WorkerOk(s, w, s.workers[w])
  }

  predicate Holds(s: State, w: WorkerId, id: JobId) {
    w in s.workers && id in s.workers[w].rest
  }

  ghost predicate HeldOnce(s: State) {
    forall v, w, id :: Holds(s, v, id) && Holds(s, w, id) ==> v == w
  }

  ghost predicate Inv(s: State) {
    JobsOk(s) && NoStrangers(s) && WorkersOk(s) && HeldOnce(s)
  }

  // ---------------------------------------------------------------- counting

  lemma {:induction false} StartedAppendRows(log: seq<Attempt>, jobs: seq<Job>, picked: seq<JobId>, id: JobId)
    requires NoRepeats(picked) && forall i :: 0 <= i < |picked| ==> picked[i] < |jobs|
    ensures StartedCount(log + StartedRows(jobs, picked), id) == StartedCount(log, id) + (if id in picked then 1 else 0)
    decreases |picked|
  {
    if picked == [] {
      assert log + StartedRows(jobs, picked) == log;
    } else {
      var n := |picked| - 1;
      StartedAppendRows(log, jobs, picked[..n], id);
      OneMoreStarted(log, jobs, picked);
      assert id in picked <==> id in picked[..n] || id == picked[n];
    }
  }

  lemma OneMoreStarted(log: seq<Attempt>, jobs: seq<Job>, picked: seq<JobId>)
    requires picked != [] && forall i :: 0 <= i < |picked| ==> picked[i] < |jobs|
    ensures
      var n := |picked| - 1;
      log + StartedRows(jobs, picked)
      == (log + StartedRows(jobs, picked[..n])) + [Attempt(picked[n], jobs[picked[n]].attempts, Started)]
  {
    var n := |picked| - 1;
    assert picked == picked[..n] + [picked[n]];
  }

  lemma {:induction false} NoneStarted(log: seq<Attempt>, id: JobId)
    requires forall i :: 0 <= i < |log| ==> log[i].job != id
    ensures StartedCount(log, id) == 0
  {
    if log != [] {
      NoneStarted(log[..|log| - 1], id);
    }
  }

  lemma {:induction false} NoneAlerted(alerts: seq<JobId>, id: JobId)
    requires forall i :: 0 <= i < |alerts| ==> alerts[i] != id
    ensures AlertCount(alerts, id) == 0
  {
    if alerts != [] {
      NoneAlerted(alerts[..|alerts| - 1], id);
    }
  }

  // ---------------------------------------------------------------- each step

  lemma EnqueueKeepsInv(s: State, maxAttempts: int, runAt: int)
    requires Inv(s)
    ensures Inv(Apply(s, Enqueue(maxAttempts, runAt)))
  {
    var s' := Apply(s, Enqueue(maxAttempts, runAt));
    NoneStarted(s.log, |s.jobs|);
    NoneAlerted(s.alerts, |s.jobs|);
    forall id | 0 <= id < |s'.jobs|
      ensures JobOk(s'.jobs[id], StartedCount(s'.log, id), AlertCount(s'.alerts, id))
    {
      if id < |s.jobs| {
        assert JobOk(s.jobs[id], StartedCount(s.log, id), AlertCount(s.alerts, id));
      }
    }
    SameWorkersStayOk(s, s');
  }

  /** Workers are as before, and the jobs they hold too. */
  lemma SameWorkersStayOk(s: State, s': State)
    requires WorkersOk(s) && HeldOnce(s) && s'.workers == s.workers
    requires |s.jobs| <= |s'.jobs|
    requires forall w, id: JobId :: Holds(s, w, id) && id < |s.jobs| ==> s'.jobs[id] == s.jobs[id]
    ensures WorkersOk(s') && HeldOnce(s')
  {
    forall w | w in s'.workers
      ensures WorkerOk(s', w, s'.workers[w])
    {
      assert WorkerOk(s, w, s.workers[w]);
      forall i | 0 <= i < |s'.workers[w].rest|
        ensures HeldOk(s', w, s'.workers[w], i)
      {
        assert HeldOk(s, w, s.workers[w], i) && Holds(s, w, s.workers[w].rest[i]);
      }
    }
    assert forall w, id :: Holds(s', w, id) <==> Holds(s, w, id);
  }

  /** What is held is not claimable: it is running or completed. */
  lemma HeldIsBusy(s: State, w: WorkerId, id: JobId)
    requires WorkersOk(s) && Holds(s, w, id)
    ensures id < |s.jobs| && s.jobs[id].status in {Running, Completed}
  {
    var i :| 0 <= i < |s.workers[w].rest| && s.workers[w].rest[i] == id;
    assert WorkerOk(s, w, s.workers[w]) && HeldOk(s, w, s.workers[w], i);
  }

  lemma HeldIsNotPicked(s: State, w: WorkerId, picked: seq<JobId>, now: int, id: JobId)
    requires WorkersOk(s) && Holds(s, w, id) && Pickable(s.jobs, picked, now)
    ensures id !in picked
  {
    HeldIsBusy(s, w, id);
  }

  lemma ClaimedJobOk(s: State, w: WorkerId, picked: seq<JobId>, now: int, id: JobId)
    requires JobsOk(s) && Pickable(s.jobs, picked, now) && id < |s.jobs|
    ensures var s' := ClaimTx(s, picked, w); JobOk(s'.jobs[id], StartedCount(s'.log, id), AlertCount(s'.alerts, id))
  {
    StartedAppendRows(s.log, Claimed(s.jobs, picked, w), picked, id);
    assert JobOk(s.jobs[id], StartedCount(s.log, id), AlertCount(s.alerts, id));
  }

  lemma ClaimTxKeepsInv(s: State, w: WorkerId, picked: seq<JobId>, now: int)
    requires Inv(s) && Pickable(s.jobs, picked, now)
    ensures Inv(ClaimTx(s, picked, w))
  {
    var s' := ClaimTx(s, picked, w);
    forall id | 0 <= id < |s'.jobs|
      ensures JobOk(s'.jobs[id], StartedCount(s'.log, id), AlertCount(s'.alerts, id))
    {
      ClaimedJobOk(s, w, picked, now, id);
    }
    forall v, id: JobId | Holds(s, v, id) && id < |s.jobs|
      ensures s'.jobs[id] == s.jobs[id]
    {
      HeldIsNotPicked(s, v, picked, now, id);
    }
    SameWorkersStayOk(s, s');
  }

  lemma ClaimKeepsInv(s: State, w: WorkerId, picked: seq<JobId>, now: int, outcome: Outcome)
    requires Inv(s) && Pickable(s.jobs, picked, now) && (w !in s.workers || s.workers[w].rest == [])
    ensures Inv(ApplyClaim(s, w, picked, outcome))
  {
    ClaimTxKeepsInv(s, w, picked, now);
    if outcome.EffectOk? {
      var s1 := ClaimTx(s, picked, w);
      forall v, id | Holds(s1, v, id)
        ensures id !in picked
      {
        assert Holds(s, v, id);
        HeldIsNotPicked(s, v, picked, now, id);
      }
      TakingKeepsInv(s1, w, picked);
    }
  }

  /** A worker takes freshly claimed jobs that nobody holds. */
  lemma TakingKeepsInv(s: State, w: WorkerId, picked: seq<JobId>)
    requires Inv(s) && NoRepeats(picked) && forall v, id :: Holds(s, v, id) ==> id !in picked
    requires forall i :: 0 <= i < |picked| ==>
      picked[i] < |s.jobs| && s.jobs[picked[i]].status == Running && s.jobs[picked[i]].lockedBy == Some(w)
    ensures Inv(Set(s, w, picked, Handling))
  {
    var s' := Set(s, w, picked, Handling);
    forall v | v in s'.workers
      ensures WorkerOk(s', v, s'.workers[v])
    {
      if v == w {
        forall i | 0 <= i < |picked| ensures HeldOk(s', w, s'.workers[w], i) {
          assert s.jobs[picked[i]].status == Running;
        }
      } else {
        OtherWorkerStays(s, s', v);
      }
    }
    forall u, v, id | Holds(s', u, id) && Holds(s', v, id)
      ensures u == v
    {
      if u != w { assert Holds(s, u, id); }
      if v != w { assert Holds(s, v, id); }
    }
  }

  lemma OtherWorkerStays(s: State, s': State, v: WorkerId)
    requires WorkersOk(s) && v in s.workers && v in s'.workers && s'.workers[v] == s.workers[v] && |s'.jobs| == |s.jobs|
    requires forall id :: id in s.workers[v].rest && id < |s.jobs| ==> s'.jobs[id] == s.jobs[id]
    ensures WorkerOk(s', v, s'.workers[v])
  {
    assert WorkerOk(s, v, s.workers[v]);
    forall i | 0 <= i < |s'.workers[v].rest|
      ensures HeldOk(s', v, s'.workers[v], i)
    {
      assert HeldOk(s, v, s.workers[v], i) && s.workers[v].rest[i] in s.workers[v].rest;
    }
  }

  /** A worker writes its current job and moves on: what it holds afterwards it held before. */
  lemma CurrentWrite(s: State, s': State, w: WorkerId, rest: seq<JobId>, pc: Pc)
    requires Inv(s) && w in s.workers && s.workers[w].rest != [] && s.workers[w].rest[0] < |s.jobs|
    requires s'.workers == s.workers[w := Worker(rest, pc)] && |s'.jobs| == |s.jobs|
    requires forall id :: 0 <= id < |s.jobs| && id != s.workers[w].rest[0] ==> s'.jobs[id] == s.jobs[id]
    requires rest == s.workers[w].rest || rest == s.workers[w].rest[1..] || rest == []
    requires rest == s.workers[w].rest ==> HeldOk(s', w, Worker(rest, pc), 0)
    ensures WorkersOk(s') && HeldOnce(s')
  {
    var id0 := s.workers[w].rest[0];
    assert Holds(s, w, id0);
    forall v | v in s'.workers
      ensures WorkerOk(s', v, s'.workers[v])
    {
      if v == w {
        CurrentWorkerStays(s, s', w, rest, pc);
      } else {
        assert id0 in s.workers[v].rest ==> Holds(s, v, id0);
        OtherWorkerStays(s, s', v);
      }
    }
    forall u, v, id | Holds(s', u, id) && Holds(s', v, id)
      ensures u == v
    {
      assert Holds(s, u, id) && Holds(s, v, id);
    }
  }

  lemma CurrentWorkerStays(s: State, s': State, w: WorkerId, rest: seq<JobId>, pc: Pc)
    requires Inv(s) && w in s.workers && s.workers[w].rest != [] && s.workers[w].rest[0] < |s.jobs|
    requires |s'.jobs| == |s.jobs|
    requires forall id :: 0 <= id < |s.jobs| && id != s.workers[w].rest[0] ==> s'.jobs[id] == s.jobs[id]
    requires rest == s.workers[w].rest || rest == s.workers[w].rest[1..] || rest == []
    requires rest == s.workers[w].rest ==> HeldOk(s', w, Worker(rest, pc), 0)
    ensures WorkerOk(s', w, Worker(rest, pc))
  {
    var worker, skipped := s.workers[w], |s.workers[w].rest| - |rest|;
    assert WorkerOk(s, w, worker);
    forall i | 0 <= i < |rest|
      ensures HeldOk(s', w, Worker(rest, pc), i)
    {
      assert HeldOk(s, w, worker, i + skipped) && rest[i] == worker.rest[i + skipped];
    }
  }

  lemma GotoKeepsInv(s: State, w: WorkerId, pc: Pc)
    requires Inv(s) && (At(s, w, Handling) || At(s, w, Completing)) && pc in {Completing, Failing}
    ensures Inv(Goto(s, w, pc))
  {
    assert WorkerOk(s, w, s.workers[w]) && HeldOk(s, w, s.workers[w], 0);
    CurrentWrite(s, Goto(s, w, pc), w, s.workers[w].rest, pc);
  }

  lemma CompleteKeepsInv(s: State, w: WorkerId, outcome: Outcome)
    requires Inv(s) && At(s, w, Completing)
    ensures Inv(ApplyComplete(s, w, outcome))
  {
    var s' := ApplyComplete(s, w, outcome);
    assert WorkerOk(s, w, s.workers[w]) && HeldOk(s, w, s.workers[w], 0);
    forall other | 0 <= other < |s'.jobs|
      ensures JobOk(s'.jobs[other], StartedCount(s'.log, other), AlertCount(s'.alerts, other))
    {
      assert JobOk(s.jobs[other], StartedCount(s.log, other), AlertCount(s.alerts, other));
    }
    CurrentWrite(s, s', w, s.workers[w].rest, s'.workers[w].pc);
  }

  lemma LogKeepsInv(s: State, w: WorkerId, outcome: Outcome)
    requires Inv(s) && At(s, w, LoggingSuccess)
    ensures Inv(ApplyLog(s, w, outcome))
  {
    var s' := ApplyLog(s, w, outcome);
    assert WorkerOk(s, w, s.workers[w]) && HeldOk(s, w, s.workers[w], 0);
    forall other | 0 <= other < |s'.jobs|
      ensures JobOk(s'.jobs[other], StartedCount(s'.log, other), AlertCount(s'.alerts, other))
    {
      assert JobOk(s.jobs[other], StartedCount(s.log, other), AlertCount(s.alerts, other));
    }
    CurrentWrite(s, s', w, s'.workers[w].rest, s'.workers[w].pc);
  }

  /** What `failJob` logs is no 'started' row, and it alerts once about a job out of attempts. */
  lemma CountsAfterFail(s: State, id: JobId, now: int, other: JobId)
    requires id < |s.jobs|
    ensures StartedCount(FailTx(s, id, now).log, other) == StartedCount(s.log, other)
    ensures AlertCount(FailTx(s, id, now).alerts, other)
         == AlertCount(s.alerts, other) + (if other == id && Exhausted(s.jobs[id], s.jobs[id].maxAttempts) then 1 else 0)
  {
    var s' := FailTx(s, id, now);
    assert s'.log[..|s'.log| - 1] == s.log;
    if Exhausted(s.jobs[id], s.jobs[id].maxAttempts) {
      assert s'.alerts[..|s'.alerts| - 1] == s.alerts;
    }
  }

  /** A job that is not yet dead-lettered is in order after it failed. */
  lemma FailedJobOk(job: Job, started: nat, alerts: nat, now: int)
    requires JobOk(job, started, alerts) && job.status in {Running, Completed}
    ensures JobOk(FailedJob(job, job.maxAttempts, now), started, alerts + (if Exhausted(job, job.maxAttempts) then 1 else 0))
  {
  }

  lemma FailTxKeepsJob(s: State, id: JobId, now: int, other: JobId)
    requires id < |s.jobs| && s.jobs[id].status in {Running, Completed} && other < |s.jobs|
    requires JobOk(s.jobs[other], StartedCount(s.log, other), AlertCount(s.alerts, other))
    ensures
      var s' := FailTx(s, id, now);
      JobOk(s'.jobs[other], StartedCount(s'.log, other), AlertCount(s'.alerts, other))
  {
    CountsAfterFail(s, id, now, other);
    if other == id {
      FailedJobOk(s.jobs[id], StartedCount(s.log, id), AlertCount(s.alerts, id), now);
    }
  }

  lemma FailTxKeepsJobs(s: State, id: JobId, now: int)
    requires JobsOk(s) && id < |s.jobs| && s.jobs[id].status in {Running, Completed}
    ensures JobsOk(FailTx(s, id, now))
  {
    var s' := FailTx(s, id, now);
    forall other | 0 <= other < |s'.jobs|
      ensures JobOk(s'.jobs[other], StartedCount(s'.log, other), AlertCount(s'.alerts, other))
    {
      FailTxKeepsJob(s, id, now, other);
    }
  }

  lemma FailTxKeepsNoStrangers(s: State, id: JobId, now: int)
    requires NoStrangers(s) && id < |s.jobs|
    ensures NoStrangers(FailTx(s, id, now))
  {
  }

  lemma SameTablesStayOk(s: State, s': State)
    requires JobsOk(s) && NoStrangers(s) && s'.jobs == s.jobs && s'.log == s.log && s'.alerts == s.alerts
    ensures JobsOk(s') && NoStrangers(s')
  {
  }

  lemma FailKeepsInv(s: State, w: WorkerId, now: int, outcome: Outcome)
    requires Inv(s) && At(s, w, Failing)
    ensures Inv(ApplyFail(s, w, now, outcome))
  {
    var s', id := ApplyFail(s, w, now, outcome), Current(s, w);
    if outcome.NoEffectError? {
      SameTablesStayOk(s, s');
    } else {
      assert Holds(s, w, id);
      HeldIsBusy(s, w, id);
      FailTxKeepsJobs(s, id, now);
      FailTxKeepsNoStrangers(s, id, now);
      SameTablesStayOk(FailTx(s, id, now), s');
    }
    CurrentWrite(s, s', w, s'.workers[w].rest, Handling);
  }

  lemma CrashKeepsInv(s: State, w: WorkerId)
    requires Inv(s)
    ensures Inv(Apply(s, Crash(w)))
  {
    var s' := Apply(s, Crash(w));
    forall v | v in s'.workers
      ensures WorkerOk(s', v, s'.workers[v])
    {
      OtherWorkerStays(s, s', v);
    }
    assert forall v, id :: Holds(s', v, id) ==> Holds(s, v, id);
  }

  lemma StepKeepsInv(s: State, step: Step)
    requires Inv(s)
    ensures Inv(Apply(s, step))
  {
    match step
    case Enqueue(maxAttempts, runAt) => EnqueueKeepsInv(s, maxAttempts, runAt);
    case Claim(w, picked, now, outcome) =>
      if (w !in s.workers || s.workers[w].rest == []) && Pickable(s.jobs, picked, now) {
        ClaimKeepsInv(s, w, picked, now, outcome);
      }
    case Handle(w, handled) =>
      if At(s, w, Handling) { GotoKeepsInv(s, w, if handled.Returned? then Completing else Failing); }
    case Complete(w, outcome) => if At(s, w, Completing) { CompleteKeepsInv(s, w, outcome); }
    case LogSuccess(w, outcome) => if At(s, w, LoggingSuccess) { LogKeepsInv(s, w, outcome); }
    case Fail(w, now, outcome) => if At(s, w, Failing) { FailKeepsInv(s, w, now, outcome); }
    case Crash(w) => CrashKeepsInv(s, w);
  }

  lemma {:induction false} RunsKeepInv(s: State, steps: seq<Step>)
    requires Inv(s)
    ensures Inv(RunAll(s, steps))
    decreases |steps|
  {
    if steps != [] {
      StepKeepsInv(s, steps[0]);
      RunsKeepInv(Apply(s, steps[0]), steps[1..]);
    }
  }

  // ---------------------------------------------------------------- theorems

  /** In every reachable state a job is held by at most one worker, its attempts are its 'started'
      rows and at most max(max_attempts, 1), and it has one alert if dead-lettered and none otherwise. */
  lemma QueueSafety(steps: seq<Step>, id: JobId, v: WorkerId, w: WorkerId)
    ensures
      var s := RunAll(Empty, steps);
      && (Holds(s, v, id) && Holds(s, w, id) ==> v == w)
      && (id < |s.jobs| ==>
            && s.jobs[id].attempts == StartedCount(s.log, id) <= Max(s.jobs[id].maxAttempts, 1)
            && AlertCount(s.alerts, id) == if s.jobs[id].status == DeadLettered then 1 else 0)
  {
    RunsKeepInv(Empty, steps);
    var s := RunAll(Empty, steps);
    if id < |s.jobs| {
      assert JobOk(s.jobs[id], StartedCount(s.log, id), AlertCount(s.alerts, id));
    }
  }

  lemma DeadStep(s: State, step: Step, id: JobId)
    requires Inv(s) && id < |s.jobs| && s.jobs[id].status == DeadLettered
    ensures id < |Apply(s, step).jobs| && Apply(s, step).jobs[id] == s.jobs[id]
  {
    if (step.Complete? && At(s, step.worker, Completing)) || (step.Fail? && At(s, step.worker, Failing)) {
      assert Holds(s, step.worker, Current(s, step.worker));
      HeldIsBusy(s, step.worker, Current(s, step.worker));
    }
  }

  /** A dead-lettered job is never claimed again: its row never changes, it gets no further attempt
      and no second alert. */
  lemma {:induction false} DeadForGood(s: State, steps: seq<Step>, id: JobId)
    requires Inv(s) && id < |s.jobs| && s.jobs[id].status == DeadLettered
    ensures
      var s' := RunAll(s, steps);
      id < |s'.jobs| && s'.jobs[id] == s.jobs[id]
      && StartedCount(s'.log, id) == StartedCount(s.log, id) && AlertCount(s'.alerts, id) == AlertCount(s.alerts, id) == 1
    decreases |steps|
  {
    var s' := RunAll(s, steps);
    RunsKeepInv(s, steps);
    assert JobOk(s.jobs[id], StartedCount(s.log, id), AlertCount(s.alerts, id));
    if steps != [] {
      DeadStep(s, steps[0], id);
      StepKeepsInv(s, steps[0]);
      DeadForGood(Apply(s, steps[0]), steps[1..], id);
    }
    assert JobOk(s'.jobs[id], StartedCount(s'.log, id), AlertCount(s'.alerts, id));
  }
}

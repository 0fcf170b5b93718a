/** The durable job table and its leases (server/app/jobs.py). */
module JobQueue {
  import opened Common

  datatype Kind = DeleteRecording | DeleteOrphanObject | Transcode | Upload | FinalizeTimeout | SqliteBackup

  datatype Status = Queued | Running | Succeeded | Failed | Cancelled

  type WorkerId = nat

  datatype Job = Job(
    kind: Kind,
    session: string,
    status: Status,
    attempts: nat,
    maxAttempts: Option<nat>,
    runAfter: int,
    lockedBy: Option<WorkerId>,
    heartbeatAt: Option<int>)

  /** How a handler ended. */
  datatype Outcome = Done | Error | JobCancelled(stopping: bool)

  const LEASE_MS: int := 5 * 60 * 1000

  predicate Active(job: Job) {
    job.status in {Queued, Running}
  }

  function MaxAttempts(kind: Kind): Option<nat> {
    if kind in {DeleteRecording, DeleteOrphanObject} then None else Some(3)
  }

  /** The job the unique index guards: the active one for this kind and session, if there is one. */
  predicate IsActiveFor(job: Job, kind: Kind, session: string) {
    Active(job) && job.kind == kind && job.session == session
  }

  predicate SomeActive(jobs: seq<Job>, kind: Kind, session: string) {
    exists i :: 0 <= i < |jobs| && IsActiveFor(jobs[i], kind, session)
  }

  function AfterEnqueue(jobs: seq<Job>, kind: Kind, session: string, runAfter: int): seq<Job> {
    if SomeActive(jobs, kind, session) then jobs
    else jobs + [Job(kind, session, Queued, 0, MaxAttempts(kind), runAfter, None, None)]
  }

  predicate Due(job: Job, now: int) {
    job.status == Queued && job.runAfter <= now
  }

  /** The job the worker takes next: the due one with the smallest id. */
  predicate FirstDue(jobs: seq<Job>, id: nat, now: int) {
    id < |jobs| && Due(jobs[id], now) && forall i :: 0 <= i < id ==> !Due(jobs[i], now)
  }

  function Claimed(job: Job, worker: WorkerId, now: int): Job {
    job.(status := Running, lockedBy := Some(worker), heartbeatAt := Some(now), attempts := job.attempts + 1)
  }

  predicate Exhausted(job: Job) {
    job.maxAttempts.Some? && job.attempts >= job.maxAttempts.value
  }

  /** A startup recovers every other worker's lease; later sweeps recover leases without a fresh heartbeat. */
  predicate Recoverable(job: Job, worker: WorkerId, startup: bool, now: int) {
    job.status == Running &&
    if startup then job.lockedBy != Some(worker)
    else job.heartbeatAt.None? || job.heartbeatAt.value < now - LEASE_MS
  }

  function Recovered(job: Job, now: int): Job {
    job.(status := if Exhausted(job) then Failed else Queued, lockedBy := None, heartbeatAt := None, runAfter := now)
  }

  function AfterRecover(jobs: seq<Job>, worker: WorkerId, startup: bool, now: int): (r: seq<Job>)
    ensures |r| == |jobs|
  {
    seq(|jobs|, i requires 0 <= i < |jobs| =>
      if Recoverable(jobs[i], worker, startup, now) then Recovered(jobs[i], now) else jobs[i])
  }

  predicate HoldsLease(jobs: seq<Job>, id: nat, worker: WorkerId) {
    id < |jobs| && jobs[id].status == Running && jobs[id].lockedBy == Some(worker)
  }

  function Backoff(attempts: nat): int {
    if attempts <= 1 then 60_000 else if attempts == 2 then 300_000 else 900_000
  }

  function Finished(job: Job, outcome: Outcome, now: int): Job {
    var ended := match outcome
      case Done => job.(status := Succeeded)
      case Error => job.(status := if Exhausted(job) then Failed else Queued, runAfter := now + Backoff(job.attempts))
      case JobCancelled(stopping) =>
        if stopping then job.(status := Queued, attempts := if job.attempts == 0 then 0 else job.attempts - 1)
        else job.(status := Cancelled);
    ended.(lockedBy := None, heartbeatAt := None)
  }

  /** `_finish_once` and the heartbeat change a row only while it is running under this worker's lease. */
  function AfterFinish(jobs: seq<Job>, id: nat, worker: WorkerId, outcome: Outcome, now: int): seq<Job> {
    if HoldsLease(jobs, id, worker) then jobs[id := Finished(jobs[id], outcome, now)] else jobs
  }

  function AfterHeartbeat(jobs: seq<Job>, id: nat, worker: WorkerId, now: int): seq<Job> {
    if HoldsLease(jobs, id, worker) then jobs[id := jobs[id].(heartbeatAt := Some(now))] else jobs
  }

  predicate CancelledByDelete(job: Job, session: string) {
    Active(job) && job.session == session && job.kind in {Transcode, Upload, FinalizeTimeout}
  }

  function AfterDeleteCancels(jobs: seq<Job>, session: string): (r: seq<Job>)
    ensures |r| == |jobs|
  {
    seq(|jobs|, i requires 0 <= i < |jobs| =>
      if CancelledByDelete(jobs[i], session) then jobs[i].(status := Cancelled) else jobs[i])
  }

  // ------------------------------------------------------------ the table

  class JobTable {
    var jobs: seq<Job>

    constructor ()
      ensures jobs == []
    {
      jobs := [];
    }

    method Enqueue(kind: Kind, session: string, runAfter: int) returns (id: nat)
      modifies this
      ensures jobs == AfterEnqueue(old(jobs), kind, session, runAfter)
      ensures id < |jobs| && IsActiveFor(jobs[id], kind, session)
    {
      id := 0;
      while id < |jobs|
        invariant id <= |jobs| && jobs == old(jobs)
        invariant forall i :: 0 <= i < id ==> !IsActiveFor(jobs[i], kind, session)
      {
        if IsActiveFor(jobs[id], kind, session) {
          return;
        }
        id := id + 1;
      }
      jobs := jobs + [Job(kind, session, Queued, 0, MaxAttempts(kind), runAfter, None, None)];
    }

    /** The due job with the smallest id. */
    method Claim(worker: WorkerId, now: int) returns (claimed: Option<nat>)
      modifies this
      ensures claimed.None? <==> forall i :: 0 <= i < |old(jobs)| ==> !Due(old(jobs)[i], now)
      ensures claimed.None? ==> jobs == old(jobs)
      ensures claimed.Some? ==> FirstDue(old(jobs), claimed.value, now)
      ensures claimed.Some? ==> jobs == old(jobs)[claimed.value := Claimed(old(jobs)[claimed.value], worker, now)]
    {
      for i := 0 to |jobs|
        invariant jobs == old(jobs)
        invariant forall j :: 0 <= j < i ==> !Due(jobs[j], now)
      {
        if Due(jobs[i], now) {
          jobs := jobs[i := Claimed(jobs[i], worker, now)];
          return Some(i);
        }
      }
      claimed := None;
    }

    method Recover(worker: WorkerId, startup: bool, now: int) returns (count: nat)
      modifies this
      ensures jobs == AfterRecover(old(jobs), worker, startup, now)
      ensures count == |set i: nat | i < |old(jobs)| && Recoverable(old(jobs)[i], worker, startup, now)|
    {
      count := 0;
      ghost var done: set<nat> := {};
      for i := 0 to |jobs|
        invariant |jobs| == |old(jobs)|
        invariant forall j :: 0 <= j < i ==> jobs[j] == AfterRecover(old(jobs), worker, startup, now)[j]
        invariant forall j :: i <= j < |jobs| ==> jobs[j] == old(jobs)[j]
        invariant forall j: nat :: j in done <==> j < i && Recoverable(old(jobs)[j], worker, startup, now)
        invariant count == |done|
      {
        if Recoverable(jobs[i], worker, startup, now) {
          jobs := jobs[i := Recovered(jobs[i], now)];
          count := count + 1;
          done := done + {i};
        }
      }
      assert done == set i: nat | i < |old(jobs)| && Recoverable(old(jobs)[i], worker, startup, now);
    }

    method FinishOnce(id: nat, worker: WorkerId, outcome: Outcome, now: int)
      modifies this
      ensures jobs == AfterFinish(old(jobs), id, worker, outcome, now)
    {
      if id >= |jobs| || jobs[id].status != Running || jobs[id].lockedBy != Some(worker) {
        return;
      }
      var row := jobs[id];
      match outcome {
        case Done => row := row.(status := Succeeded);
        case Error =>
          row := row.(status := if row.maxAttempts.Some? && row.attempts >= row.maxAttempts.value then Failed
                                else Queued,
                      runAfter := now + Backoff(row.attempts));
        case JobCancelled(stopping) =>
          if stopping {
            row := row.(status := Queued);
            row := row.(attempts := if row.attempts > 0 then row.attempts - 1 else 0);
          } else {
            row := row.(status := Cancelled);
          }
      }
      jobs := jobs[id := row.(lockedBy := None, heartbeatAt := None)];
    }

    method Heartbeat(id: nat, worker: WorkerId, now: int)
      modifies this
      ensures jobs == AfterHeartbeat(old(jobs), id, worker, now)
    {
      if id < |jobs| && jobs[id].status == Running && jobs[id].lockedBy == Some(worker) {
        jobs := jobs[id := jobs[id].(heartbeatAt := Some(now))];
      }
    }
  }

  // ------------------------------------------------------------ every run of the table

  datatype Event =
    | Enqueue(kind: Kind, session: string, runAfter: int)
    | Claim(id: nat, worker: WorkerId, now: int)
    | Recover(worker: WorkerId, startup: bool, now: int)
    | Finish(id: nat, worker: WorkerId, outcome: Outcome, now: int)
    | Heartbeat(id: nat, worker: WorkerId, now: int)
    | DeleteCancels(session: string)

  /** The table, with how often each job was claimed and how often a graceful stop gave a claim back. */
  datatype Table = Table(jobs: seq<Job>, claims: seq<nat>, gracefulStops: seq<nat>)

  const Empty := Table([], [], [])

  predicate Possible(t: Table, e: Event) {
    e.Claim? ==> FirstDue(t.jobs, e.id, e.now)
  }

  function After(t: Table, e: Event): (r: Table)
    requires Possible(t, e) && |t.claims| == |t.jobs| == |t.gracefulStops|
    ensures |r.claims| == |r.jobs| == |r.gracefulStops|
  {
    match e
    case Enqueue(kind, session, runAfter) =>
      if SomeActive(t.jobs, kind, session) then t
      else Table(AfterEnqueue(t.jobs, kind, session, runAfter), t.claims + [0], t.gracefulStops + [0])
    case Claim(id, worker, now) =>
      Table(t.jobs[id := Claimed(t.jobs[id], worker, now)], t.claims[id := t.claims[id] + 1], t.gracefulStops)
    case Recover(worker, startup, now) => t.(jobs := AfterRecover(t.jobs, worker, startup, now))
    case Finish(id, worker, outcome, now) =>
      var jobs := AfterFinish(t.jobs, id, worker, outcome, now);
      if HoldsLease(t.jobs, id, worker) && outcome == JobCancelled(true) then
        t.(jobs := jobs, gracefulStops := t.gracefulStops[id := t.gracefulStops[id] + 1])
      else t.(jobs := jobs)
    case Heartbeat(id, worker, now) => t.(jobs := AfterHeartbeat(t.jobs, id, worker, now))
    case DeleteCancels(session) => t.(jobs := AfterDeleteCancels(t.jobs, session))
  }

  predicate JobOk(job: Job, claims: nat, gracefulStops: nat) {
    && job.attempts + gracefulStops == claims
    && job.maxAttempts == MaxAttempts(job.kind)
    && (job.status == Running ==> job.attempts >= 1 && job.lockedBy.Some?)
    && (job.status == Queued ==> !Exhausted(job))
    && (job.maxAttempts.Some? ==> job.attempts <= job.maxAttempts.value)
  }

  predicate OneActive(jobs: seq<Job>) {
    forall i, j :: 0 <= i < j < |jobs| && Active(jobs[i]) && Active(jobs[j]) ==>
      jobs[i].kind != jobs[j].kind || jobs[i].session != jobs[j].session
  }

  predicate Inv(t: Table) {
    && |t.claims| == |t.jobs| == |t.gracefulStops|
    && OneActive(t.jobs)
    && forall i :: 0 <= i < |t.jobs| ==> JobOk(t.jobs[i], t.claims[i], t.gracefulStops[i])
  }

  /** No row became active, and rows keep their kind and session. */
  predicate NoNewActive(before: seq<Job>, after: seq<Job>) {
    && |after| == |before|
    && forall i :: 0 <= i < |before| ==>
      && after[i].kind == before[i].kind && after[i].session == before[i].session
      && (Active(after[i]) ==> Active(before[i]))
  }

  lemma EnqueueKeepsOneActive(jobs: seq<Job>, kind: Kind, session: string, runAfter: int)
    requires OneActive(jobs)
    ensures OneActive(AfterEnqueue(jobs, kind, session, runAfter))
  {
    if !SomeActive(jobs, kind, session) {
      assert forall i :: 0 <= i < |jobs| ==> !IsActiveFor(jobs[i], kind, session);
    }
  }

  lemma StepKeepsOneActive(t: Table, e: Event)
    requires Inv(t) && Possible(t, e)
    ensures OneActive(After(t, e).jobs)
  {
    if e.Enqueue? {
      EnqueueKeepsOneActive(t.jobs, e.kind, e.session, e.runAfter);
    } else {
      assert NoNewActive(t.jobs, After(t, e).jobs) by {
        hide OneActive;
      }
      hide After;
      assert OneActive(t.jobs);
    }
  }

  lemma StepKeepsCounts(t: Table, e: Event, i: nat)
    requires Inv(t) && Possible(t, e) && i < |After(t, e).jobs|
    ensures var r := After(t, e); JobOk(r.jobs[i], r.claims[i], r.gracefulStops[i])
  {
  }

  lemma StepKeeps(t: Table, e: Event)
    requires Inv(t) && Possible(t, e)
    ensures Inv(After(t, e))
  {
    StepKeepsOneActive(t, e);
    forall i | 0 <= i < |After(t, e).jobs|
      ensures JobOk(After(t, e).jobs[i], After(t, e).claims[i], After(t, e).gracefulStops[i])
    {
      StepKeepsCounts(t, e, i);
    }
  }

  predicate PossibleRun(t: Table, es: seq<Event>)
    requires |t.claims| == |t.jobs| == |t.gracefulStops|
    decreases |es|
  {
    es == [] || (Possible(t, es[0]) && PossibleRun(After(t, es[0]), es[1..]))
  }

  function AfterAll(t: Table, es: seq<Event>): (r: Table)
    requires |t.claims| == |t.jobs| == |t.gracefulStops| && PossibleRun(t, es)
    ensures |r.claims| == |r.jobs| == |r.gracefulStops|
    decreases |es|
  {
    if es == [] then t else AfterAll(After(t, es[0]), es[1..])
  }

  /**
   * In every run: one active job per kind and session, attempts are claims less graceful stops, no
   * bounded job is claimed more than three times beyond its graceful stops, and a queued one has
   * attempts left.
   */
  lemma {:induction false} LeasesAreCounted(t: Table, es: seq<Event>)
    requires Inv(t) && PossibleRun(t, es)
    ensures Inv(AfterAll(t, es))
    ensures var r := AfterAll(t, es);
      forall i :: 0 <= i < |r.jobs| ==>
        && r.jobs[i].attempts == r.claims[i] - r.gracefulStops[i]
        && (r.jobs[i].kind !in {DeleteRecording, DeleteOrphanObject} ==> r.claims[i] - r.gracefulStops[i] <= 3)
        && (r.jobs[i].kind !in {DeleteRecording, DeleteOrphanObject} && r.jobs[i].status == Queued ==>
              r.claims[i] - r.gracefulStops[i] < 3)
    decreases |es|
  {
    if es != [] {
      StepKeeps(t, es[0]);
      LeasesAreCounted(After(t, es[0]), es[1..]);
    }
  }

  predicate NeverClaims(es: seq<Event>, id: nat, worker: WorkerId) {
    forall i :: 0 <= i < |es| && es[i].Claim? ==> es[i].id != id || es[i].worker != worker
  }

  /** Once a worker has lost a job's lease, nothing it does to that row has an effect until it claims it again. */
  lemma {:induction false} LostLeaseIsLost(t: Table, es: seq<Event>, id: nat, worker: WorkerId, outcome: Outcome,
                                           now: int)
    requires Inv(t) && PossibleRun(t, es) && NeverClaims(es, id, worker) && !HoldsLease(t.jobs, id, worker)
    ensures var r := AfterAll(t, es);
      && After(r, Finish(id, worker, outcome, now)).jobs == r.jobs
      && After(r, Heartbeat(id, worker, now)).jobs == r.jobs
    decreases |es|
  {
    if es != [] {
      StepKeeps(t, es[0]);
      assert NeverClaims(es[1..], id, worker);
      assert es[0].Claim? ==> es[0].id != id || es[0].worker != worker;
      LostLeaseIsLost(After(t, es[0]), es[1..], id, worker, outcome, now);
    }
  }

  /** A recovered lease is a lost lease, whoever recovered it. */
  lemma RecoveryEndsTheLease(t: Table, worker: WorkerId, startup: bool, now: int, id: nat, holder: WorkerId)
    requires Inv(t) && HoldsLease(t.jobs, id, holder) && Recoverable(t.jobs[id], worker, startup, now)
    ensures !HoldsLease(After(t, Recover(worker, startup, now)).jobs, id, holder)
  {
  }
}

/**
 * Runs the single worker can really take: its clock never goes back, it claims the due job with the
 * smallest id, and nothing disturbs it (server/app/jobs.py).
 */
module WorkerSchedule {
  import opened Common
  import opened JobQueue
  import opened RecordingIntegrity
  import opened RecordingWorker

  /** The moment a step reads the clock; other steps read none. Times count from 0, and 0 means at once. */
  function TimeOf(step: Step, clock: int): int {
    match step
    case RecoverStale(now) => now
    case Restart(now) => now
    case ClaimJob(_, now) => now
    case FinishJob(now) => now
    case _ => clock
  }

  predicate OnTime(w: World, step: Step, clock: int) {
    clock <= TimeOf(step, clock) && (step.ClaimJob? ==> FirstDue(w.jobs, step.id, step.now))
  }

  /** Every claim takes the first due job, and the clock never goes back. */
  predicate Scheduled(w: World, steps: seq<Step>, clock: int)
    requires RecordingWorker.PossibleRun(w, steps)
    decreases |steps|
  {
    steps != [] ==>
      OnTime(w, steps[0], clock) && Scheduled(Do(w, steps[0]), steps[1..], TimeOf(steps[0], clock))
  }

  /** What the worker does while no route, stop, crash or failure comes between. */
  predicate Undisturbed(step: Step) {
    step.ClaimJob? || step.Work? || step.WorkRemove? || (step.WorkPublish? && step.file.Some?) || step.FinishJob?
  }

  /** The worker alone, at one moment, takes `w` to `after`. */
  predicate Goes(w: World, steps: seq<Step>, now: int, after: World)
    decreases |steps|
  {
    if steps == [] then after == w
    else
      && Enabled(w, steps[0]) && OnTime(w, steps[0], now) && TimeOf(steps[0], now) == now && Undisturbed(steps[0])
      && Goes(Do(w, steps[0]), steps[1..], now, after)
  }

  lemma {:induction false} EarlierClock(w: World, steps: seq<Step>, clock: int, now: int)
    requires RecordingWorker.PossibleRun(w, steps) && Scheduled(w, steps, now) && clock <= now
    ensures Scheduled(w, steps, clock)
    decreases |steps|
  {
    hide Do, Enabled;
    if steps != [] && TimeOf(steps[0], clock) == clock {
      EarlierClock(Do(w, steps[0]), steps[1..], clock, TimeOf(steps[0], now));
    }
  }

  /** What the worker does alone at one moment, and whatever is scheduled after it. */
  lemma {:induction false} GoesThen(w: World, first: seq<Step>, clock: int, now: int, middle: World, rest: seq<Step>)
    requires Goes(w, first, now, middle) && clock <= now
    requires RecordingWorker.PossibleRun(middle, rest) && Scheduled(middle, rest, now)
    ensures RecordingWorker.PossibleRun(w, first + rest) && AfterRun(w, first + rest) == AfterRun(middle, rest)
    ensures Scheduled(w, first + rest, clock)
    decreases |first|
  {
    hide Do, Enabled, Undisturbed;
    if first == [] {
      assert first + rest == rest;
      EarlierClock(w, rest, clock, now);
    } else {
      GoesThen(Do(w, first[0]), first[1..], TimeOf(first[0], clock), now, middle, rest);
      assert (first + rest)[0] == first[0] && (first + rest)[1..] == first[1..] + rest;
    }
  }

  lemma {:induction false} GoesAlone(w: World, steps: seq<Step>, now: int, after: World)
    requires Goes(w, steps, now, after)
    ensures forall step :: step in steps ==> Undisturbed(step)
    decreases |steps|
  {
    hide Do, Enabled, OnTime, Undisturbed;
    if steps != [] {
      GoesAlone(Do(w, steps[0]), steps[1..], now, after);
      assert forall step :: step in steps ==> step == steps[0] || step in steps[1..];
    }
  }

  lemma GoesIsScheduled(w: World, steps: seq<Step>, clock: int, now: int, after: World)
    requires Goes(w, steps, now, after) && clock <= now
    ensures RecordingWorker.PossibleRun(w, steps) && AfterRun(w, steps) == after && Scheduled(w, steps, clock)
  {
    GoesThen(w, steps, clock, now, after, []);
    assert steps + [] == steps;
  }

  lemma Arrived(w: World, now: int)
    ensures Goes(w, [], now, w)
  {
  }

  lemma First(w: World, step: Step, rest: seq<Step>, now: int, after: World)
    requires Enabled(w, step) && OnTime(w, step, now) && TimeOf(step, now) == now && Undisturbed(step)
    requires Goes(Do(w, step), rest, now, after)
    ensures Goes(w, [step] + rest, now, after)
  {
    hide Do, Enabled, OnTime, Undisturbed;
    assert ([step] + rest)[1..] == rest;
  }

  lemma {:induction false} Joined(w: World, first: seq<Step>, now: int, middle: World, rest: seq<Step>, after: World)
    requires Goes(w, first, now, middle) && Goes(middle, rest, now, after)
    ensures Goes(w, first + rest, now, after)
    decreases |first|
  {
    hide Do, Enabled, OnTime, Undisturbed;
    if first == [] {
      assert first + rest == rest;
    } else {
      Joined(Do(w, first[0]), first[1..], now, middle, rest, after);
      assert (first + rest)[0] == first[0] && (first + rest)[1..] == first[1..] + rest;
    }
  }

  // ------------------------------------------------------------ the queue

  predicate NoneRunning(jobs: seq<Job>) {
    forall i :: 0 <= i < |jobs| ==> jobs[i].status != Running
  }

  /** No lease is held, except on this job. */
  predicate OnlyRunning(jobs: seq<Job>, id: nat) {
    forall i :: 0 <= i < |jobs| && i != id ==> jobs[i].status != Running
  }

  predicate SomeDue(jobs: seq<Job>, kind: Kind, now: int) {
    exists i :: 0 <= i < |jobs| && jobs[i].kind == kind && Due(jobs[i], now)
  }

  lemma FirstDueExists(jobs: seq<Job>, kind: Kind, now: int) returns (id: nat)
    requires SomeDue(jobs, kind, now)
    ensures FirstDue(jobs, id, now)
  {
    id := 0;
    while !Due(jobs[id], now)
      invariant id < |jobs| && forall i :: 0 <= i < id ==> !Due(jobs[i], now)
      invariant exists i :: id <= i < |jobs| && Due(jobs[i], now)
      decreases |jobs| - id
    {
      id := id + 1;
    }
  }

  /** One due job was worked off: it is not due any more, and whatever it enqueued is of the kind waited for. */
  predicate WorkedOff(before: seq<Job>, after: seq<Job>, id: nat, now: int, kind: Kind) {
    && id < |before| <= |after| && !Due(after[id], now)
    && (forall i :: 0 <= i < |before| && i != id ==> after[i] == before[i])
    && forall i :: |before| <= i < |after| ==> after[i].kind == kind
  }

  function DueOthers(jobs: seq<Job>, kind: Kind, now: int): set<int> {
    set i | 0 <= i < |jobs| && jobs[i].kind != kind && Due(jobs[i], now)
  }

  lemma WorkedOffDrops(before: seq<Job>, after: seq<Job>, id: nat, now: int, kind: Kind)
    requires WorkedOff(before, after, id, now, kind) && FirstDue(before, id, now) && before[id].kind != kind
    ensures |DueOthers(after, kind, now)| < |DueOthers(before, kind, now)|
    ensures SomeDue(before, kind, now) ==> SomeDue(after, kind, now)
  {
    var was, left := DueOthers(before, kind, now), DueOthers(after, kind, now);
    assert left <= was - {id};
    SubsetSize(left, was - {id});
    if SomeDue(before, kind, now) {
      var i :| 0 <= i < |before| && before[i].kind == kind && Due(before[i], now);
      assert after[i] == before[i];
    }
  }

  /** A moment by which no queued job has to wait any more. */
  lemma LateEnough(jobs: seq<Job>, clock: int) returns (now: int)
    ensures clock <= now && forall i :: 0 <= i < |jobs| ==> jobs[i].runAfter <= now
  {
    now := clock;
    for i := 0 to |jobs|
      invariant clock <= now && forall j :: 0 <= j < i ==> jobs[j].runAfter <= now
    {
      if now < jobs[i].runAfter {
        now := jobs[i].runAfter;
      }
    }
  }

  // ------------------------------------------------------------ a restart recovers every lease

  /** Every lease was taken by this process or an earlier one. */
  predicate LocksKnown(w: World) {
    forall i :: 0 <= i < |w.jobs| && w.jobs[i].status == Running ==>
      w.jobs[i].lockedBy.Some? && w.jobs[i].lockedBy.value <= w.worker
  }

  lemma TranscodeKeepsLocks(w: World)
    requires LocksKnown(w) && w.pc.InTranscode?
    ensures LocksKnown(TranscodeWork(w, w.pc.id, w.pc.t, w.pc.facts))
  {
    hide ValidMp4, MediaGuard, SourceWhole, ManifestFor, SomeActive, AfterWorkerWrite;
  }

  lemma UploadKeepsLocks(w: World)
    requires LocksKnown(w) && w.pc.InUpload?
    ensures LocksKnown(UploadWork(w, w.pc.id, w.pc.u, w.pc.facts, w.pc.file))
  {
    hide ValidMp4, MediaGuard, SomeActive, AfterWorkerWrite;
  }

  lemma WorkKeepsLocks(w: World)
    requires LocksKnown(w) && CanWork(w)
    ensures LocksKnown(DoWork(w))
  {
    hide MediaGuard, PlainGuard, TranscodeWork, UploadWork;
    if w.pc.InTranscode? {
      TranscodeKeepsLocks(w);
    } else if w.pc.InUpload? {
      UploadKeepsLocks(w);
    }
  }

  lemma StepKeepsLocks(w: World, step: Step)
    requires LocksKnown(w) && Enabled(w, step)
    ensures LocksKnown(Do(w, step))
  {
    if step.Work? {
      WorkKeepsLocks(w);
    }
    hide DoWork, AfterUploadSlice, SomeActive, RouteEvent;
  }

  lemma {:induction false} EveryRunKeepsLocks(w: World, steps: seq<Step>)
    requires LocksKnown(w) && RecordingWorker.PossibleRun(w, steps)
    ensures LocksKnown(AfterRun(w, steps))
    decreases |steps|
  {
    hide LocksKnown, Enabled, Do;
    if steps != [] {
      StepKeepsLocks(w, steps[0]);
      EveryRunKeepsLocks(Do(w, steps[0]), steps[1..]);
    }
  }

  /** At a late enough restart no lease is held and every queued job is due. */
  lemma RestartFreesQueue(w: World, now: int)
    requires LocksKnown(w) && 0 <= now && forall i :: 0 <= i < |w.jobs| ==> w.jobs[i].runAfter <= now
    ensures var r := AfterRestart(w, now);
      && r.pc == Idle && !r.stopping && NoneRunning(r.jobs)
      && forall i :: 0 <= i < |r.jobs| && r.jobs[i].status == Queued ==> Due(r.jobs[i], now)
  {
  }

  /** A crash, a restart at this moment, and what comes after it. */
  lemma AfterACrash(w: World, clock: int, now: int, more: seq<Step>)
    requires clock <= now && RecordingWorker.PossibleRun(AfterRestart(w.(pc := Down), now), more)
    requires Scheduled(AfterRestart(w.(pc := Down), now), more, now)
    ensures var steps := [Crash, Restart(now)] + more;
      && RecordingWorker.PossibleRun(w, steps) && Scheduled(w, steps, clock)
      && AfterRun(w, steps) == AfterRun(AfterRestart(w.(pc := Down), now), more)
  {
    var down := w.(pc := Down);
    assert Enabled(w, Crash) && Do(w, Crash) == down;
    assert Enabled(down, Restart(now)) && Do(down, Restart(now)) == AfterRestart(down, now);
    hide Do, Enabled, AfterRestart;
    var steps := [Crash, Restart(now)] + more;
    assert steps[1..] == [Restart(now)] + more && steps[1..][1..] == more;
  }
}

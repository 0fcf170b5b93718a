/** Deletion is complete and final, whatever falls between two actions of the worker. */
module RecordingDeletion {
  import opened Common
  import opened RecordingIntegrity
  import opened JobQueue
  import opened RecordingWorker
  import opened WorkerSchedule
  import RecordingFiles
  import RowLifecycle

  predicate AllGone(w: World) {
    w.remote.None? && !FilesLeft(w.disk)
  }

  predicate InMedia(pc: Pc) {
    pc.InTranscode? || pc.InUpload?
  }

  predicate DeletePending(jobs: seq<Job>) {
    SomeActive(jobs, DeleteRecording, SESSION)
  }

  /** A delete job is never failed or cancelled, and exists only for a tombstoned session. */
  predicate DeleteJobOk(job: Job, gone: bool) {
    && job.session == SESSION
    && (job.kind == DeleteRecording ==>
          job.status in {Queued, Running, Succeeded} && job.maxAttempts.None? && gone)
  }

  predicate JobsOk(w: World) {
    forall i :: 0 <= i < |w.jobs| ==> DeleteJobOk(w.jobs[i], Gone(w))
  }

  predicate IsDelete(w: World, id: nat) {
    id < |w.jobs| && w.jobs[id].kind == DeleteRecording
  }

  /** Where the worker stands fits the job it holds. */
  predicate PcOk(w: World) {
    match w.pc
    case Down => true
    case Idle => true
    case Begun(id) => id < |w.jobs| && (IsDelete(w, id) ==> LeaseHeld(w, id))
    case ReadFacts(id) => id < |w.jobs| && !IsDelete(w, id)
    case InTranscode(id, _, _) => id < |w.jobs| && !IsDelete(w, id)
    case InUpload(id, _, _, _) => id < |w.jobs| && !IsDelete(w, id)
    case InOrphan(id) => id < |w.jobs| && !IsDelete(w, id)
    case InTimeout(id) => id < |w.jobs| && !IsDelete(w, id)
    case InDelete(id, d) =>
      && IsDelete(w, id) && LeaseHeld(w, id)
      && (d in {GuardFiles, RemoveFiles, MarkDeleted} ==> w.remote.None?)
      && (d == MarkDeleted ==> AllGone(w))
    case Ending(id, result) =>
      && id < |w.jobs|
      && (IsDelete(w, id) ==>
            LeaseHeld(w, id) && (result == Returned ==> AllGone(w)) && (result == RaisedCancelled ==> w.stopping))
  }

  predicate Owed(w: World) {
    Gone(w) && (!AllGone(w) || InMedia(w.pc)) ==> DeletePending(w.jobs)
  }

  predicate Final(w: World) {
    RowOf(w).state == Deleted ==> AllGone(w) && !InMedia(w.pc)
  }

  predicate Inv(w: World) {
    JobsOk(w) && PcOk(w) && Owed(w) && Final(w)
  }

  // ------------------------------------------------------------ the job table

  lemma EnqueueMakesPending(jobs: seq<Job>)
    ensures DeletePending(AfterEnqueue(jobs, DeleteRecording, SESSION, 0))
  {
    if !DeletePending(jobs) {
      var after := AfterEnqueue(jobs, DeleteRecording, SESSION, 0);
      assert IsActiveFor(after[|jobs|], DeleteRecording, SESSION);
    }
  }

  /** Every active delete job of `before` is still active at the same place in `after`. */
  predicate KeepsPending(before: seq<Job>, after: seq<Job>) {
    && |before| <= |after|
    && forall i :: 0 <= i < |before| && IsActiveFor(before[i], DeleteRecording, SESSION) ==>
      IsActiveFor(after[i], DeleteRecording, SESSION)
  }

  lemma StillPending(before: seq<Job>, after: seq<Job>)
    requires DeletePending(before) && KeepsPending(before, after)
    ensures DeletePending(after)
  {
    var i :| 0 <= i < |before| && IsActiveFor(before[i], DeleteRecording, SESSION);
    assert IsActiveFor(after[i], DeleteRecording, SESSION);
  }

  /** The step leaves tombstones, the active delete job and an emptied session as they were. */
  predicate Quiet(w: World, after: World) {
    && Gone(after) == Gone(w)
    && (RowOf(after).state == Deleted ==> RowOf(w).state == Deleted)
    && KeepsPending(w.jobs, after.jobs)
    && (Gone(w) && AllGone(w) && !InMedia(w.pc) ==> AllGone(after))
    && (Gone(w) && InMedia(after.pc) ==> InMedia(w.pc))
  }

  lemma QuietKeeps(w: World, after: World)
    requires Owed(w) && Final(w) && Quiet(w, after)
    ensures Owed(after) && Final(after)
  {
    if DeletePending(w.jobs) {
      StillPending(w.jobs, after.jobs);
    }
  }

  /** No route other than DELETE makes a tombstone, and none changes a tombstoned row. */
  lemma RoutesRespectTombstones(w: World, e: RowLifecycle.Event)
    requires RouteEvent(w, e)
    ensures var after := RowLifecycle.After(w.rows, e).row;
      Tombstoned(after.state) == Gone(w) && (Gone(w) ==> after == RowOf(w))
  {
  }

  lemma UploadRespectsTombstones(w: World, k: nat, data: Bytes, db: RecordingFiles.DbOutcome)
    ensures var after := AfterUploadSlice(w, k, data, db);
      && Gone(after) == Gone(w) && (Gone(w) ==> RowOf(after) == RowOf(w) && after.disk == w.disk)
      && after.jobs == w.jobs && after.pc == w.pc && after.remote == w.remote
      && after.worker == w.worker && after.stopping == w.stopping
  {
  }

  lemma RouteStepKeeps(w: World, step: Step)
    requires Inv(w) && Enabled(w, step) && (step.UploadSlice? || step.RowRoute?)
    ensures Inv(Do(w, step))
  {
    hide RowLifecycle.After, AfterUploadSlice;
    var after := Do(w, step);
    match step
    case UploadSlice(k, data, db) =>
      UploadRespectsTombstones(w, k, data, db);
      QuietKeeps(w, after);
      CarriesPc(w, after);
    case RowRoute(e) =>
      RoutesRespectTombstones(w, e);
      QuietKeeps(w, after);
      CarriesPc(w, after);
  }

  /** A delete job in hand means the session is tombstoned, so its files and object only shrink. */
  lemma CarriesPc(w: World, after: World)
    requires PcOk(w) && JobsOk(w) && Gone(after) == Gone(w)
    requires after.pc == w.pc && after.jobs == w.jobs && after.worker == w.worker && after.stopping == w.stopping
    requires Gone(w) ==> after.disk == w.disk && after.remote == w.remote
    ensures PcOk(after) && JobsOk(after)
  {
    if w.pc.InDelete? || w.pc.Ending? {
      assert DeleteJobOk(w.jobs[w.pc.id], Gone(w));
    }
  }

  lemma ProcessStepKeeps(w: World, step: Step)
    requires Inv(w) && Enabled(w, step) && (step.EnqueueJob? || step.Stop? || step.Crash? || step.ClaimJob?)
    ensures Inv(Do(w, step))
  {
    QuietKeeps(w, Do(w, step));
  }

  lemma DeleteRequestKeeps(w: World)
    requires Inv(w)
    ensures Inv(AfterDeleteRequest(w))
  {
    EnqueueMakesPending(if Gone(w) then w.jobs else AfterDeleteCancels(w.jobs, SESSION));
  }

  lemma ReconcileKeeps(w: World)
    requires Inv(w)
    ensures Inv(AfterReconcile(w))
  {
    EnqueueMakesPending(w.jobs);
  }

  lemma RecoveryKeeps(w: World, worker: WorkerId, startup: bool, now: int)
    requires Inv(w) && w.pc.Idle?
    ensures Inv(AfterRecovery(w, worker, startup, now))
  {
    if DeletePending(w.jobs) {
      StillPending(w.jobs, AfterRecover(w.jobs, worker, startup, now));
    }
  }

  lemma RestartKeeps(w: World, now: int)
    requires Inv(w) && w.pc == Down
    ensures Inv(AfterRestart(w, now))
  {
    var booted := w.(pc := Idle, worker := w.worker + 1, stopping := false);
    RecoveryKeeps(booted, w.worker + 1, true, now);
    var recovered := AfterRecovery(booted, w.worker + 1, true, now);
    ReconcileKeeps(recovered);
  }

  /** An action of a media handler stays with its job, appends at most one job, and leaves tombstones alone. */
  predicate MediaMove(w: World, after: World, id: nat) {
    && Gone(after) == Gone(w) && (Gone(w) ==> RowOf(after) == RowOf(w))
    && after.worker == w.worker && after.stopping == w.stopping
    && (|| after.jobs == w.jobs
        || after.jobs == AfterEnqueue(w.jobs, Upload, SESSION, 0)
        || after.jobs == AfterEnqueue(w.jobs, DeleteOrphanObject, SESSION, 0))
    && match after.pc
       case InTranscode(i, _, _) => i == id
       case InUpload(i, _, _, _) => i == id
       case Ending(i, _) => i == id
       case _ => false
  }

  lemma TranscodeMoves(w: World)
    requires w.pc.InTranscode?
    ensures MediaMove(w, TranscodeWork(w, w.pc.id, w.pc.t, w.pc.facts), w.pc.id)
  {
    hide AfterEnqueue, ValidMp4, SourceWhole, HoldsLease, ManifestFor, HeaderOk;
  }

  lemma UploadMoves(w: World)
    requires w.pc.InUpload?
    ensures MediaMove(w, UploadWork(w, w.pc.id, w.pc.u, w.pc.facts, w.pc.file), w.pc.id)
  {
    hide AfterEnqueue, ValidMp4;
  }

  lemma MediaMoveKeeps(w: World, after: World)
    requires Inv(w) && InMedia(w.pc) && MediaMove(w, after, w.pc.id)
    ensures Inv(after)
  {
    QuietKeeps(w, after);
  }

  lemma DeleteKeeps(w: World)
    requires Inv(w) && w.pc.InDelete?
    ensures Inv(DeleteWork(w, w.pc.id, w.pc.d))
  {
    hide AfterEnqueue, AfterWorkerWrite;
    var id, after := w.pc.id, DeleteWork(w, w.pc.id, w.pc.d);
    assert DeleteJobOk(w.jobs[id], Gone(w));
    assert IsActiveFor(after.jobs[id], DeleteRecording, SESSION);
  }

  lemma OtherWorkKeeps(w: World)
    requires Inv(w) && CanWork(w) && !InMedia(w.pc) && !w.pc.InDelete?
    ensures Inv(DoWork(w))
  {
    hide TranscodeWork, UploadWork, DeleteWork;
    if w.pc.Begun? {
      assert DeleteJobOk(w.jobs[w.pc.id], Gone(w));
    }
  }

  lemma MediaStepKeeps(w: World, step: Step)
    requires Inv(w) && Enabled(w, step) && (step.WorkRemove? || step.WorkPublish?)
    ensures Inv(Do(w, step))
  {
    if w.pc.InDelete? {
      assert DeleteJobOk(w.jobs[w.pc.id], Gone(w));
      assert IsActiveFor(w.jobs[w.pc.id], DeleteRecording, SESSION);
    }
  }

  lemma BreakOffKeeps(w: World, step: Step)
    requires Inv(w) && Enabled(w, step) && (step.Throw? || step.FinishLost?)
    ensures Inv(Do(w, step))
  {
    QuietKeeps(w, Do(w, step));
  }

  /** Finishing a delete job ends it only when nothing is left. */
  lemma FinishKeeps(w: World, now: int)
    requires Inv(w) && w.pc.Ending?
    ensures Inv(AfterFinishJob(w, now))
  {
    var id := w.pc.id;
    var after := AfterFinishJob(w, now);
    assert DeleteJobOk(w.jobs[id], Gone(w));
    if DeletePending(w.jobs) && !(IsDelete(w, id) && w.pc.result == Returned) {
      StillPending(w.jobs, after.jobs);
    }
  }

  lemma WorkKeeps(w: World)
    requires Inv(w) && CanWork(w)
    ensures Inv(DoWork(w))
  {
    hide Inv, TranscodeWork, UploadWork, DeleteWork, BeginWork;
    match w.pc
    case InTranscode(_, _, _) =>
      TranscodeMoves(w);
      MediaMoveKeeps(w, DoWork(w));
    case InUpload(_, _, _, _) =>
      UploadMoves(w);
      MediaMoveKeeps(w, DoWork(w));
    case InDelete(_, _) => DeleteKeeps(w);
    case _ => OtherWorkKeeps(w);
  }

  lemma StepKeeps(w: World, step: Step)
    requires Inv(w) && Enabled(w, step)
    ensures Inv(Do(w, step))
  {
    match step
    case DeleteRequest => DeleteRequestKeeps(w);
    case ReconcileTombstones => ReconcileKeeps(w);
    case RecoverStale(now) => RecoveryKeeps(w, w.worker, false, now);
    case Restart(now) => RestartKeeps(w, now);
    case Work => WorkKeeps(w);
    case FinishJob(now) => FinishKeeps(w, now);
    case UploadSlice(_, _, _) => RouteStepKeeps(w, step);
    case RowRoute(_) => RouteStepKeeps(w, step);
    case EnqueueJob(_, _) => ProcessStepKeeps(w, step);
    case Stop => ProcessStepKeeps(w, step);
    case Crash => ProcessStepKeeps(w, step);
    case ClaimJob(_, _) => ProcessStepKeeps(w, step);
    case WorkRemove(_) => MediaStepKeeps(w, step);
    case WorkPublish(_) => MediaStepKeeps(w, step);
    case Throw => BreakOffKeeps(w, step);
    case FinishLost => BreakOffKeeps(w, step);
  }

  // ------------------------------------------------------------ every run

  lemma {:induction false} EveryRunKeeps(w: World, steps: seq<Step>)
    requires Inv(w) && RecordingWorker.PossibleRun(w, steps)
    ensures Inv(AfterRun(w, steps))
    decreases |steps|
  {
    hide Inv, Enabled, Do;
    if steps != [] {
      StepKeeps(w, steps[0]);
      EveryRunKeeps(Do(w, steps[0]), steps[1..]);
    }
  }

  /**
   * However routes, crashes and restarts fall between the worker's actions: a tombstoned session with
   * an object or files left has an active delete job, a delete job never fails and is never cancelled,
   * and a session marked deleted has neither object nor files.
   */
  lemma DeletionIsComplete(steps: seq<Step>)
    requires RecordingWorker.PossibleRun(Start, steps)
    ensures var w := AfterRun(Start, steps);
      && (Gone(w) && (w.remote.Some? || FilesLeft(w.disk)) ==>
            exists i :: 0 <= i < |w.jobs| && w.jobs[i].kind == DeleteRecording && Active(w.jobs[i]))
      && (forall i :: 0 <= i < |w.jobs| && w.jobs[i].kind == DeleteRecording ==>
            w.jobs[i].status in {Queued, Running, Succeeded})
      && (RowOf(w).state == Deleted ==> w.remote.None? && !FilesLeft(w.disk))
  {
    EveryRunKeeps(Start, steps);
    var w := AfterRun(Start, steps);
    assert forall i :: 0 <= i < |w.jobs| ==> DeleteJobOk(w.jobs[i], Gone(w));
    if Gone(w) && !AllGone(w) {
      var i :| 0 <= i < |w.jobs| && IsActiveFor(w.jobs[i], DeleteRecording, SESSION);
      assert w.jobs[i].kind == DeleteRecording && Active(w.jobs[i]);
    }
  }

  lemma StepRespectsDeleted(w: World, step: Step)
    requires Enabled(w, step) && RowOf(w).state == Deleted
    ensures RowOf(Do(w, step)).state == Deleted
  {
    hide AfterEnqueue, AfterRecover, AfterFinish, AfterDeleteCancels, ValidMp4, MediaGuard, PlainGuard, SourceWhole;
    if step.RowRoute? {
      RoutesRespectTombstones(w, step.event);
    }
  }

  /** After `deleted`, no object and no file of the session ever exists again. */
  lemma {:induction false} DeletedForGood(w: World, steps: seq<Step>)
    requires Inv(w) && RecordingWorker.PossibleRun(w, steps) && RowOf(w).state == Deleted
    ensures RowOf(AfterRun(w, steps)).state == Deleted && AllGone(AfterRun(w, steps))
    decreases |steps|
  {
    hide Enabled, Do, JobsOk, PcOk, Owed;
    if steps != [] {
      StepKeeps(w, steps[0]);
      StepRespectsDeleted(w, steps[0]);
      DeletedForGood(Do(w, steps[0]), steps[1..]);
    }
  }

  // ------------------------------------------------------------ deletion can always be finished

  function Stage(d: DeleteAt): nat {
    match d
    case ReadRow => 5
    case GuardObject => 4
    case DeleteObject => 3
    case GuardFiles => 2
    case RemoveFiles => 1
    case MarkDeleted => 0
  }

  /** A delete handler in hand of the lease that nothing disturbs. */
  predicate Deletes(w: World) {
    w.pc.InDelete? && !w.stopping && LeaseHeld(w, w.pc.id) && Gone(w)
  }

  lemma RemovesOne(w: World, k: nat)
    requires Deletes(w) && w.pc.d == RemoveFiles && k in w.disk.chunks
    ensures Enabled(w, WorkRemove(k))
    ensures var next := Do(w, WorkRemove(k));
      Deletes(next) && next.pc == w.pc && |next.disk.chunks| < |w.disk.chunks|
  {
    hide HoldsLease;
    assert (w.disk.chunks - {k}).Keys == w.disk.chunks.Keys - {k};
    assert |w.disk.chunks - {k}| == |(w.disk.chunks - {k}).Keys| < |w.disk.chunks.Keys|;
  }

  lemma WorksOn(w: World)
    requires Deletes(w) && (w.pc.d == RemoveFiles ==> w.disk.chunks == map[])
    ensures Enabled(w, Work)
    ensures var next := Do(w, Work);
      if w.pc.d == MarkDeleted then RowOf(next).state == Deleted
      else Deletes(next) && Stage(next.pc.d) < Stage(w.pc.d)
  {
    hide HoldsLease, TranscodeWork, UploadWork, BeginWork;
  }

  /** An undisturbed delete handler runs to `deleted`, however many files are left. */
  lemma {:induction false} HandlerFinishes(w: World, now: int) returns (steps: seq<Step>, after: World)
    requires Deletes(w)
    ensures Goes(w, steps, now, after) && RowOf(after).state == Deleted
    decreases Stage(w.pc.d), |w.disk.chunks|
  {
    var d, chunks := w.pc.d, w.disk.chunks;
    hide Deletes, Do, Enabled;
    var step := Work;
    if d == RemoveFiles && chunks != map[] {
      assert chunks.Keys != {};
      var k :| k in chunks.Keys;
      step := WorkRemove(k);
      RemovesOne(w, k);
    } else {
      WorksOn(w);
    }
    var rest: seq<Step> := [];
    after := Do(w, step);
    if d == MarkDeleted {
      Arrived(after, now);
    } else {
      rest, after := HandlerFinishes(Do(w, step), now);
    }
    First(w, step, rest, now, after);
    steps := [step] + rest;
  }

  /** A tombstoned session, the worker at rest and no lease held. */
  predicate Rested(w: World) {
    Inv(w) && w.pc == Idle && !w.stopping && Gone(w) && NoneRunning(w.jobs)
  }

  /** The delete job's turn has come. */
  lemma TakesDelete(w: World, id: nat, now: int) returns (steps: seq<Step>, after: World)
    requires Rested(w) && FirstDue(w.jobs, id, now) && w.jobs[id].kind == DeleteRecording
    ensures Goes(w, steps, now, after) && RowOf(after).state == Deleted
  {
    var claimed := Do(w, ClaimJob(id, now));
    var begun := Do(claimed, Work);
    assert Deletes(begun);
    var rest: seq<Step>;
    hide Inv, Deletes, Do, Enabled;
    rest, after := HandlerFinishes(begun, now);
    TakesStep(w, id, now);
    First(claimed, Work, rest, now, after);
    First(w, ClaimJob(id, now), [Work] + rest, now, after);
    steps := [ClaimJob(id, now)] + ([Work] + rest);
  }

  lemma TakesStep(w: World, id: nat, now: int)
    requires Rested(w) && FirstDue(w.jobs, id, now)
    ensures Enabled(w, ClaimJob(id, now)) && Enabled(Do(w, ClaimJob(id, now)), Work)
  {
  }

  /** What is left of a job ahead: media handlers are cancelled at their first guard, others return. */
  function Outcome(w: World, id: nat): HandlerResult
    requires id < |w.jobs|
  {
    if w.jobs[id].kind in {Transcode, Upload} then RaisedCancelled else Returned
  }

  function Handled(w: World, id: nat, now: int): World
    requires id < |w.jobs|
  {
    w.(jobs := w.jobs[id := Claimed(w.jobs[id], w.worker, now)], pc := Ending(id, Outcome(w, id)),
       remote := if w.jobs[id].kind == DeleteOrphanObject then None else w.remote)
  }

  lemma HandlesAhead(w: World, id: nat, now: int) returns (steps: seq<Step>)
    requires Rested(w) && FirstDue(w.jobs, id, now) && w.jobs[id].kind != DeleteRecording
    ensures Goes(w, steps, now, Handled(w, id, now))
  {
    var claimed := Do(w, ClaimJob(id, now));
    var begun := DoWork(claimed);
    var end := Handled(w, id, now);
    TakesStep(w, id, now);
    if w.jobs[id].kind in {Transcode, Upload} {
      assert begun == end;
      hide Do, Enabled, Inv;
      Arrived(end, now);
      WorkIsDone(claimed);
      First(claimed, Work, [], now, end);
      First(w, ClaimJob(id, now), [Work] + [], now, end);
      steps := [ClaimJob(id, now)] + ([Work] + []);
    } else {
      assert CanWork(begun) && DoWork(begun) == end;
      hide Do, Enabled, Inv, DoWork;
      Arrived(end, now);
      WorkIsDone(claimed);
      WorkIsDone(begun);
      First(begun, Work, [], now, end);
      First(claimed, Work, [Work] + [], now, end);
      First(w, ClaimJob(id, now), [Work] + ([Work] + []), now, end);
      steps := [ClaimJob(id, now)] + ([Work] + ([Work] + []));
    }
  }

  lemma WorkIsDone(w: World)
    ensures CanWork(w) ==> Enabled(w, Work) && Do(w, Work) == DoWork(w)
  {
    hide DoWork;
  }

  /** A job ahead of the delete job takes its turn and is not due any more. */
  lemma PassesOver(w: World, id: nat, now: int) returns (steps: seq<Step>, after: World)
    requires Rested(w) && FirstDue(w.jobs, id, now) && w.jobs[id].kind != DeleteRecording
    ensures Goes(w, steps, now, after) && Rested(after) && WorkedOff(w.jobs, after.jobs, id, now, DeleteRecording)
  {
    steps := HandlesAhead(w, id, now);
    var ended := Handled(w, id, now);
    after := AfterFinishJob(ended, now);
    AheadKeepsRest(w, id, now);
    hide Rested, AfterFinishJob, Handled, WorkedOff;
    FinishStep(ended, now);
    Arrived(after, now);
    First(ended, FinishJob(now), [], now, after);
    Joined(w, steps, now, ended, [FinishJob(now)] + [], after);
    steps := steps + ([FinishJob(now)] + []);
  }

  lemma FinishStep(w: World, now: int)
    ensures w.pc.Ending? ==> Enabled(w, FinishJob(now)) && Do(w, FinishJob(now)) == AfterFinishJob(w, now)
  {
    hide AfterFinishJob;
  }

  lemma AheadKeepsRest(w: World, id: nat, now: int)
    requires Rested(w) && FirstDue(w.jobs, id, now) && w.jobs[id].kind != DeleteRecording
    ensures Handled(w, id, now).pc.Ending?
    ensures var after := AfterFinishJob(Handled(w, id, now), now);
      Rested(after) && WorkedOff(w.jobs, after.jobs, id, now, DeleteRecording)
  {
    var after := AfterFinishJob(Handled(w, id, now), now);
    assert DeleteJobOk(w.jobs[id], Gone(w));
    if DeletePending(w.jobs) {
      StillPending(w.jobs, after.jobs);
    }
  }

  /** The jobs ahead one by one, then the delete job. */
  lemma {:induction false} DeletesInTurn(w: World, now: int) returns (steps: seq<Step>, after: World)
    requires Rested(w) && SomeDue(w.jobs, DeleteRecording, now)
    ensures Goes(w, steps, now, after) && RowOf(after).state == Deleted
    decreases |DueOthers(w.jobs, DeleteRecording, now)|
  {
    var id := FirstDueExists(w.jobs, DeleteRecording, now);
    hide Rested;
    if w.jobs[id].kind == DeleteRecording {
      steps, after := TakesDelete(w, id, now);
    } else {
      var first, middle := PassesOver(w, id, now);
      WorkedOffDrops(w.jobs, middle.jobs, id, now, DeleteRecording);
      var rest: seq<Step>;
      rest, after := DeletesInTurn(middle, now);
      Joined(w, first, now, middle, rest, after);
      steps := first + rest;
    }
  }

  lemma RestartShape(w: World, now: int)
    requires Inv(w) && Gone(w)
    ensures var r := AfterRestart(w.(pc := Down), now); Inv(r) && Gone(r) && DeletePending(r.jobs)
  {
    ProcessStepKeeps(w, Crash);
    RestartKeeps(w.(pc := Down), now);
    EnqueueMakesPending(AfterRecover(w.jobs, w.worker + 1, true, now));
  }

  /**
   * From every reachable state of a tombstoned session, in the middle of anything: restart the process
   * late enough, and the worker alone, on its own clock and in the order of its queue, reaches `deleted`.
   */
  lemma DeletionCanAlwaysFinish(before: seq<Step>, clock: nat) returns (now: int, pass: seq<Step>)
    requires RecordingWorker.PossibleRun(Start, before) && Gone(AfterRun(Start, before))
    ensures forall step :: step in pass ==> Undisturbed(step)
    ensures var w, steps := AfterRun(Start, before), [Crash, Restart(now)] + pass;
      && RecordingWorker.PossibleRun(w, steps) && Scheduled(w, steps, clock)
      && RowOf(AfterRun(w, steps)).state == Deleted && AllGone(AfterRun(w, steps))
  {
    EveryRunKeeps(Start, before);
    EveryRunKeepsLocks(Start, before);
    var w := AfterRun(Start, before);
    now := LateEnough(w.jobs, clock);
    var restarted := AfterRestart(w.(pc := Down), now);
    RestartShape(w, now);
    RestartFreesQueue(w.(pc := Down), now);
    DeleteIsDue(restarted, now);
    hide Inv, AfterRestart, AfterRun, RecordingWorker.PossibleRun, Scheduled, LocksKnown;
    var after: World;
    pass, after := DeletesInTurn(restarted, now);
    GoesAlone(restarted, pass, now, after);
    GoesIsScheduled(restarted, pass, now, now, after);
    AfterACrash(w, clock, now, pass);
    EveryRunKeeps(w, [Crash, Restart(now)] + pass);
    DeletedIsGone(after);
  }

  lemma DeletedIsGone(w: World)
    requires Inv(w) && RowOf(w).state == Deleted
    ensures AllGone(w)
  {
  }

  lemma DeleteIsDue(w: World, now: int)
    requires DeletePending(w.jobs) && NoneRunning(w.jobs)
    requires forall i :: 0 <= i < |w.jobs| && w.jobs[i].status == Queued ==> Due(w.jobs[i], now)
    ensures SomeDue(w.jobs, DeleteRecording, now)
  {
    var i :| 0 <= i < |w.jobs| && IsActiveFor(w.jobs[i], DeleteRecording, SESSION);
  }
}

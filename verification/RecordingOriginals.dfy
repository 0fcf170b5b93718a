/** Originals outlive the transcode, and an uploaded take has its video in the object store. */
module RecordingOriginals {
  import opened Common
  import opened RecordingIntegrity
  import opened JobQueue
  import opened RecordingWorker
  import RecordingFiles
  import RowLifecycle

  /** The manifest lists every slice ever stored, with the digest of its bytes. */
  predicate Listed(m: map<nat, Digest>, written: SliceStore) {
    forall k :: k in written ==> k in m && m[k] == Sha256(written[k])
  }

  /** Nothing is missing and nothing more can be stored: every later slice is past the final one. */
  predicate Full(w: World) {
    RowOf(w).finalSeq.Some? && w.disk.chunks.Keys == Below(RowOf(w).finalSeq.value + 1)
  }

  predicate LocalValid(w: World) {
    ValidMp4(w.disk.mp4, RowOf(w).durationMs)
  }

  predicate FactsFit(facts: Facts, row: Row) {
    && facts.finalSeq == row.finalSeq && facts.totalChunks == row.totalChunks && facts.durationMs == row.durationMs
    && CompleteOrLater(row.state)
  }

  /** No manifest yet: every stored slice is on disk. A manifest: it lists them all beside a valid MP4. */
  predicate SlicesKept(w: World) {
    match RowOf(w).manifest
    case None => w.disk.chunks == w.written
    case Some(m) => CompleteOrLater(RowOf(w).state) && Listed(m, w.written) && LocalValid(w)
  }

  /** What a transcode has established by the time it reaches each action. */
  predicate TranscodeOk(w: World, t: TranscodeAt, facts: Facts) {
    var row := RowOf(w);
    && FactsFit(facts, row)
    && match t
       case CheckSource => facts.manifest == row.manifest
       case GuardTranscoding => facts.manifest == row.manifest && (row.manifest.None? ==> Full(w))
       case SetTranscoding => facts.manifest == row.manifest && (row.manifest.None? ==> Full(w))
       case CheckMp4 => facts.manifest == row.manifest && (row.manifest.None? ==> Full(w))
       case Concat => facts.manifest.None? && row.manifest.None? && Full(w)
       case Remux => facts.manifest.None? && row.manifest.None? && Full(w)
       case CheckResult => facts.manifest.None? && row.manifest.None? && Full(w)
       case GuardManifest => facts.manifest == row.manifest && (row.manifest.None? ==> Full(w)) && LocalValid(w)
       case GuardSet(m) => Listed(m, w.written) && (row.manifest.None? ==> Full(w)) && LocalValid(w)
       case SetManifest(m) => Listed(m, w.written) && (row.manifest.None? ==> Full(w)) && LocalValid(w)
       case _ => row.manifest.Some?
  }

  predicate UploadOk(w: World, u: UploadAt, facts: Facts, file: Option<Mp4>) {
    && FactsFit(facts, RowOf(w))
    && (u != CheckLocal ==> ValidMp4(file, RowOf(w).durationMs))
    && (u == SetUploaded ==> w.remote == file)
  }

  predicate HandlerOk(w: World) {
    match w.pc
    case InTranscode(_, t, facts) => TranscodeOk(w, t, facts)
    case InUpload(_, u, facts, file) => UploadOk(w, u, facts, file)
    case InDelete(_, _) => false
    case InOrphan(_) => false
    case _ => true
  }

  predicate NoCleanupJob(w: World) {
    forall i :: 0 <= i < |w.jobs| ==> w.jobs[i].kind != DeleteOrphanObject && w.jobs[i].kind != DeleteRecording
  }

  predicate RemoteKept(w: World) {
    RowOf(w).state == Uploaded ==> ValidMp4(w.remote, RowOf(w).durationMs)
  }

  /** All of it holds of a session that nobody asked to delete. */
  predicate Media(w: World) {
    !Gone(w) ==> SlicesKept(w) && HandlerOk(w) && NoCleanupJob(w) && RemoteKept(w)
  }

  predicate Inv(w: World) {
    RowLifecycle.Inv(w.rows) && Media(w)
  }

  // ------------------------------------------------------------ the row

  lemma WriteKeepsRow(rows: RowLifecycle.RowState, state: RecState, m: Option<map<nat, Digest>>)
    requires RowLifecycle.Inv(rows) && state in {Transcoding, Transcoded, Uploaded}
    ensures RowLifecycle.Inv(rows.(row := AfterWorkerWrite(rows.row, state, m)))
  {
    RowLifecycle.StepKeeps(rows, RowLifecycle.WorkerWrite(state, m));
  }

  /** Once a take is complete, no route or sweep changes its declaration or its manifest. */
  lemma RoutesFreeze(w: World, e: RowLifecycle.Event)
    requires RowLifecycle.Inv(w.rows) && RouteEvent(w, e)
    ensures var row, after := RowOf(w), RowLifecycle.After(w.rows, e).row;
      && Tombstoned(after.state) == Tombstoned(row.state) && after.manifest == row.manifest
      && (after.state == Uploaded ==> row.state == Uploaded)
      && (CompleteOrLater(row.state) ==>
            CompleteOrLater(after.state) && after.finalSeq == row.finalSeq
            && after.totalChunks == row.totalChunks && after.durationMs == row.durationMs)
  {
  }

  lemma RouteKeepsRow(w: World, e: RowLifecycle.Event)
    requires RowLifecycle.Inv(w.rows) && RouteEvent(w, e)
    ensures RowLifecycle.Inv(RowLifecycle.After(w.rows, e))
  {
    RowLifecycle.StepKeeps(w.rows, e);
  }

  lemma RouteKeeps(w: World, e: RowLifecycle.Event)
    requires Inv(w) && RouteEvent(w, e)
    ensures Inv(w.(rows := RowLifecycle.After(w.rows, e)))
  {
    hide RowLifecycle.After, RowLifecycle.Inv, ValidMp4, RouteEvent;
    RoutesFreeze(w, e);
    RouteKeepsRow(w, e);
  }

  // ------------------------------------------------------------ uploads

  /** An upload either changes nothing on disk or adds one new slice that the row still allows. */
  lemma UploadAdds(w: World, k: nat, data: Bytes, db: RecordingFiles.DbOutcome)
    ensures var after := AfterUploadSlice(w, k, data, db);
      || (after.disk == w.disk && after.written == w.written)
      || (&& !Gone(w) && RowOf(w).manifest.None? && k !in w.disk.chunks
          && (RowOf(w).finalSeq.Some? ==> k <= RowOf(w).finalSeq.value)
          && after.disk == w.disk.(chunks := w.disk.chunks[k := data])
          && after.written == w.written[k := data])
  {
    var after := AfterUploadSlice(w, k, data, db);
    if after.disk.chunks == w.disk.chunks {
      assert after.written == w.written;
    }
  }

  lemma UploadFreezes(w: World, k: nat, data: Bytes, db: RecordingFiles.DbOutcome)
    requires RowLifecycle.Inv(w.rows)
    ensures var row, after := RowOf(w), AfterUploadSlice(w, k, data, db);
      && RowLifecycle.Inv(after.rows)
      && Gone(after) == Gone(w) && RowOf(after).manifest == row.manifest
      && (RowOf(after).state == Uploaded ==> row.state == Uploaded)
      && (CompleteOrLater(row.state) ==>
            CompleteOrLater(RowOf(after).state) && RowOf(after).finalSeq == row.finalSeq
            && RowOf(after).totalChunks == row.totalChunks && RowOf(after).durationMs == row.durationMs)
      && after.jobs == w.jobs && after.pc == w.pc && after.remote == w.remote
  {
    hide HeaderOk, CompletenessOk, MissingForFinal;
    var after := AfterUploadSlice(w, k, data, db);
    RowLifecycle.StepKeeps(w.rows, RowLifecycle.SliceLanded(after.disk.chunks));
  }

  lemma UploadSliceKeeps(w: World, k: nat, data: Bytes, db: RecordingFiles.DbOutcome)
    requires Inv(w)
    ensures Inv(AfterUploadSlice(w, k, data, db))
  {
    hide AfterUploadSlice, ValidMp4, RowLifecycle.Inv;
    UploadAdds(w, k, data, db);
    UploadFreezes(w, k, data, db);
    var after := AfterUploadSlice(w, k, data, db);
    if Full(w) && !Gone(w) && CompleteOrLater(RowOf(w).state) {
      assert after.disk == w.disk && after.written == w.written;
    }
  }

  // ------------------------------------------------------------ the worker

  lemma GuardMeansComplete(w: World, id: nat)
    requires RowLifecycle.Inv(w.rows) && MediaGuard(w, id)
    ensures CompleteOrLater(RowOf(w).state) && !Gone(w)
  {
  }

  lemma TranscodeWritesKeep(w: World)
    requires Inv(w) && w.pc.InTranscode? && Writes(w.pc.t)
    ensures Inv(TranscodeWork(w, w.pc.id, w.pc.t, w.pc.facts))
  {
    hide ValidMp4, RowLifecycle.Inv, HeaderOk, MediaGuard, SourceWhole, Listed;
    if w.pc.t.SetTranscoding? {
      WriteKeepsRow(w.rows, Transcoding, None);
    } else {
      WriteKeepsRow(w.rows, Transcoded, Some(w.pc.t.manifest));
    }
  }

  /** Reading the facts of a complete take again finds the source the guard saw. */
  lemma CheckedSourceIsFull(w: World, facts: Facts)
    requires FactsFit(facts, RowOf(w)) && SourceWhole(w.disk, facts)
    ensures Full(w)
  {
  }

  lemma FreshManifestLists(w: World, facts: Facts)
    requires SlicesKept(w) && facts.manifest == RowOf(w).manifest
    ensures Listed(ManifestFor(facts, w.disk), w.written)
  {
  }

  predicate Writes(t: TranscodeAt) {
    t.SetTranscoding? || t.SetManifest?
  }

  predicate CleansUp(t: TranscodeAt) {
    t.GuardRemove? || t.RemoveChunks? || t.RemoveMerged? || t.EnqueueUpload?
  }

  lemma CleanUpKeeps(w: World)
    requires Inv(w) && w.pc.InTranscode? && CleansUp(w.pc.t)
    ensures Inv(TranscodeWork(w, w.pc.id, w.pc.t, w.pc.facts))
  {
    hide ValidMp4, RowLifecycle.Inv, MediaGuard, Listed;
  }

  predicate Prepares(t: TranscodeAt) {
    t.CheckSource? || t.GuardTranscoding? || t.CheckMp4?
  }

  lemma PrepareKeeps(w: World)
    requires Inv(w) && w.pc.InTranscode? && Prepares(w.pc.t)
    ensures Inv(TranscodeWork(w, w.pc.id, w.pc.t, w.pc.facts))
  {
    hide ValidMp4, RowLifecycle.Inv, MediaGuard, SourceWhole, Listed;
    var facts := w.pc.facts;
    if w.pc.t.CheckSource? && FactsFit(facts, RowOf(w)) && SourceWhole(w.disk, facts) {
      CheckedSourceIsFull(w, facts);
    }
  }

  lemma ProduceKeeps(w: World)
    requires Inv(w) && w.pc.InTranscode? && !Writes(w.pc.t) && !CleansUp(w.pc.t) && !Prepares(w.pc.t)
    ensures Inv(TranscodeWork(w, w.pc.id, w.pc.t, w.pc.facts))
  {
    hide ValidMp4, RowLifecycle.Inv, HeaderOk, MediaGuard, ManifestFor, Listed;
    if w.pc.t.GuardManifest? && !Gone(w) {
      FreshManifestLists(w, w.pc.facts);
    }
  }

  lemma UploadKeeps(w: World)
    requires Inv(w) && w.pc.InUpload?
    ensures Inv(UploadWork(w, w.pc.id, w.pc.u, w.pc.facts, w.pc.file))
  {
    hide ValidMp4, MediaGuard, Listed;
    WriteKeepsRow(w.rows, Uploaded, None);
  }

  lemma DeleteKeeps(w: World)
    requires Inv(w) && w.pc.InDelete?
    ensures Inv(DeleteWork(w, w.pc.id, w.pc.d))
  {
    RowLifecycle.StepKeeps(w.rows, RowLifecycle.DeleteJob);
  }

  lemma OtherWorkKeeps(w: World)
    requires Inv(w) && CanWork(w) && !w.pc.InTranscode? && !w.pc.InUpload? && !w.pc.InDelete?
    ensures Inv(DoWork(w))
  {
    hide TranscodeWork, UploadWork, DeleteWork, Listed;
    hide ValidMp4, HoldsLease;
  }

  lemma WorkKeeps(w: World)
    requires Inv(w) && CanWork(w)
    ensures Inv(DoWork(w))
  {
    hide Inv, TranscodeWork, UploadWork, DeleteWork, BeginWork;
    match w.pc
    case InTranscode(_, t, _) =>
      if Writes(t) {
        TranscodeWritesKeep(w);
      } else if CleansUp(t) {
        CleanUpKeeps(w);
      } else if Prepares(t) {
        PrepareKeeps(w);
      } else {
        ProduceKeeps(w);
      }
    case InUpload(_, _, _, _) => UploadKeeps(w);
    case InDelete(_, _) => DeleteKeeps(w);
    case _ => OtherWorkKeeps(w);
  }

  // ------------------------------------------------------------ everything else

  lemma DeleteRequestKeeps(w: World)
    requires Inv(w)
    ensures Inv(AfterDeleteRequest(w))
  {
    RowLifecycle.StepKeeps(w.rows, RowLifecycle.DeleteRoute);
  }

  lemma RecoveryKeeps(w: World, worker: WorkerId, startup: bool, now: int)
    requires Inv(w)
    ensures Inv(AfterRecovery(w, worker, startup, now))
  {
    hide ValidMp4, RowLifecycle.Inv, Recoverable;
    RowLifecycle.StepKeeps(w.rows, RowLifecycle.LeaseRecovered);
  }

  lemma RestartKeeps(w: World, now: int)
    requires Inv(w)
    ensures Inv(AfterRestart(w, now))
  {
    var booted := w.(pc := Idle, worker := w.worker + 1, stopping := false);
    RecoveryKeeps(booted, w.worker + 1, true, now);
  }

  lemma FinishKeeps(w: World, now: int)
    requires Inv(w) && w.pc.Ending?
    ensures Inv(AfterFinishJob(w, now))
  {
    hide ValidMp4, RowLifecycle.Inv;
    RowLifecycle.StepKeeps(w.rows, RowLifecycle.TranscodeError);
  }

  lemma ProcessStepKeeps(w: World, step: Step)
    requires Inv(w) && Enabled(w, step)
    requires step.EnqueueJob? || step.ReconcileTombstones? || step.Stop? || step.Crash? || step.ClaimJob?
    ensures Inv(Do(w, step))
  {
    hide ValidMp4, RowLifecycle.Inv, Listed;
  }

  lemma MediaStepKeeps(w: World, step: Step)
    requires Inv(w) && Enabled(w, step) && (step.WorkRemove? || step.WorkPublish?)
    ensures Inv(Do(w, step))
  {
    hide ValidMp4, RowLifecycle.Inv, Listed;
  }

  lemma BreakOffKeeps(w: World, step: Step)
    requires Inv(w) && Enabled(w, step) && (step.Throw? || step.FinishLost?)
    ensures Inv(Do(w, step))
  {
    hide ValidMp4, RowLifecycle.Inv, Listed;
  }

  lemma StepKeeps(w: World, step: Step)
    requires Inv(w) && Enabled(w, step)
    ensures Inv(Do(w, step))
  {
    hide Inv, DoWork, AfterRecovery, AfterRestart, AfterFinishJob, AfterUploadSlice, AfterDeleteRequest, CanWork;
    match step
    case UploadSlice(k, data, db) => UploadSliceKeeps(w, k, data, db);
    case RowRoute(e) => RouteKeeps(w, e);
    case DeleteRequest => DeleteRequestKeeps(w);
    case RecoverStale(now) => RecoveryKeeps(w, w.worker, false, now);
    case Restart(now) => RestartKeeps(w, now);
    case Work => WorkKeeps(w);
    case FinishJob(now) => FinishKeeps(w, now);
    case EnqueueJob(_, _) => ProcessStepKeeps(w, step);
    case ReconcileTombstones => ProcessStepKeeps(w, step);
    case Stop => ProcessStepKeeps(w, step);
    case Crash => ProcessStepKeeps(w, step);
    case ClaimJob(_, _) => ProcessStepKeeps(w, step);
    case WorkRemove(_) => MediaStepKeeps(w, step);
    case WorkPublish(_) => MediaStepKeeps(w, step);
    case Throw => BreakOffKeeps(w, step);
    case FinishLost => BreakOffKeeps(w, step);
  }

  lemma {:induction false} EveryRunKeeps(w: World, steps: seq<Step>)
    requires Inv(w) && RecordingWorker.PossibleRun(w, steps)
    ensures Inv(AfterRun(w, steps))
    decreases |steps|
  {
    hide Inv, Enabled, Do;
    if steps != [] {
      StepKeeps(w, steps[0]);
      EveryRunKeeps(Do(w, steps[0]), steps[1..]);
    }
  }

  /**
   * However crashes, restarts, routes and retries fall between the worker's actions: a slice the server
   * ever stored for a take nobody deleted is on disk, or the manifest lists its digest and a valid MP4
   * is in place.
   */
  lemma OriginalsOutliveTheTranscode(steps: seq<Step>, k: nat)
    requires RecordingWorker.PossibleRun(Start, steps)
    ensures var w := AfterRun(Start, steps);
      !Gone(w) && k in w.written ==>
        || (k in w.disk.chunks && w.disk.chunks[k] == w.written[k])
        || (&& RowOf(w).manifest.Some? && k in RowOf(w).manifest.value
            && RowOf(w).manifest.value[k] == Sha256(w.written[k])
            && ValidMp4(w.disk.mp4, RowOf(w).durationMs))
  {
    EveryRunKeeps(Start, steps);
  }

  /** A take marked uploaded has its validated video in the object store until it is deleted. */
  lemma UploadedMeansStored(steps: seq<Step>)
    requires RecordingWorker.PossibleRun(Start, steps)
    ensures var w := AfterRun(Start, steps);
      RowOf(w).state == Uploaded ==> ValidMp4(w.remote, RowOf(w).durationMs)
  {
    EveryRunKeeps(Start, steps);
  }
}

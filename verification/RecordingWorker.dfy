/**
 * The single recording worker, one action at a time (server/app/jobs.py). A route, a delete, a stop, a
 * crash or a restart may come between any two of its actions.
 */
module RecordingWorker {
  import opened Common
  import opened RecordingIntegrity
  import opened JobQueue
  import RowLifecycle
  import RecordingFiles
  import TakeProtocol

  /** What ffprobe reports about a file; None when it cannot be probed. */
  datatype Probe = Probe(hasVideo: bool, hasAudio: bool, h264: bool, aac: bool, seconds: Option<real>)

  datatype Mp4 = Mp4(content: Bytes, probe: Option<Probe>)

  /** `_valid_mp4`: a fixed predicate of the file and of the declared duration. */
  predicate ValidMp4(file: Option<Mp4>, expectedMs: Option<int>) {
    && file.Some? && file.value.content != [] && file.value.probe.Some?
    && var p := file.value.probe.value;
    && p.hasVideo && p.seconds.Some? && p.seconds.value > 0.0 && p.h264 && (p.hasAudio ==> p.aac)
    && (expectedMs.Some? ==>
          -1.0 < p.seconds.value - expectedMs.value as real / 1000.0 < 1.0)
  }

  datatype Facts = Facts(manifest: Option<map<nat, Digest>>, finalSeq: Option<int>, totalChunks: Option<int>,
                         durationMs: Option<int>)

  datatype TranscodeAt =
    | CheckSource | GuardTranscoding | SetTranscoding | CheckMp4 | Concat | Remux | CheckResult
    | GuardManifest | GuardSet(manifest: map<nat, Digest>) | SetManifest(manifest: map<nat, Digest>)
    | GuardRemove | RemoveChunks | RemoveMerged | EnqueueUpload

  datatype UploadAt = CheckLocal | GuardExists | AskExists | GuardPut | Put | SetUploaded

  datatype DeleteAt = ReadRow | GuardObject | DeleteObject | GuardFiles | RemoveFiles | MarkDeleted

  /** How the handler left: it returned, it raised JobCancelled, or it raised anything else. */
  datatype HandlerResult = Returned | RaisedCancelled | RaisedError

  datatype Pc =
    | Down
    | Idle
    | Begun(id: nat)
    | ReadFacts(id: nat)
    | InTranscode(id: nat, t: TranscodeAt, facts: Facts)
    | InUpload(id: nat, u: UploadAt, facts: Facts, file: Option<Mp4>)
    | InDelete(id: nat, d: DeleteAt)
    | InOrphan(id: nat)
    | InTimeout(id: nat)
    | Ending(id: nat, result: HandlerResult)

  datatype Disk = Disk(chunks: SliceStore, merged: bool, mp4: Option<Mp4>, part: bool)

  /** One session: its row, its directory, its object, its jobs and the worker. `written` is history. */
  datatype World = World(
    rows: RowLifecycle.RowState,
    disk: Disk,
    remote: Option<Mp4>,
    jobs: seq<Job>,
    pc: Pc,
    worker: WorkerId,
    stopping: bool,
    written: SliceStore)

  const SESSION := "session"

  const EmptyDisk := Disk(map[], false, None, false)

  const Start := World(RowLifecycle.Fresh, EmptyDisk, None, [], Idle, 0, false, map[])

  predicate FilesLeft(disk: Disk) {
    disk != EmptyDisk
  }

  function RowOf(w: World): Row {
    w.rows.row
  }

  predicate Gone(w: World) {
    Tombstoned(RowOf(w).state)
  }

  datatype Step =
    // routes and timers
    | UploadSlice(k: nat, data: Bytes, db: RecordingFiles.DbOutcome)
    | RowRoute(event: RowLifecycle.Event)
    | DeleteRequest
    | EnqueueJob(kind: Kind, runAfter: int)
    | ReconcileTombstones
    | RecoverStale(now: int)
    // the process
    | Stop
    | Crash
    | Restart(now: int)
    // the worker
    | ClaimJob(id: nat, now: int)
    | Work
    | WorkRemove(k: nat)
    | WorkPublish(file: Option<Mp4>)
    | Throw
    | FinishJob(now: int)
    | FinishLost

  /** Row events that come from routes and sweeps, judged against this disk. */
  predicate RouteEvent(w: World, e: RowLifecycle.Event) {
    match e
    case Finalize(store, p) => store == w.disk.chunks && RowLifecycle.ValidPayload(p)
    case SessionEnd => true
    case SweepRead(store) => store == w.disk.chunks
    case SweepClaim(v) => v in w.rows.verdicts
    case _ => false
  }

  // ------------------------------------------------------------ guards

  predicate LeaseHeld(w: World, id: nat) {
    HoldsLease(w.jobs, id, w.worker)
  }

  /** `_require_runnable` for transcode and upload jobs. */
  predicate MediaGuard(w: World, id: nat) {
    var row := RowOf(w);
    && !w.stopping && LeaseHeld(w, id)
    && !Tombstoned(row.state) && !row.needsOperator && row.fin == FinComplete && row.incompleteReason.None?
  }

  /** `_require_runnable` for delete, timeout and backup jobs. */
  predicate PlainGuard(w: World, id: nat) {
    !w.stopping && LeaseHeld(w, id)
  }

  function Cancel(w: World, id: nat): World {
    w.(pc := Ending(id, RaisedCancelled))
  }

  function Fail(w: World, id: nat): World {
    w.(pc := Ending(id, RaisedError))
  }

  function FactsOf(row: Row): Facts {
    Facts(row.manifest, row.finalSeq, row.totalChunks, row.durationMs)
  }

  predicate SourceWhole(disk: Disk, facts: Facts) {
    && facts.finalSeq.Some? && facts.totalChunks == Some(facts.finalSeq.value + 1)
    && disk.chunks.Keys == Below(facts.finalSeq.value + 1)
    && HeaderOk(disk.chunks)
  }

  /** A retry keeps the manifest an earlier attempt wrote. */
  function ManifestFor(facts: Facts, disk: Disk): map<nat, Digest> {
    if facts.manifest.Some? then facts.manifest.value else TakeProtocol.DigestsOf(disk.chunks)
  }

  function WriteRow(w: World, state: RecState, manifest: Option<map<nat, Digest>>): World {
    w.(rows := w.rows.(row := AfterWorkerWrite(RowOf(w), state, manifest)))
  }

  // ------------------------------------------------------------ the handlers, one action each

  function BeginWork(w: World, id: nat): World
    requires id < |w.jobs|
  {
    match w.jobs[id].kind
    case Transcode => if MediaGuard(w, id) then w.(pc := ReadFacts(id)) else Cancel(w, id)
    case Upload => if MediaGuard(w, id) then w.(pc := ReadFacts(id)) else Cancel(w, id)
    case DeleteRecording => if PlainGuard(w, id) then w.(pc := InDelete(id, ReadRow)) else Cancel(w, id)
    case DeleteOrphanObject => if PlainGuard(w, id) then w.(pc := InOrphan(id)) else Cancel(w, id)
    case _ => if PlainGuard(w, id) then w.(pc := InTimeout(id)) else Cancel(w, id)
  }

  function TranscodeWork(w: World, id: nat, t: TranscodeAt, facts: Facts): World {
    match t
    case CheckSource =>
      if facts.manifest.Some? || SourceWhole(w.disk, facts) then w.(pc := InTranscode(id, GuardTranscoding, facts))
      else Fail(w, id)
    case GuardTranscoding => if MediaGuard(w, id) then w.(pc := InTranscode(id, SetTranscoding, facts)) else Cancel(w, id)
    case SetTranscoding =>
      if WorkerMayWrite(RowOf(w)) then WriteRow(w, Transcoding, None).(pc := InTranscode(id, CheckMp4, facts))
      else Cancel(w, id)
    case CheckMp4 =>
      if ValidMp4(w.disk.mp4, facts.durationMs) then w.(pc := InTranscode(id, GuardManifest, facts))
      else w.(pc := InTranscode(id, Concat, facts))
    case Concat =>
      if w.disk.chunks != map[] && HeaderOk(w.disk.chunks) then
        w.(disk := w.disk.(merged := true, part := true), pc := InTranscode(id, Remux, facts))
      else Fail(w, id)
    case Remux =>
      var cleaned := w.(disk := w.disk.(part := false));
      if MediaGuard(w, id) then Fail(cleaned, id) else Cancel(cleaned, id)
    case CheckResult =>
      if ValidMp4(w.disk.mp4, facts.durationMs) then w.(pc := InTranscode(id, GuardManifest, facts)) else Fail(w, id)
    case GuardManifest =>
      if MediaGuard(w, id) then w.(pc := InTranscode(id, GuardSet(ManifestFor(facts, w.disk)), facts))
      else Cancel(w, id)
    case GuardSet(m) => if MediaGuard(w, id) then w.(pc := InTranscode(id, SetManifest(m), facts)) else Cancel(w, id)
    case SetManifest(m) =>
      if WorkerMayWrite(RowOf(w)) then WriteRow(w, Transcoded, Some(m)).(pc := InTranscode(id, GuardRemove, facts))
      else Cancel(w, id)
    case GuardRemove => if MediaGuard(w, id) then w.(pc := InTranscode(id, RemoveChunks, facts)) else Cancel(w, id)
    case RemoveChunks => if w.disk.chunks == map[] then w.(pc := InTranscode(id, RemoveMerged, facts)) else w
    case RemoveMerged => w.(disk := w.disk.(merged := false), pc := InTranscode(id, EnqueueUpload, facts))
    case EnqueueUpload =>
      w.(jobs := if Tombstoned(RowOf(w).state) then w.jobs else AfterEnqueue(w.jobs, Upload, SESSION, 0),
         pc := Ending(id, Returned))
  }

  function UploadWork(w: World, id: nat, u: UploadAt, facts: Facts, file: Option<Mp4>): World {
    match u
    case CheckLocal =>
      if ValidMp4(w.disk.mp4, facts.durationMs) then w.(pc := InUpload(id, GuardExists, facts, w.disk.mp4))
      else Fail(w, id)
    case GuardExists => if MediaGuard(w, id) then w.(pc := InUpload(id, AskExists, facts, file)) else Cancel(w, id)
    case AskExists =>
      var next := if file == w.remote then SetUploaded else GuardPut;
      w.(pc := InUpload(id, next, facts, file))
    case GuardPut => if MediaGuard(w, id) then w.(pc := InUpload(id, Put, facts, file)) else Cancel(w, id)
    case Put => w.(remote := file, pc := InUpload(id, SetUploaded, facts, file))
    case SetUploaded =>
      if WorkerMayWrite(RowOf(w)) then WriteRow(w, Uploaded, None).(pc := Ending(id, Returned))
      else Cancel(w.(jobs := AfterEnqueue(w.jobs, DeleteOrphanObject, SESSION, 0)), id)
  }

  function DeleteWork(w: World, id: nat, d: DeleteAt): World {
    match d
    case ReadRow => w.(pc := if Gone(w) then InDelete(id, GuardObject) else Ending(id, Returned))
    case GuardObject => if PlainGuard(w, id) then w.(pc := InDelete(id, DeleteObject)) else Cancel(w, id)
    case DeleteObject => w.(remote := None, pc := InDelete(id, GuardFiles))
    case GuardFiles => if PlainGuard(w, id) then w.(pc := InDelete(id, RemoveFiles)) else Cancel(w, id)
    case RemoveFiles =>
      if w.disk.chunks != map[] then w else w.(disk := EmptyDisk, pc := InDelete(id, MarkDeleted))
    case MarkDeleted => w.(rows := w.rows.(row := AfterDeleteJob(RowOf(w))), pc := Ending(id, Returned))
  }

  predicate CanWork(w: World) {
    match w.pc
    case Begun(id) => id < |w.jobs|
    case ReadFacts(id) => id < |w.jobs|
    case InTranscode(_, _, _) => true
    case InUpload(_, _, _, _) => true
    case InDelete(_, _) => true
    case InOrphan(_) => true
    case InTimeout(_) => true
    case _ => false
  }

  function DoWork(w: World): World
    requires CanWork(w)
  {
    match w.pc
    case Begun(id) => BeginWork(w, id)
    case ReadFacts(id) =>
      if !MediaGuard(w, id) then Cancel(w, id)
      else if w.jobs[id].kind == Transcode then w.(pc := InTranscode(id, CheckSource, FactsOf(RowOf(w))))
      else w.(pc := InUpload(id, CheckLocal, FactsOf(RowOf(w)), None))
    case InTranscode(id, t, facts) => TranscodeWork(w, id, t, facts)
    case InUpload(id, u, facts, file) => UploadWork(w, id, u, facts, file)
    case InDelete(id, d) => DeleteWork(w, id, d)
    case InOrphan(id) => w.(remote := None, pc := Ending(id, Returned))
    case InTimeout(id) => w.(pc := Ending(id, Returned))
  }

  /** The chunk directory is removed file by file, by the transcode handler or by the delete handler. */
  predicate Removing(w: World) {
    || (w.pc.InTranscode? && w.pc.t == RemoveChunks)
    || (w.pc.InDelete? && w.pc.d == RemoveFiles)
  }

  // ------------------------------------------------------------ steps

  predicate Enabled(w: World, step: Step) {
    match step
    case RowRoute(e) => RouteEvent(w, e)
    case EnqueueJob(kind, _) => kind in {Transcode, Upload, FinalizeTimeout}
    case ReconcileTombstones => w.pc == Idle
    case RecoverStale(_) => w.pc == Idle
    case Restart(_) => w.pc == Down
    case ClaimJob(id, _) => w.pc == Idle && !w.stopping && id < |w.jobs| && w.jobs[id].status == Queued
    case Work => CanWork(w)
    case WorkRemove(k) => Removing(w) && k in w.disk.chunks
    case WorkPublish(_) => w.pc.InTranscode? && w.pc.t == Remux
    case Throw => !w.pc.Down? && !w.pc.Idle? && !w.pc.Ending?
    case FinishJob(_) => w.pc.Ending?
    case FinishLost => w.pc.Ending?
    case _ => true
  }

  function AfterUploadSlice(w: World, k: nat, data: Bytes, db: RecordingFiles.DbOutcome): World {
    var take := RecordingFiles.Take(Some(RowOf(w)), w.disk.chunks, false);
    var after := RecordingFiles.AfterUpload(take, k, data, None, true, db);
    w.(disk := w.disk.(chunks := after.store),
       rows := w.rows.(row := after.row.value),
       written := w.written + (map j | j in after.store && j !in w.disk.chunks :: after.store[j]))
  }

  function AfterDeleteRequest(w: World): World {
    var cancelled := if Gone(w) then w.jobs else AfterDeleteCancels(w.jobs, SESSION);
    w.(rows := w.rows.(row := AfterDeleteRoute(RowOf(w))),
       jobs := AfterEnqueue(cancelled, DeleteRecording, SESSION, 0))
  }

  function AfterReconcile(w: World): World {
    if Gone(w) then w.(jobs := AfterEnqueue(w.jobs, DeleteRecording, SESSION, 0)) else w
  }

  predicate GivesUp(job: Job, worker: WorkerId, startup: bool, now: int) {
    Recoverable(job, worker, startup, now) && Exhausted(job) && job.kind == Transcode
  }

  /** A recovered lease that ran out of attempts fails its transcode. */
  function AfterRecovery(w: World, worker: WorkerId, startup: bool, now: int): World {
    var lost := exists i :: 0 <= i < |w.jobs| && GivesUp(w.jobs[i], worker, startup, now);
    w.(jobs := AfterRecover(w.jobs, worker, startup, now),
       rows := if lost then w.rows.(row := AfterLeaseRecovered(RowOf(w))) else w.rows)
  }

  function AfterRestart(w: World, now: int): World {
    AfterReconcile(AfterRecovery(w.(pc := Idle, worker := w.worker + 1, stopping := false), w.worker + 1, true, now))
  }

  /** Whether a cancelled job goes back to the queue is decided when it is finished. */
  function OutcomeOf(result: HandlerResult, stopping: bool): Outcome {
    match result
    case Returned => Done
    case RaisedError => Error
    case RaisedCancelled => JobCancelled(stopping)
  }

  function AfterFinishJob(w: World, now: int): World
    requires w.pc.Ending?
  {
    var id, outcome := w.pc.id, OutcomeOf(w.pc.result, w.stopping);
    var failed := LeaseHeld(w, id) && outcome == Error && w.jobs[id].kind == Transcode;
    w.(jobs := AfterFinish(w.jobs, id, w.worker, outcome, now),
       rows := if failed then w.rows.(row := AfterTranscodeError(RowOf(w))) else w.rows,
       pc := Idle)
  }

  function Do(w: World, step: Step): World
    requires Enabled(w, step)
  {
    match step
    case UploadSlice(k, data, db) => AfterUploadSlice(w, k, data, db)
    case RowRoute(e) => w.(rows := RowLifecycle.After(w.rows, e))
    case DeleteRequest => AfterDeleteRequest(w)
    case EnqueueJob(kind, runAfter) => w.(jobs := AfterEnqueue(w.jobs, kind, SESSION, runAfter))
    case ReconcileTombstones => AfterReconcile(w)
    case RecoverStale(now) => AfterRecovery(w, w.worker, false, now)
    case Stop => w.(stopping := true)
    case Crash => w.(pc := Down)
    case Restart(now) => AfterRestart(w, now)
    case ClaimJob(id, now) => w.(jobs := w.jobs[id := Claimed(w.jobs[id], w.worker, now)], pc := Begun(id))
    case Work => DoWork(w)
    case WorkRemove(k) => w.(disk := w.disk.(chunks := w.disk.chunks - {k}))
    case WorkPublish(file) =>
      if file.Some? then
        w.(disk := w.disk.(mp4 := file, part := false), pc := InTranscode(w.pc.id, CheckResult, w.pc.facts))
      else Fail(w.(disk := w.disk.(part := false)), w.pc.id)
    case Throw => Fail(w, w.pc.id)
    case FinishJob(now) => AfterFinishJob(w, now)
    case FinishLost => w.(pc := Idle)
  }

  predicate PossibleRun(w: World, steps: seq<Step>)
    decreases |steps|
  {
    steps == [] || (Enabled(w, steps[0]) && PossibleRun(Do(w, steps[0]), steps[1..]))
  }

  function AfterRun(w: World, steps: seq<Step>): World
    requires PossibleRun(w, steps)
    decreases |steps|
  {
    if steps == [] then w else AfterRun(Do(w, steps[0]), steps[1..])
  }
}

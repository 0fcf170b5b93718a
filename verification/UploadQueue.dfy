/** The browser's upload queue decisions (apps/student/src/uploadQueue.ts). */
module UploadQueue {
  import opened Common
  import opened RecordingIntegrity

  const FINALIZE_DELAY_MS: int := 30_000
  const META_RETENTION_MS: int := 7 * 24 * 60 * 60 * 1000

  datatype RecorderState = RecorderRunning | RecorderStopped | RecorderLostState

  datatype UploadBlock =
    | BlockSequenceConflict | BlockSequencePastFinal | BlockChecksum | BlockUnauthorized
    | BlockFinalBelowStored | BlockInvalidFinalize | BlockFinalizeConflict | BlockRecordingDeleted

  /** `recording_meta`: one row per session in IndexedDB. */
  datatype Meta = Meta(
    nextSequence: nat,
    startedAt: int,
    recorderState: RecorderState,
    finalSequence: Option<int>,
    finalizePending: bool,
    payload: Option<Payload>,
    confirmed: bool,
    persistedAt: Option<int>,
    confirmedAt: Option<int>,
    attempt: nat,
    nextAttemptAt: Option<int>,
    serverFinalize: FinState,
    lastEndMs: int,
    needsOperator: bool,
    uploadBlock: Option<UploadBlock>,
    flushPending: bool)

  datatype ServerStatus = ServerStatus(fin: FinState, received: set<nat>)

  function EmptyMeta(now: int): Meta {
    Meta(0, now, RecorderRunning, None, false, None, false, None, None, 0, None, NotFinalized, 0, false, None, false)
  }

  /** The meta half of `buildStoredChunk`; the slice gets the sequence `meta.nextSequence`. */
  function AfterStoredChunk(meta: Meta, endMs: int): Meta {
    meta.(nextSequence := meta.nextSequence + 1, lastEndMs := endMs)
  }

  /** Once the server called the take complete or incomplete, the queue leaves its declaration alone. */
  predicate ServerSettled(meta: Meta) {
    meta.serverFinalize in {FinComplete, FinIncomplete}
  }

  predicate FinalizeDue(meta: Meta, pendingChunks: nat, now: int) {
    && meta.finalizePending && !meta.confirmed
    && !meta.flushPending
    && meta.payload.Some? && meta.persistedAt.Some?
    && !ServerSettled(meta)
    && (pendingChunks == 0 || now >= meta.persistedAt.value + FINALIZE_DELAY_MS)
    && (meta.nextAttemptAt.None? || now >= meta.nextAttemptAt.value)
  }

  function Pow2(n: nat): nat {
    if n == 0 then 1 else 2 * Pow2(n - 1)
  }

  function Min(a: int, b: int): int {
    if a <= b then a else b
  }

  function NoteFinalizeAttempt(meta: Meta, now: int, failed: bool): Meta {
    if !failed then meta.(nextAttemptAt := None)
    else
      var attempt := meta.attempt + 1;
      meta.(attempt := attempt, nextAttemptAt := Some(now + Min(30_000, 1_000 * Pow2(Min(attempt, 5)))))
  }

  /** A declaration over every slice stored so far. */
  function FullPayload(meta: Meta, lost: bool): Payload {
    Payload(meta.nextSequence as int - 1, meta.nextSequence as int, meta.lastEndMs, lost)
  }

  function PendingAtLeast(fin: FinState): FinState {
    if fin == NotFinalized then Pending else fin
  }

  function PersistStop(meta: Meta, now: int): Meta {
    meta.(recorderState := RecorderStopped,
          finalSequence := Some(meta.nextSequence as int - 1),
          finalizePending := true, confirmed := false,
          persistedAt := Some(now),
          serverFinalize := PendingAtLeast(meta.serverFinalize),
          payload := Some(FullPayload(meta, false)))
  }

  function PersistRecorderLost(meta: Meta, now: int): Meta {
    meta.(recorderState := RecorderLostState,
          finalSequence := Some(meta.nextSequence as int - 1),
          finalizePending := true, confirmed := false,
          persistedAt := if meta.persistedAt.Some? then meta.persistedAt else Some(now),
          serverFinalize := PendingAtLeast(meta.serverFinalize),
          payload := Some(FullPayload(meta, true)))
  }

  /** Auth and finalize failures stop the declaration; a bad slice does not. */
  predicate StopsFinalize(block: UploadBlock) {
    block in {BlockUnauthorized, BlockFinalBelowStored, BlockInvalidFinalize, BlockFinalizeConflict,
              BlockRecordingDeleted}
  }

  function NotePermanentFailure(meta: Meta, block: UploadBlock): Meta {
    meta.(needsOperator := true, uploadBlock := Some(block),
          finalizePending := if StopsFinalize(block) then false else meta.finalizePending,
          nextAttemptAt := if StopsFinalize(block) then None else meta.nextAttemptAt)
  }

  function Blocked(lost: Meta, block: Option<UploadBlock>): Meta {
    if block.Some? then NotePermanentFailure(lost, block.value) else lost
  }

  /** The guards `persistInterrupted` and `persistReplaced` share. */
  predicate DeclarationStands(meta: Meta) {
    || meta.recorderState == RecorderStopped || meta.confirmed
    || ServerSettled(meta)
    || (meta.recorderState == RecorderLostState && meta.finalSequence == Some(meta.nextSequence as int - 1))
  }

  function PersistInterrupted(meta: Meta, now: int): Meta {
    if DeclarationStands(meta) then meta
    else Blocked(PersistRecorderLost(meta, now).(needsOperator := true), meta.uploadBlock)
  }

  function PersistReplaced(meta: Meta, now: int): Meta {
    if DeclarationStands(meta) then meta else PersistRecorderLost(meta, now)
  }

  function HoldForRecorderFlush(meta: Meta): Meta {
    if meta.recorderState != RecorderLostState || meta.confirmed || ServerSettled(meta) then meta
    else meta.(flushPending := true)
  }

  function ReleaseRecorderFlush(meta: Meta, now: int): Meta {
    if !meta.flushPending then meta
    else
      var released := meta.(flushPending := false);
      if released.recorderState != RecorderLostState || released.confirmed || ServerSettled(released) then released
      else Blocked(PersistRecorderLost(released.(persistedAt := None), now), released.uploadBlock)
  }

  datatype ReloadPlan = Idle | SafeToClose | DeclareLost | ResumeUploads

  function PlanReload(meta: Option<Meta>): ReloadPlan {
    if meta.None? then Idle
    else if meta.value.confirmed && meta.value.serverFinalize == FinComplete then SafeToClose
    else if meta.value.recorderState == RecorderRunning then DeclareLost
    else ResumeUploads
  }

  predicate ShouldDiscardMeta(meta: Meta, now: int) {
    && meta.recorderState != RecorderLostState
    && meta.confirmed && meta.serverFinalize == FinComplete
    && meta.confirmedAt.Some? && now >= meta.confirmedAt.value + META_RETENTION_MS
  }

  function ApplyServerStatus(meta: Meta, status: ServerStatus, now: int): Meta {
    var incomingSettled := status.fin in {FinComplete, FinIncomplete};
    var fin := if ServerSettled(meta) && !incomingSettled then meta.serverFinalize else status.fin;
    var next := meta.(serverFinalize := fin);
    if fin == FinComplete then
      next.(confirmed := true, finalizePending := false,
            confirmedAt := if meta.confirmedAt.Some? then meta.confirmedAt else Some(now))
    else if fin == FinIncomplete then next.(confirmed := false, finalizePending := false)
    else next
  }

  /** `clearUnauthorizedUploadBlock`; `remaining` are the blocks of slices that stay refused. */
  function ClearUnauthorized(meta: Meta, now: int, remaining: seq<UploadBlock>): Meta {
    if meta.uploadBlock != Some(BlockUnauthorized) then meta
    else
      var next := meta.(uploadBlock := if remaining == [] then None else Some(remaining[0]),
                        needsOperator := remaining != []
                          || (meta.recorderState == RecorderLostState && meta.needsOperator));
      if meta.payload.Some? && !meta.confirmed && !ServerSettled(meta)
         && (forall b :: b in remaining ==> !StopsFinalize(b)) then
        next.(finalizePending := true, nextAttemptAt := Some(now))
      else next
  }

  datatype CloseBanner = BannerNone | Safe | Confirming | Uploading(pending: nat) | Interrupted | IncompleteTake
                       | NeedsOperator(block: Option<UploadBlock>)

  function CloseBannerOf(meta: Option<Meta>, pending: nat): CloseBanner {
    if meta.None? then BannerNone
    else
      var m := meta.value;
      if m.confirmed && m.serverFinalize == FinComplete then Safe
      else if m.recorderState == RecorderLostState then Interrupted
      else if m.needsOperator then NeedsOperator(m.uploadBlock)
      else if m.serverFinalize == FinIncomplete then IncompleteTake
      else if pending > 0 && m.recorderState != RecorderRunning then Uploading(pending)
      else if m.finalizePending then Confirming
      else BannerNone
  }

  /** `mergeReload` (recordingController.ts): what a status read and a reload do to the stored row. */
  function MergeReload(latest: Meta, status: Option<ServerStatus>, now: int, recorderStillHere: bool): Meta {
    var told := if status.Some? then ApplyServerStatus(latest, status.value, now) else latest;
    if recorderStillHere then told
    else
      var judged := if PlanReload(Some(told)) == DeclareLost then PersistRecorderLost(told, now) else told;
      ReleaseRecorderFlush(judged, now)
  }

  /** `declareStop` followed by the release in `commitRecorderStop` (recordingController.ts). */
  function CommitStop(latest: Meta, lost: bool, revoked: bool, replaced: bool, now: int): Meta {
    var declared :=
      if latest.recorderState == RecorderLostState then
        if revoked then PersistInterrupted(latest, now)
        else if replaced then PersistReplaced(latest, now)
        else latest
      else if lost then PersistRecorderLost(latest, now)
      else if latest.finalizePending && latest.persistedAt.Some? then latest
      else PersistStop(latest, now);
    ReleaseRecorderFlush(declared, now)
  }
}

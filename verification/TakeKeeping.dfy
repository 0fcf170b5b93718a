/**
 * No slice is lost, and every answer of the server is true, in every run of the take protocol, including
 * runs in which MediaRecorder.start() throws.
 */
module TakeKeeping {
  import opened Common
  import opened RecordingIntegrity
  import opened RecordingFiles
  import opened UploadQueue
  import opened TakeProtocol
  import opened TakeStops
  import RowLifecycle

  // ------------------------------------------------------------ slices

  ghost predicate Stopped(w: World) {
    exists p :: p in w.net.finalizes && !p.lost
  }

  /** The recorder ended the take itself, and the server has held every slice of it. */
  ghost predicate AllDelivered(w: World) {
    Stopped(w) && Below(|w.recorded|) <= w.ever
  }

  ghost predicate TombstonedTake(take: Take) {
    take.row.Some? && Tombstoned(take.row.value.state)
  }

  ghost predicate BrowserCopies(w: World) {
    && (forall k :: k in w.browser.chunks ==> k < |w.recorded| && w.browser.chunks[k].data == w.recorded[k])
    && (forall k, d :: (k, d) in w.net.uploads ==> k < |w.recorded| && d == w.recorded[k])
    && (forall d :: d in w.recorded ==> d != [])
  }

  ghost predicate ServerCopies(w: World) {
    && w.ever <= Below(|w.recorded|)
    && w.server.store.Keys <= w.ever
    && (forall k :: k in w.server.store ==> w.server.store[k] == w.recorded[k])
    && (w.server.row.Some? && w.server.row.value.manifest.Some? ==>
          && AllDelivered(w) && w.server.row.value.fin == FinComplete
          && w.server.row.value.manifest.value.Keys == Below(|w.recorded|)
          && forall k :: k in w.server.row.value.manifest.value ==>
               w.server.row.value.manifest.value[k] == Sha256(w.recorded[k]))
    && (!TombstonedTake(w.server) ==>
          forall k :: k in w.ever ==> HoldsSlice(w.server, k, w.recorded[k]))
  }

  ghost predicate NothingLost(w: World) {
    forall k: nat :: k < |w.recorded| ==> k in w.browser.chunks || k in w.ever
  }

  ghost predicate Reports(w: World) {
    && w.net.acks <= w.ever
    && (forall st :: st in w.net.statuses ==> st.received <= w.ever)
    && (forall st :: st in w.net.statuses && st.fin == FinComplete ==> AllDelivered(w))
    && (forall a :: a in w.net.answers && a.fin == FinComplete ==> AllDelivered(w))
    && (w.browser.meta.Some? && w.browser.meta.value.serverFinalize == FinComplete ==> AllDelivered(w))
  }

  // ------------------------------------------------------------ the server's row

  /** A row's declaration that does not say "lost" is the recorder's own, over the whole take. */
  ghost predicate RowSound(w: World, row: Row) {
    && RowLifecycle.Good(row)
    && (row.finalSeq.Some? && !row.declaredLost ==>
          Stopped(w) && row.finalSeq == Some(|w.recorded| - 1) && row.totalChunks == Some(|w.recorded|))
    && (row.finalSeq.None? ==> !Protected(row) && !row.declaredLost)
    && (row.fin == FinComplete ==> AllDelivered(w) && row.finalSeq.Some? && !row.declaredLost)
  }

  ghost predicate RowTruthful(w: World) {
    && (w.server.row.Some? ==> RowSound(w, w.server.row.value))
    && (forall v :: v in w.verdicts && v.ToComplete? ==>
          AllDelivered(w) && w.server.row.Some? && w.server.row.value.finalSeq.Some?)
    && (forall v :: v in w.verdicts && v.ToIncomplete? ==> v.reason in {GraceExpired, MissingChunks})
  }

  ghost predicate Inv(w: World) {
    Declared(w) && BrowserCopies(w) && ServerCopies(w) && NothingLost(w) && Reports(w) && RowTruthful(w)
  }

  // ------------------------------------------------------------ steps of the browser

  ghost predicate ServerUntouched(w: World, after: World) {
    && after.server == w.server && after.verdicts == w.verdicts && after.ever == w.ever
    && after.recorded == w.recorded
    && after.net == w.net.(uploads := after.net.uploads, finalizes := after.net.finalizes)
    && w.net.finalizes <= after.net.finalizes
  }

  lemma DeliveredStays(w: World, after: World)
    requires after.recorded == w.recorded && w.ever <= after.ever && w.net.finalizes <= after.net.finalizes
    ensures Stopped(w) ==> Stopped(after)
    ensures AllDelivered(w) ==> AllDelivered(after)
  {
  }

  lemma BrowserSideKeeps(w: World, after: World)
    requires Inv(w) && Declared(after) && ServerUntouched(w, after)
    requires BrowserCopies(after) && NothingLost(after)
    requires after.browser.meta.Some? && after.browser.meta.value.serverFinalize == FinComplete ==> AllDelivered(w)
    ensures Inv(after)
  {
    assert Stopped(w) ==> Stopped(after);
    hide Declared, BrowserCopies, NothingLost, Stopped;
  }

  /** While the recorder stores, nothing is delivered yet: no row and no answer can say "complete". */
  lemma StoreSliceKeeps(w: World, data: Bytes, endMs: nat)
    requires Inv(w) && Storing(w.browser.phase) && data != []
    ensures Inv(AfterStoreSlice(w, data, endMs))
  {
    assert !Stopped(w);
    StoreKeeps(w, data, endMs);
    hide Declared, Stopped;
  }

  /** A step that only rewrites the browser's own variables and its row. */
  lemma PageSideKeeps(w: World, after: World)
    requires Inv(w) && Declared(after)
    requires after == w.(browser := after.browser) && after.browser.chunks == w.browser.chunks
    requires after.browser.meta.Some? && after.browser.meta.value.serverFinalize == FinComplete ==>
      AllDelivered(w) || (w.browser.meta.Some? && w.browser.meta.value.serverFinalize == FinComplete)
    ensures Inv(after)
  {
    hide Declared, AllDelivered;
    BrowserSideKeeps(w, after);
  }

  /** A blob is dropped only when the server has held the slice. */
  lemma DropKeeps(w: World, k: nat)
    requires Inv(w) && k in w.ever
    ensures Inv(AfterDrop(w, k))
  {
    RowUpdateKeeps(w, AfterDrop(w, k));
    hide Declared, AllDelivered;
    BrowserSideKeeps(w, AfterDrop(w, k));
  }

  lemma SendKeeps(w: World, k: nat)
    requires Inv(w) && k in w.browser.chunks
    ensures Inv(AfterSend(w, k))
  {
    RowUpdateKeeps(w, AfterSend(w, k));
    hide Declared, AllDelivered;
    BrowserSideKeeps(w, AfterSend(w, k));
  }

  lemma PostedKeeps(w: World, pending: nat, now: int)
    requires Inv(w) && w.browser.meta.Some? && FinalizeDue(w.browser.meta.value, pending, now)
    ensures Inv(AfterPost(w))
  {
    PostKeeps(w, pending, now);
    hide Declared, AllDelivered;
    BrowserSideKeeps(w, AfterPost(w));
  }

  /** The browser forgets a take only after the server held all of it. */
  lemma PurgedKeeps(w: World, now: int)
    requires Inv(w) && w.browser.meta.Some? && ShouldDiscardMeta(w.browser.meta.value, now)
    ensures Inv(AfterPurge(w))
  {
    assert AllDelivered(w);
    TakeStops.PurgeKeeps(w);
    hide Declared, AllDelivered;
    DeliveredMeansNothingLost(w, AfterPurge(w));
    BrowserSideKeeps(w, AfterPurge(w));
  }

  lemma DeliveredMeansNothingLost(w: World, after: World)
    requires AllDelivered(w) && after.ever == w.ever && after.recorded == w.recorded
    ensures NothingLost(after)
  {
  }

  lemma UploadFailsKeeps(w: World, k: nat, data: Bytes, block: Option<UploadBlock>)
    requires Inv(w) && (k, data) in w.net.uploads
    ensures Inv(AfterUploadFails(w, k, data, block))
  {
    UploadFailureKeeps(w, k, data, block);
    hide Declared, AllDelivered;
    BrowserSideKeeps(w, AfterUploadFails(w, k, data, block));
  }

  lemma LoginKeeps(w: World, now: int, remaining: seq<UploadBlock>)
    requires Inv(w)
    ensures Inv(AfterLogin(w, now, remaining))
  {
    TakeStops.LoginKeeps(w, now, remaining);
    hide Declared, AllDelivered;
    BrowserSideKeeps(w, AfterLogin(w, now, remaining));
  }

  lemma StartsKeep(w: World, now: int)
    requires Inv(w) && w.browser.granted && w.browser.meta.None?
    ensures Inv(AfterStart(w, now)) && Inv(AfterStartThrows(w, now))
  {
    StartKeeps(w, now);
    PageSideKeeps(w, AfterStart(w, now));
    PageSideKeeps(w, AfterStartThrows(w, now));
  }

  lemma LostBelieves(m: Meta, now: int)
    ensures PersistRecorderLost(m, now).serverFinalize == FinComplete ==> m.serverFinalize == FinComplete
  {
  }

  lemma AnswerBelieves(m: Meta, fin: FinState, now: int)
    ensures Answered(m, fin, now).serverFinalize == FinComplete ==> m.serverFinalize == FinComplete || fin == FinComplete
  {
  }

  lemma AbandonedKeeps(w: World, meta: Option<Meta>)
    requires Inv(w) && Declared(w.(browser := w.browser.(meta := meta, abandoned := None)))
    requires meta.Some? && meta.value.serverFinalize == FinComplete ==> Latest(w).serverFinalize == FinComplete
    requires meta.Some? ==> w.browser.meta.Some?
    ensures Inv(w.(browser := w.browser.(meta := meta, abandoned := None)))
  {
    hide Declared, AllDelivered;
    PageSideKeeps(w, w.(browser := w.browser.(meta := meta, abandoned := None)));
  }

  lemma RemovedKeeps(w: World, now: int)
    requires Inv(w) && w.browser.abandoned.Some? && w.browser.meta.Some?
    ensures Inv(AfterRemoveUnstarted(w, now))
  {
    assert Declared(w);
    RemoveUnstartedKeeps(w, now);
    LostBelieves(Latest(w), now);
    var left := AfterRemoveUnstarted(w, now).browser.meta;
    hide Declared, Inv, PersistRecorderLost;
    AbandonedKeeps(w, left);
  }

  lemma AbandonedHasRow(w: World)
    requires Inv(w)
    ensures w.browser.abandoned.Some? ==> w.browser.meta.Some?
  {
  }

  lemma StopsKeep(w: World, pagehide: bool)
    requires Inv(w) && w.browser.phase == Running
    ensures Inv(AfterStop(w, pagehide))
  {
    StopKeeps(w, pagehide);
    PageSideKeeps(w, AfterStop(w, pagehide));
  }

  lemma FlaggedKeeps(w: World)
    requires Inv(w)
    ensures Inv(AfterRevoke(w)) && Inv(AfterReplace(w)) && Inv(AfterQueryLock(w))
    ensures w.browser.meta.Some? ==> Inv(AfterReadForReload(w))
  {
    FlagsKeep(w);
    hide Declared, AllDelivered;
    PageSideKeeps(w, AfterRevoke(w));
    PageSideKeeps(w, AfterReplace(w));
    PageSideKeeps(w, AfterQueryLock(w));
    if w.browser.meta.Some? {
      PageSideKeeps(w, AfterReadForReload(w));
    }
  }

  lemma LossKeeps(w: World, now: int)
    requires Inv(w)
    ensures Inv(AfterInterruptWrite(w, now)) && Inv(AfterReplaceWrite(w, now))
  {
    InterruptKeeps(w, now);
    ReplaceKeeps(w, now);
    hide Declared, AllDelivered;
    PageSideKeeps(w, AfterInterruptWrite(w, now));
    PageSideKeeps(w, AfterReplaceWrite(w, now));
  }

  lemma CommitBelieves(w: World, now: int)
    ensures var b := w.browser;
      CommitStop(Latest(w), b.stopAsLost, b.revoked, b.replaced, now).serverFinalize == FinComplete
      ==> Latest(w).serverFinalize == FinComplete
  {
  }

  lemma CommittedKeeps(w: World, now: int)
    requires Inv(w) && w.browser.phase == Draining
    ensures Inv(AfterCommitStop(w, now))
  {
    CommitKeeps(w, now);
    CommitBelieves(w, now);
    hide CommitStop, Declared, AllDelivered;
    PageSideKeeps(w, AfterCommitStop(w, now));
  }

  lemma UnlocksKeep(w: World)
    requires Inv(w)
    ensures w.browser.phase == Committed ==> Inv(AfterDropLock(w))
    ensures Inv(AfterPageGone(w))
  {
    UnlockKeeps(w);
    hide Declared, AllDelivered;
    PageSideKeeps(w, AfterPageGone(w));
    if w.browser.phase == Committed {
      PageSideKeeps(w, AfterDropLock(w));
    }
  }

  /** A reload learns "complete" only from the server. */
  lemma ReloadBelieves(m: Meta, told: Option<ServerStatus>, now: int)
    ensures MergeReload(m, told, now, false).serverFinalize == FinComplete ==>
      m.serverFinalize == FinComplete || (told.Some? && told.value.fin == FinComplete)
  {
  }

  lemma FinishReloadKeeps(w: World, told: Option<ServerStatus>, now: int)
    requires Inv(w) && (told.Some? ==> told.value in w.net.statuses)
    ensures Inv(AfterFinishReload(w, told, now))
  {
    if w.browser.meta.Some? {
      ReloadKeeps(w, told, now);
      ReloadBelieves(w.browser.meta.value, told, now);
      hide MergeReload, Declared, AllDelivered;
      PageSideKeeps(w, AfterFinishReload(w, told, now));
    }
  }

  lemma StatusKeeps(w: World, status: ServerStatus, now: int)
    requires Inv(w) && status in w.net.statuses
    ensures Inv(AfterStatus(w, status, now))
  {
    TakeStops.StatusKeeps(w, status, now);
    hide Declared, AllDelivered;
    PageSideKeeps(w, AfterStatus(w, status, now));
  }

  lemma AnswerKeeps(w: World, answer: Answer, now: int)
    requires Inv(w) && answer in w.net.answers && w.browser.meta.Some?
    ensures Inv(AfterAnswer(w, answer, now))
  {
    TakeStops.AnswerKeeps(w, answer, now);
    AnswerBelieves(w.browser.meta.value, answer.fin, now);
    hide Declared, AllDelivered, Answered;
    PageSideKeeps(w, AfterAnswer(w, answer, now));
  }

  lemma FinalizeFailsKeeps(w: World, block: Option<UploadBlock>, now: int)
    requires Inv(w)
    ensures Inv(AfterFinalizeFails(w, block, now))
  {
    FailureKeeps(w, block, now);
    hide Declared, AllDelivered;
    PageSideKeeps(w, AfterFinalizeFails(w, block, now));
  }

  lemma ClaimKeeps(w: World, id: nat, answered: bool)
    requires Inv(w) && Enabled(w, ClaimTake(id, answered))
    ensures Inv(AfterClaim(w, id, answered))
  {
    if ClaimGranted(w.server, id) {
      GrantedClaimKeeps(w, id, answered);
    } else {
      RefusedClaimKeeps(w, id, answered);
    }
    hide Declared;
  }

  lemma RecorderStepKeeps(w: World, step: Step)
    requires Inv(w) && Enabled(w, step) && RecorderStep(step)
    ensures Inv(Do(w, step))
  {
    hide Inv, AfterClaim, AfterStart, AfterStartThrows, AfterRemoveUnstarted, AfterStoreSlice, AfterStop, AfterRevoke,
      AfterReplace, AfterInterruptWrite, AfterReplaceWrite, AfterCommitStop, AfterDropLock, AfterPageGone;
    match step
    case StoreSlice(data, endMs) => StoreSliceKeeps(w, data, endMs);
    case ClaimTake(id, answered) => ClaimKeeps(w, id, answered);
    case StartRecorder(now) => StartsKeep(w, now);
    case StartThrows(now) => StartsKeep(w, now);
    case RemoveUnstarted(now) =>
      AbandonedHasRow(w);
      RemovedKeeps(w, now);
    case StopRecorder => StopsKeep(w, false);
    case PageHide => StopsKeep(w, true);
    case Revoke => FlaggedKeeps(w);
    case Replace => FlaggedKeeps(w);
    case InterruptWrite(now) => LossKeeps(w, now);
    case ReplaceWrite(now) => LossKeeps(w, now);
    case CommitRecorderStop(now) => CommittedKeeps(w, now);
    case DropLock => UnlocksKeep(w);
    case Reload => UnlocksKeep(w);
  }

  predicate UploadStep(step: Step) {
    step.StatusArrives? || step.ListedDelete? || step.SendUpload? || step.AckArrives? || step.UploadFails?
    || step.UploadLogin?
  }

  lemma DropsAreReported(w: World, k: nat)
    requires Inv(w)
    ensures k in w.net.acks ==> k in w.ever
    ensures forall st :: st in w.net.statuses && k in st.received ==> k in w.ever
  {
  }

  lemma UploadStepKeeps(w: World, step: Step)
    requires Inv(w) && Enabled(w, step) && UploadStep(step)
    ensures Inv(Do(w, step))
  {
    hide Inv, AfterStatus, AfterDrop, AfterSend, AfterUploadFails, AfterLogin;
    match step
    case StatusArrives(status, now) => StatusKeeps(w, status, now);
    case ListedDelete(status, k) =>
      DropsAreReported(w, k);
      DropKeeps(w, k);
    case SendUpload(k) => SendKeeps(w, k);
    case AckArrives(k) =>
      DropsAreReported(w, k);
      DropKeeps(w, k);
    case UploadFails(k, data, block) => UploadFailsKeeps(w, k, data, block);
    case UploadLogin(now, remaining) => LoginKeeps(w, now, remaining);
  }

  lemma FinalizeStepKeeps(w: World, step: Step)
    requires Inv(w) && Enabled(w, step) && QueueStep(step) && !UploadStep(step)
    ensures Inv(Do(w, step))
  {
    hide Inv, AfterFinishReload, AfterPost, AfterAnswer, AfterFinalizeFails, AfterPurge, AfterReadForReload,
      AfterQueryLock, FinalizeDue;
    match step
    case ReadForReload => FlaggedKeeps(w);
    case QueryLock(_) => FlaggedKeeps(w);
    case FinishReload(told, now) => FinishReloadKeeps(w, told, now);
    case PostFinalize(pending, now) => PostedKeeps(w, pending, now);
    case AnswerArrives(answer, now) => AnswerKeeps(w, answer, now);
    case FinalizeFails(block, now) => FinalizeFailsKeeps(w, block, now);
    case Purge(now) => PurgedKeeps(w, now);
  }

  // ------------------------------------------------------------ steps of the server

  /** When a row passes the completeness check, everything was delivered. */
  lemma CheckedMeansDelivered(w: World, row: Row, store: SliceStore)
    requires Stopped(w) && row.finalSeq == Some(|w.recorded| - 1) && row.manifest.None?
    requires row.totalChunks == Some(|w.recorded|)
    requires store.Keys <= w.ever && CompletenessOk(row, store)
    ensures AllDelivered(w)
  {
    CompletenessMeaning(row, store);
  }

  lemma ServerSideKeeps(w: World, after: World)
    requires Inv(w)
    requires after.browser == w.browser && after.recorded == w.recorded && w.ever <= after.ever
    requires after.net.finalizes == w.net.finalizes && after.net.uploads == w.net.uploads
    requires w.server.row.Some? ==>
      after.server.row.Some? && after.server.row.value.takeId == w.server.row.value.takeId
    requires w.server.row.None? && after.server.row.Some? ==> after.server.row.value.takeId.None?
    requires ServerCopies(after) && RowTruthful(after) && Reports(after)
    ensures Inv(after)
  {
    ServerKeeps(w, after);
    hide Declared;
  }

  /** A transaction that moves the row but not its declaration, its manifest or the disk. */
  lemma RowStepKeeps(w: World, row: Row)
    requires Inv(w) && w.server.row.Some? && RowLifecycle.Good(row)
    requires var prior := w.server.row.value;
      && row == prior.(state := row.state, fin := row.fin, incompleteReason := row.incompleteReason,
                     needsOperator := row.needsOperator, missing := row.missing)
      && (Tombstoned(prior.state) ==> Tombstoned(row.state))
      && (prior.manifest.Some? ==> row.fin == FinComplete)
    requires row.fin == FinComplete ==> AllDelivered(w) && row.finalSeq.Some? && !row.declaredLost
    requires row.finalSeq.None? ==> !Protected(row)
    ensures Inv(WithRow(w, row))
  {
    hide Declared;
    ServerSideKeeps(w, WithRow(w, row));
  }

  /** An open row's declaration never says "lost". */
  lemma OpenRowMatches(w: World)
    requires Inv(w) && w.server.row.Some? && w.server.row.value.finalSeq.Some? && !w.server.row.value.declaredLost
    ensures Stopped(w) && w.server.row.value.finalSeq == Some(|w.recorded| - 1)
    ensures w.server.row.value.totalChunks == Some(|w.recorded|)
  {
  }

  lemma SweepReadKeeps(w: World)
    requires Inv(w) && w.server.row.Some?
    ensures Inv(AfterSweepRead(w))
  {
    hide Declared;
    var row := w.server.row.value;
    if SweepDecision(row, w.server.store).ToComplete? {
      OpenRowMatches(w);
      CheckedMeansDelivered(w, row, w.server.store);
    }
    ServerSideKeeps(w, AfterSweepRead(w));
  }

  lemma SweepClaimKeeps(w: World, verdict: SweepVerdict)
    requires Inv(w) && verdict in w.verdicts
    ensures Inv(WithRow(w, AfterSweepClaim(RowOrFresh(w.server), verdict)))
  {
    hide Declared;
    if w.server.row.Some? {
      RowStepKeeps(w, AfterSweepClaim(w.server.row.value, verdict));
    }
  }

  lemma WorkerStepKeeps(w: World, row: Row, state: RecState)
    requires Inv(w) && w.server.row.Some? && state in {Transcoding, Transcoded, Uploaded}
    requires row in {AfterWorkerWrite(w.server.row.value, state, None), AfterTranscodeError(w.server.row.value),
                     AfterLeaseRecovered(w.server.row.value), AfterDeleteJob(w.server.row.value),
                     AfterDeleteRoute(w.server.row.value)}
    ensures Inv(WithRow(w, row))
  {
    hide Declared;
    RowStepKeeps(w, row);
  }

  /** The manifest lists the digests of every slice, when all are on disk. */
  lemma ManifestKeeps(w: World, row: Row)
    requires Inv(w) && AllDelivered(w) && w.server.row.Some? && w.server.store.Keys == Below(|w.recorded|)
    requires row == w.server.row.value.(state := Transcoded, manifest := Some(DigestsOf(w.server.store)))
    requires row.fin == FinComplete && RowLifecycle.Good(row) && !Tombstoned(w.server.row.value.state)
    ensures Inv(WithRow(w, row))
  {
    assert DigestsOf(w.server.store).Keys == w.server.store.Keys;
    DeliveredStays(w, WithRow(w, row));
    hide Declared, Stopped;
    ServerSideKeeps(w, WithRow(w, row));
  }

  lemma WriteManifestKeeps(w: World)
    requires Inv(w) && Enabled(w, WriteManifest)
    ensures Inv(AfterWriteManifest(w))
  {
    OpenRowMatches(w);
    assert AllDelivered(w);
    ManifestKeeps(w, AfterWorkerWrite(w.server.row.value, Transcoded, Some(DigestsOf(w.server.store))));
  }

  lemma RemoveSliceKeeps(w: World, k: nat)
    requires Inv(w) && w.server.row.Some? && w.server.row.value.manifest.Some?
    ensures Inv(AfterRemoveSlice(w, k))
  {
    hide Declared;
    ServerSideKeeps(w, AfterRemoveSlice(w, k));
  }

  lemma DeleteFilesKeeps(w: World)
    requires Inv(w) && TombstonedTake(w.server)
    ensures Inv(w.(server := w.server.(store := map[])))
  {
    hide Declared;
    ServerSideKeeps(w, w.(server := w.server.(store := map[])));
  }

  lemma ServeStatusKeeps(w: World)
    requires Inv(w)
    ensures Inv(AfterServeStatus(w))
  {
    hide Declared;
    ServerSideKeeps(w, AfterServeStatus(w));
  }

  lemma NewRowKeeps(w: World, row: Row)
    requires Inv(w) && w.server.row.None? && row in {FreshRow.(state := Finalizing), FreshRow.(state := Deleting)}
    ensures Inv(w.(server := w.server.(row := Some(row))))
  {
    hide Declared;
    ServerSideKeeps(w, w.(server := w.server.(row := Some(row))));
  }

  lemma EndSessionKeeps(w: World)
    requires Inv(w)
    ensures Inv(w.(server := AfterEndRoute(w.server)))
  {
    hide Declared;
    if w.server.row.Some? {
      RowStepKeeps(w, AfterSessionEnd(w.server.row.value));
    } else {
      NewRowKeeps(w, FreshRow.(state := Finalizing));
    }
  }

  lemma DeleteRequestKeeps(w: World)
    requires Inv(w)
    ensures Inv(AfterDeleteRequest(w))
  {
    hide Declared;
    if w.server.row.Some? {
      WorkerStepKeeps(w, AfterDeleteRoute(w.server.row.value), Uploaded);
    } else {
      NewRowKeeps(w, FreshRow.(state := Deleting));
    }
  }

  lemma RefusedFinalizeKeeps(w: World, p: Payload)
    requires Inv(w) && FinalizeReply(w.server, p) != Accepted
    ensures Inv(AfterDeliverFinalize(w, p))
  {
    var after := AfterDeliverFinalize(w, p);
    DeliveredStays(w, after);
    hide Declared, FinalizeDecision, AfterAccepted, AllDelivered, Stopped;
    ServerSideKeeps(w, after);
  }

  /** A finalize that replaces the row's declaration leaves the disk and the manifest alone. */
  lemma DeclaredRowKeeps(w: World, row: Row, queued: bool, answers: set<Answer>)
    requires Inv(w) && w.server.row.Some? && RowSound(w, row) && !Tombstoned(w.server.row.value.state)
    requires row.takeId == w.server.row.value.takeId && row.manifest == w.server.row.value.manifest
    requires row.manifest.Some? ==> row.fin == FinComplete
    requires row.finalSeq.Some?
    requires forall a :: a in answers ==> a in w.net.answers || a.fin == row.fin
    ensures Inv(w.(server := Take(Some(row), w.server.store, queued), net := w.net.(answers := answers)))
  {
    var after := w.(server := Take(Some(row), w.server.store, queued), net := w.net.(answers := answers));
    DeliveredStays(w, after);
    hide Declared, AllDelivered, Stopped, RowLifecycle.Good, Protected;
    ServerSideKeeps(w, after);
  }

  lemma AcceptedFinalizeKeeps(w: World, p: Payload)
    requires Inv(w) && p in w.net.finalizes && w.server.row.Some? && FinalizeReply(w.server, p) == Accepted
    ensures Inv(AfterDeliverFinalize(w, p))
  {
    AcceptedRow(w, p);
    var (row, enqueue) := AfterAccepted(w.server.row.value, w.server.store, p);
    hide Inv, AfterAccepted, FinalizeDecision, RowSound;
    DeclaredRowKeeps(w, row, w.server.transcodeQueued || enqueue, w.net.answers + {Answer(p, row.fin)});
  }

  lemma DeliverFinalizeKeeps(w: World, p: Payload)
    requires Inv(w) && p in w.net.finalizes
    ensures Inv(AfterDeliverFinalize(w, p))
  {
    assert w.server.row.Some?;
    if FinalizeReply(w.server, p) == Accepted {
      AcceptedFinalizeKeeps(w, p);
    } else {
      RefusedFinalizeKeeps(w, p);
    }
  }

  lemma AcceptedRow(w: World, p: Payload)
    requires Inv(w) && p in w.net.finalizes && w.server.row.Some?
    requires FinalizeDecision(w.server.row.value, w.server.store, p) == Accepted
    ensures var row := AfterAccepted(w.server.row.value, w.server.store, p).0;
      && RowSound(w, row) && !Tombstoned(w.server.row.value.state) && row.finalSeq.Some?
      && row.takeId == w.server.row.value.takeId && row.manifest == w.server.row.value.manifest
      && (row.manifest.Some? ==> row.fin == FinComplete)
  {
    var prior := w.server.row.value;
    assert RowLifecycle.ValidPayload(p);
    RowLifecycle.DeclarationKeeps(prior, w.server.store, p);
    AcceptedIsChecked(prior, w.server.store, p);
    if !p.lost {
      assert Stopped(w);
      var declared := ApplyPayload(prior, p, false);
      if prior.manifest.None? && CompletenessOk(declared, w.server.store) {
        CheckedMeansDelivered(w, declared, w.server.store);
      }
    }
    hide AfterAccepted, FinalizeDecision, CompletenessOk;
  }

  /** A declaration makes a row complete only through the completeness check, and never changes who claimed it. */
  lemma AcceptedIsChecked(prior: Row, store: SliceStore, p: Payload)
    requires RowLifecycle.Good(prior) && RowLifecycle.ValidPayload(p)
    requires prior.finalSeq.None? ==> !Protected(prior) && !prior.declaredLost
    requires prior.manifest.Some? ==> prior.fin == FinComplete
    requires prior.fin == FinComplete ==> prior.finalSeq.Some? && !prior.declaredLost
    requires !Tombstoned(prior.state) && FinalizeDecision(prior, store, p) == Accepted
    ensures var row := AfterAccepted(prior, store, p).0;
      && row.takeId == prior.takeId && row.manifest == prior.manifest && row.finalSeq.Some?
      && (!row.declaredLost ==>
            || (!p.lost && row.finalSeq == Some(p.finalSeq) && row.totalChunks == Some(p.totalChunks))
            || (prior.finalSeq.Some? && !prior.declaredLost
                && row.finalSeq == prior.finalSeq && row.totalChunks == prior.totalChunks))
      && (prior.fin == FinComplete ==> row.fin == FinComplete && !row.declaredLost)
      && (prior.fin != FinComplete && row.fin == FinComplete ==>
            prior.manifest.None? && !p.lost && !row.declaredLost
            && CompletenessOk(ApplyPayload(prior, p, false), store))
  {
  }

  lemma RefreshedRow(w: World, row: Row, store: SliceStore, ever: set<nat>)
    requires Inv(w) && w.server.row.Some? && row == w.server.row.value && row.manifest.None?
    requires store.Keys <= ever
    ensures var after := AfterRefresh(row, store).0;
      && RowLifecycle.Good(after)
      && after == row.(state := after.state, fin := after.fin, incompleteReason := after.incompleteReason,
                       needsOperator := after.needsOperator, missing := after.missing)
      && Tombstoned(after.state) == Tombstoned(row.state)
      && (after.fin == FinComplete ==>
            Stopped(w) && Below(|w.recorded|) <= ever + w.ever && after.finalSeq.Some? && !after.declaredLost)
      && (after.finalSeq.None? ==> after == row)
  {
    RowLifecycle.SliceKeeps(row, store);
    if row.finalSeq.Some? && !row.declaredLost {
      OpenRowMatches(w);
      var synced := SyncMissing(row, store);
      if CompletenessOk(synced, store) {
        CompletenessMeaning(synced, store);
      }
    }
    hide Declared, CompletenessOk;
  }

  function Stored(w: World, k: nat, data: Bytes): SliceStore {
    if k in w.server.store then w.server.store else w.server.store[k := data]
  }

  /** The world after slice k landed and the row became `row`. */
  function Landed(w: World, k: nat, data: Bytes, row: Row, queued: bool): World {
    w.(server := Take(Some(row), Stored(w, k, data), queued),
       net := w.net.(acks := w.net.acks + {k}), ever := w.ever + {k})
  }

  ghost predicate LandedFrom(w: World, k: nat, data: Bytes, row: Row) {
    && (k, data) in w.net.uploads && w.server.row.Some? && w.server.row.value.manifest.None?
    && !TombstonedTake(w.server)
    && (row == w.server.row.value || row == AfterRefresh(w.server.row.value, Stored(w, k, data)).0)
  }

  lemma LandedCopies(w: World, k: nat, data: Bytes, row: Row, queued: bool)
    requires Inv(w) && LandedFrom(w, k, data, row) && row.manifest.None?
    ensures ServerCopies(Landed(w, k, data, row, queued))
  {
    hide Declared, Reports, RowTruthful, AfterRefresh;
  }

  lemma LandedReports(w: World, k: nat, data: Bytes, row: Row, queued: bool)
    requires Inv(w)
    ensures Reports(Landed(w, k, data, row, queued))
  {
    hide Declared, RowTruthful, ServerCopies;
  }

  lemma LandedTruthful(w: World, k: nat, data: Bytes, row: Row, queued: bool)
    requires Inv(w) && LandedFrom(w, k, data, row)
    ensures RowTruthful(Landed(w, k, data, row, queued))
    ensures row.manifest.None? && row.takeId == w.server.row.value.takeId
  {
    hide AfterRefresh, Declared, Reports, BrowserCopies, NothingLost;
    RefreshedRow(w, w.server.row.value, Stored(w, k, data), w.ever + {k});
    assert (w.ever + {k}) + w.ever == w.ever + {k};
  }

  lemma LandedKeeps(w: World, k: nat, data: Bytes, row: Row, queued: bool)
    requires Inv(w) && LandedFrom(w, k, data, row)
    ensures Inv(Landed(w, k, data, row, queued))
  {
    LandedTruthful(w, k, data, row, queued);
    LandedCopies(w, k, data, row, queued);
    LandedReports(w, k, data, row, queued);
    hide Declared, RowTruthful, ServerCopies, Reports, AfterRefresh, BrowserCopies, NothingLost;
    ServerSideKeeps(w, Landed(w, k, data, row, queued));
  }

  lemma LandingShape(w: World, k: nat, data: Bytes, db: DbOutcome)
    requires w.server.row.Some? && w.server.row.value.manifest.None?
    requires Acked(UploadDecision(w.server, k, data, Some(Sha256(data))))
    requires (k, data) in w.net.uploads
    ensures var take := AfterDeliverUpload(w, k, data, db).server;
      && take.row.Some? && LandedFrom(w, k, data, take.row.value)
      && AfterDeliverUpload(w, k, data, db) == Landed(w, k, data, take.row.value, take.transcodeQueued)
  {
  }

  lemma BookkeptUploadKeeps(w: World, k: nat, data: Bytes, db: DbOutcome)
    requires Inv(w) && (k, data) in w.net.uploads && w.server.row.Some? && w.server.row.value.manifest.None?
    requires Acked(UploadDecision(w.server, k, data, Some(Sha256(data))))
    ensures Inv(AfterDeliverUpload(w, k, data, db))
  {
    hide Inv;
    LandingShape(w, k, data, db);
    var take := AfterDeliverUpload(w, k, data, db).server;
    LandedKeeps(w, k, data, take.row.value, take.transcodeQueued);
  }

  lemma DeliverUploadKeeps(w: World, k: nat, data: Bytes, db: DbOutcome)
    requires Inv(w) && (k, data) in w.net.uploads
    ensures Inv(AfterDeliverUpload(w, k, data, db))
  {
    assert k < |w.recorded| && data == w.recorded[k];
    assert w.server.row.Some?;
    hide Declared;
    if !Acked(UploadDecision(w.server, k, data, Some(Sha256(data)))) {
      ServerSideKeeps(w, AfterDeliverUpload(w, k, data, db));
    } else if w.server.row.value.manifest.Some? {
      assert k in Below(|w.recorded|);
      ServerSideKeeps(w, AfterDeliverUpload(w, k, data, db));
    } else {
      BookkeptUploadKeeps(w, k, data, db);
    }
  }

  lemma RowWorkKeeps(w: World, step: Step)
    requires Inv(w) && Enabled(w, step)
    requires step.WorkerWrite? || step.TranscodeFails? || step.LeaseRecovered? || step.DeleteDone?
    ensures Inv(Do(w, step))
  {
    if w.server.row.Some? {
      var state := if step.WorkerWrite? then step.state else Uploaded;
      WorkerStepKeeps(w, Do(w, step).server.row.value, state);
    }
  }

  predicate RequestStep(step: Step) {
    step.DeliverUpload? || step.DeliverFinalize? || step.ServeStatus? || step.EndSession? || step.DeleteRoute?
  }

  lemma RequestStepKeeps(w: World, step: Step)
    requires Inv(w) && Enabled(w, step) && RequestStep(step)
    ensures Inv(Do(w, step))
  {
    hide Inv, AfterDeliverUpload, AfterDeliverFinalize, AfterServeStatus, AfterDeleteRequest, AfterEndRoute;
    match step
    case DeliverUpload(k, data, db) => DeliverUploadKeeps(w, k, data, db);
    case DeliverFinalize(p) => DeliverFinalizeKeeps(w, p);
    case ServeStatus => ServeStatusKeeps(w);
    case EndSession => EndSessionKeeps(w);
    case DeleteRoute => DeleteRequestKeeps(w);
  }

  predicate SweepStep(step: Step) {
    step.SweepRead? || step.SweepClaim? || step.WriteManifest? || step.RemoveSlice? || step.DeleteFiles?
  }

  lemma SweepStepKeeps(w: World, step: Step)
    requires Inv(w) && Enabled(w, step) && SweepStep(step)
    ensures Inv(Do(w, step))
  {
    hide Inv, AfterSweepRead, AfterWriteManifest, AfterRemoveSlice, AfterSweepClaim;
    match step
    case SweepRead => SweepReadKeeps(w);
    case SweepClaim(v) => SweepClaimKeeps(w, v);
    case WriteManifest => WriteManifestKeeps(w);
    case RemoveSlice(k) => RemoveSliceKeeps(w, k);
    case DeleteFiles => DeleteFilesKeeps(w);
  }

  // ------------------------------------------------------------ every run

  lemma StepKeeps(w: World, step: Step)
    requires Inv(w) && Enabled(w, step)
    ensures Inv(Do(w, step))
  {
    hide Inv, Enabled, Do;
    if RecorderStep(step) {
      RecorderStepKeeps(w, step);
    } else if UploadStep(step) {
      UploadStepKeeps(w, step);
    } else if QueueStep(step) {
      FinalizeStepKeeps(w, step);
    } else if RequestStep(step) {
      RequestStepKeeps(w, step);
    } else if SweepStep(step) {
      SweepStepKeeps(w, step);
    } else {
      RowWorkKeeps(w, step);
    }
  }

  lemma {:induction false} EveryRunKeeps(w: World, steps: seq<Step>)
    requires Inv(w) && PossibleRun(w, steps)
    ensures Inv(AfterRun(w, steps))
    decreases |steps|
  {
    hide Inv, Enabled, Do;
    if steps != [] {
      StepKeeps(w, steps[0]);
      EveryRunKeeps(Do(w, steps[0]), steps[1..]);
    }
  }

  lemma Reachable(steps: seq<Step>)
    requires PossibleRun(Start, steps)
    ensures Inv(AfterRun(Start, steps))
  {
    EveryRunKeeps(Start, steps);
  }

  /**
   * No slice is lost: under any loss, repeat, delay, retry, reload and failed start, every slice the
   * recorder stored is still in the browser's database or the server holds it byte for byte, until a
   * delete.
   */
  lemma NoSliceLost(steps: seq<Step>, k: nat)
    requires PossibleRun(Start, steps)
    ensures var w := AfterRun(Start, steps);
      k < |w.recorded| && !TombstonedTake(w.server) ==>
        || (k in w.browser.chunks && w.browser.chunks[k].data == w.recorded[k])
        || HoldsSlice(w.server, k, w.recorded[k])
    ensures var w := AfterRun(Start, steps);
      w.browser.meta.Some? ==> w.browser.meta.value.nextSequence == |w.recorded|
  {
    Reachable(steps);
  }

  /** The banner says "safe" only when the server has held every slice there is and no more can follow. */
  lemma SafeBannerIsTrue(steps: seq<Step>, pending: nat)
    requires PossibleRun(Start, steps)
    requires CloseBannerOf(AfterRun(Start, steps).browser.meta, pending) == Safe
    ensures var w := AfterRun(Start, steps);
      && Below(w.browser.meta.value.nextSequence) <= w.ever
      && w.browser.meta.value.nextSequence == |w.recorded|
      && !Storing(w.browser.phase) && !w.browser.granted
  {
    Reachable(steps);
    var w := AfterRun(Start, steps);
    assert w.browser.meta.value.serverFinalize == FinComplete;
    assert Stopped(w);
  }
}

/** What every step of the take protocol keeps, and what follows for every run. */
module TakeSafety {
  import opened Common
  import opened RecordingIntegrity
  import opened RecordingFiles
  import opened UploadQueue
  import opened TakeProtocol
  import RowLifecycle

  // ------------------------------------------------------------ the browser's declaration

  /** No recorder has run, and no other page will pass its lock check; one that saw a failed start's row may still ask. */
  ghost predicate Unrecorded(w: World) {
    && w.browser.chunks == map[] && w.browser.phase == NoRecorder
    && !w.browser.others.sawRow && !w.browser.others.reloading && !w.browser.interruptPending && !w.browser.replacePending
    && w.net.uploads == {} && w.net.finalizes == {} && w.recorded == []
  }

  /** Nothing of this take exists yet in the browser. */
  ghost predicate NotStarted(w: World) {
    w.browser.meta.None? && Unrecorded(w)
  }

  /** start() threw: its row is still the one it wrote, and its lock is already dropped. */
  ghost predicate Undoing(w: World) {
    && w.server.row.Some? && Unrecorded(w) && !w.browser.lock && !w.browser.granted && w.browser.meta.Some?
    && w.browser.meta.value.recorderState == RecorderRunning
    && w.browser.abandoned == Some(w.browser.meta.value.startedAt)
  }

  /** This page may still start a recorder: its claim is granted, or the server would grant it again. */
  predicate RetryPossible(w: World) {
    w.browser.granted || (w.browser.pendingTake.Some? && ClaimGranted(w.server, w.browser.pendingTake.value))
  }

  /** A page that read the row of a failed start finds the lock free while the take can still be retried. */
  predicate Intrudes(w: World, step: Step) {
    step == QueryLock(true) && RetryPossible(w)
  }

  /** No claim of this page is granted, and none will be. */
  predicate NoRetry(w: World) {
    && w.server.row.Some? && !w.browser.granted
    && Unclaimable(w.server.row.value, w.browser.pendingTake)
  }

  predicate Unclaimable(row: Row, pending: Option<nat>) {
    pending.None? || row.takeId != pending || row.state != Recording || row.fin != NotFinalized
  }

  /** What the stored row says about its own declaration. */
  ghost predicate MetaOk(m: Meta, recorded: seq<Bytes>) {
    && m.nextSequence == |recorded| && m.lastEndMs >= 0
    && (m.confirmed ==> m.serverFinalize == FinComplete)
    && (m.recorderState == RecorderRunning ==>
          m.payload.None? && !m.flushPending && !m.finalizePending && m.persistedAt.None?)
    && (m.recorderState == RecorderStopped ==> m.payload == Some(FullPayload(m, false)) && !m.flushPending)
    && (m.recorderState == RecorderLostState ==>
          m.payload.Some? && (m.flushPending || ServerSettled(m) || m.payload == Some(FullPayload(m, true)))
          && m.finalSequence == Some(m.payload.value.finalSeq))
  }

  ghost predicate PayloadOf(m: Meta, p: Payload) {
    p == FullPayload(m, m.recorderState == RecorderLostState)
  }

  ghost predicate Declaration(w: World) {
    var b := w.browser;
    && (w.server.row.None? ==> NotStarted(w) && !b.others.sawFailed)
    && (b.pendingTake.Some? && w.server.row.Some? && w.server.row.value.takeId == b.pendingTake ==>
          NotStarted(w) || Undoing(w))
    && (b.granted ==> b.pendingTake.Some? && w.server.row.Some? && w.server.row.value.takeId == b.pendingTake)
    && (b.abandoned.Some? ==> Undoing(w))
    && (b.meta.Some? ==> MetaOk(b.meta.value, w.recorded))
    && (Storing(b.phase) ==>
          && b.meta.Some? && b.lock && !b.others.reloading && w.net.finalizes == {}
          && (b.meta.value.recorderState == RecorderRunning
              || (b.meta.value.recorderState == RecorderLostState && b.meta.value.flushPending)))
    && (b.phase == Committed ==> b.meta.Some? ==> b.meta.value.recorderState != RecorderRunning)
    && (b.meta.Some? && b.meta.value.recorderState == RecorderRunning && !Storing(b.phase) ==>
          !b.interruptPending && !b.replacePending)
    && (w.net.finalizes != {} ==> !Storing(b.phase))
    && (forall p, q :: p in w.net.finalizes && q in w.net.finalizes ==> p == q)
    && (forall p :: p in w.net.finalizes ==>
          && p.finalSeq == |w.recorded| - 1 && RowLifecycle.ValidPayload(p)
          && (b.meta.Some? ==> b.meta.value.recorderState != RecorderRunning && PayloadOf(b.meta.value, p)))
  }

  lemma CommitKeepsMeta(m: Meta, recorded: seq<Bytes>, lost: bool, revoked: bool, replaced: bool, now: int)
    requires MetaOk(m, recorded)
    requires m.recorderState == RecorderRunning || (m.recorderState == RecorderLostState && m.flushPending)
    ensures var after := CommitStop(m, lost, revoked, replaced, now);
      && MetaOk(after, recorded) && after.recorderState != RecorderRunning && !after.flushPending
      && (ServerSettled(m) || after.payload == Some(FullPayload(m, after.recorderState == RecorderLostState)))
  {
  }

  lemma StatusKeepsMeta(m: Meta, recorded: seq<Bytes>, status: ServerStatus, now: int)
    requires MetaOk(m, recorded)
    ensures var after := ApplyServerStatus(m, status, now);
      && MetaOk(after, recorded) && after.recorderState == m.recorderState && after.lastEndMs == m.lastEndMs
      && after.startedAt == m.startedAt
      && after.flushPending == m.flushPending && (ServerSettled(m) ==> ServerSettled(after))
  {
  }

  lemma ReloadKeepsMeta(m: Meta, recorded: seq<Bytes>, told: Option<ServerStatus>, now: int)
    requires MetaOk(m, recorded)
    ensures var after := MergeReload(m, told, now, false);
      && MetaOk(after, recorded) && after.lastEndMs == m.lastEndMs
      && (m.recorderState != RecorderRunning ==> after.recorderState == m.recorderState)
  {
    if told.Some? {
      StatusKeepsMeta(m, recorded, told.value, now);
    }
  }

  // The recorder's own steps.

  lemma StoreKeepsDeclaration(w: World, data: Bytes, endMs: nat)
    requires Declaration(w) && Storing(w.browser.phase)
    ensures Declaration(AfterStoreSlice(w, data, endMs))
  {
  }

  lemma StopKeepsDeclaration(w: World, pagehide: bool)
    requires Declaration(w) && w.browser.phase == Running
    ensures Declaration(AfterStop(w, pagehide))
  {
  }

  lemma CommitKeepsDeclaration(w: World, now: int)
    requires Declaration(w) && w.browser.phase == Draining
    ensures Declaration(AfterCommitStop(w, now))
  {
    var b := w.browser;
    CommitKeepsMeta(b.meta.value, w.recorded, b.stopAsLost, b.revoked, b.replaced, now);
  }

  lemma UnlockKeepsDeclaration(w: World)
    requires Declaration(w)
    ensures w.browser.phase == Committed ==> Declaration(AfterDropLock(w))
    ensures Declaration(AfterPageGone(w))
  {
  }

  lemma LossKeepsMeta(m: Meta, declared: Meta, recorded: seq<Bytes>, now: int)
    requires MetaOk(m, recorded)
    requires declared in {PersistInterrupted(m, now), PersistReplaced(m, now)}
    ensures SameTake(m, HoldForRecorderFlush(declared), recorded)
    ensures m.recorderState == RecorderRunning ==>
      var held := HoldForRecorderFlush(declared);
      held.recorderState == RecorderRunning || (held.recorderState == RecorderLostState && held.flushPending)
  {
  }

  /** The later row continues the earlier one: still well formed, and a declared end is not taken back. */
  ghost predicate SameTake(before: Meta, after: Meta, recorded: seq<Bytes>) {
    && MetaOk(after, recorded) && after.lastEndMs == before.lastEndMs && after.startedAt == before.startedAt
    && (before.recorderState != RecorderRunning ==> after.recorderState == before.recorderState)
    && (before.flushPending ==> after.flushPending)
  }

  lemma FlagsKeepDeclaration(w: World)
    requires Declaration(w)
    ensures Declaration(AfterRevoke(w)) && Declaration(AfterReplace(w))
  {
  }

  lemma InterruptKeepsDeclaration(w: World, now: int)
    requires Declaration(w) && w.browser.interruptPending
    ensures Declaration(AfterInterruptWrite(w, now))
  {
    if w.browser.meta.Some? {
      var m := w.browser.meta.value;
      LossKeepsMeta(m, PersistInterrupted(m, now), w.recorded, now);
    }
  }

  lemma ReplacementKeepsDeclaration(w: World, now: int)
    requires Declaration(w) && w.browser.replacePending
    ensures Declaration(AfterReplaceWrite(w, now))
  {
    if w.browser.meta.Some? {
      var m := w.browser.meta.value;
      LossKeepsMeta(m, PersistReplaced(m, now), w.recorded, now);
      hide PersistReplaced;
    }
  }

  lemma GrantedClaimKeepsDeclaration(w: World, id: nat, answered: bool)
    requires Declaration(w) && ClaimGranted(w.server, id) && w.browser.meta.None?
    requires w.server.row.Some? ==> w.browser.pendingTake == Some(id)
    ensures Declaration(AfterClaim(w, id, answered))
  {
    if w.server.row.Some? {
      assert NotStarted(w);
    }
  }

  lemma RefusedClaimKeepsDeclaration(w: World, id: nat, answered: bool)
    requires Declaration(w) && !ClaimGranted(w.server, id)
    requires w.browser.pendingTake == Some(id) || w.server.row.value.takeId != Some(id)
    ensures Declaration(AfterClaim(w, id, answered))
  {
  }

  lemma StartKeepsDeclaration(w: World, now: int)
    requires Declaration(w) && w.browser.granted && w.browser.meta.None? && !w.browser.lock
    ensures Declaration(AfterStart(w, now)) && Declaration(AfterStartThrows(w, now))
  {
  }

  lemma RemovalKeepsDeclaration(w: World, now: int)
    requires Declaration(w) && w.browser.abandoned.Some?
    ensures Declaration(AfterRemoveUnstarted(w, now))
  {
  }

  // The queue's steps, by any page.

  /** A step that only updates the stored row and the stored slices. */
  lemma RowUpdateKeepsDeclaration(w: World, after: World)
    requires Declaration(w)
    requires after.server == w.server && after.recorded == w.recorded && after.net.finalizes == w.net.finalizes
    requires Unrecorded(w) ==> Unrecorded(after)
    requires after.browser == w.browser.(meta := after.browser.meta, chunks := after.browser.chunks)
    requires w.browser.meta.None? ==> after.browser.meta.None?
    requires w.browser.meta.Some? && after.browser.meta.Some? ==>
      && SameTake(w.browser.meta.value, after.browser.meta.value, w.recorded)
      && after.browser.meta.value.recorderState == w.browser.meta.value.recorderState
    requires after.browser.meta.None? && w.browser.meta.Some? ==> !Storing(w.browser.phase) && w.browser.abandoned.None?
    ensures Declaration(after)
  {
  }

  lemma StatusKeepsDeclaration(w: World, status: ServerStatus, now: int)
    requires Declaration(w)
    ensures Declaration(AfterStatus(w, status, now))
  {
    if w.browser.meta.Some? {
      StatusKeepsMeta(w.browser.meta.value, w.recorded, status, now);
    }
    RowUpdateKeepsDeclaration(w, AfterStatus(w, status, now));
  }

  lemma AttemptKeepsMeta(m: Meta, recorded: seq<Bytes>, answer: Answer, now: int)
    requires MetaOk(m, recorded)
    ensures var noted := NoteFinalizeAttempt(m, now, answer.fin in {NotFinalized, Pending});
      var after := ApplyServerStatus(noted, ServerStatus(answer.fin, {}), now);
      SameTake(m, after, recorded) && after.recorderState == m.recorderState
  {
    StatusKeepsMeta(NoteFinalizeAttempt(m, now, answer.fin in {NotFinalized, Pending}), recorded,
                    ServerStatus(answer.fin, {}), now);
  }

  lemma AnswerKeepsDeclaration(w: World, answer: Answer, now: int)
    requires Declaration(w)
    ensures Declaration(AfterAnswer(w, answer, now))
  {
    if w.browser.meta.Some? {
      AttemptKeepsMeta(w.browser.meta.value, w.recorded, answer, now);
    }
    RowUpdateKeepsDeclaration(w, AfterAnswer(w, answer, now));
  }

  lemma PurgeKeepsDeclaration(w: World)
    requires Declaration(w) && !Storing(w.browser.phase) && w.browser.abandoned.None?
    ensures Declaration(AfterPurge(w))
  {
    RowUpdateKeepsDeclaration(w, AfterPurge(w));
  }

  lemma ReadKeepsDeclaration(w: World)
    requires Declaration(w) && w.browser.meta.Some?
    ensures Declaration(AfterReadForReload(w))
  {
  }

  /** A page that finds the lock free, unless the take has not started and cannot be retried either. */
  lemma QueryKeepsDeclaration(w: World, failed: bool)
    requires Declaration(w) && Enabled(w, QueryLock(failed))
    requires failed ==> !NotStarted(w) && !Undoing(w)
    ensures Declaration(AfterQueryLock(w))
  {
  }

  lemma FinishReloadKeepsDeclaration(w: World, told: Option<ServerStatus>, now: int)
    requires Declaration(w) && w.browser.others.reloading
    ensures Declaration(AfterFinishReload(w, told, now))
  {
    hide MergeReload;
    if w.browser.meta.Some? {
      ReloadKeepsMeta(w.browser.meta.value, w.recorded, told, now);
    }
  }

  lemma DropKeepsDeclaration(w: World, k: nat)
    requires Declaration(w)
    ensures Declaration(AfterDrop(w, k))
  {
    RowUpdateKeepsDeclaration(w, AfterDrop(w, k));
  }

  lemma SendKeepsDeclaration(w: World, k: nat)
    requires Declaration(w) && k in w.browser.chunks
    ensures Declaration(AfterSend(w, k))
  {
    RowUpdateKeepsDeclaration(w, AfterSend(w, k));
  }

  lemma SentMeansRecorded(w: World, k: nat, data: Bytes)
    requires Declaration(w) && (k, data) in w.net.uploads
    ensures !Unrecorded(w)
    ensures w.browser.meta.Some? ==>
      var m := w.browser.meta.value; MetaOk(m, w.recorded) && SameTake(m, m, w.recorded)
  {
  }

  lemma UploadFailsKeepsDeclaration(w: World, k: nat, data: Bytes, block: Option<UploadBlock>)
    requires Declaration(w) && (k, data) in w.net.uploads
    ensures Declaration(AfterUploadFails(w, k, data, block))
  {
    SentMeansRecorded(w, k, data);
    hide Declaration, Unrecorded, SameTake, MetaOk, NotePermanentFailure;
    if w.browser.meta.Some? && block.Some? {
      BlockKeepsMeta(w.browser.meta.value, w.recorded, block.value);
    }
    RowUpdateKeepsDeclaration(w, AfterUploadFails(w, k, data, block));
  }

  lemma FinalizeFailsKeepsDeclaration(w: World, block: Option<UploadBlock>, now: int)
    requires Declaration(w)
    ensures Declaration(AfterFinalizeFails(w, block, now))
  {
    if w.browser.meta.Some? && block.Some? {
      BlockKeepsMeta(w.browser.meta.value, w.recorded, block.value);
    }
    RowUpdateKeepsDeclaration(w, AfterFinalizeFails(w, block, now));
  }

  lemma UnblockedEmpty()
    ensures Unblocked(map[]) == map[]
  {
  }

  lemma LoginKeepsDeclaration(w: World, now: int, remaining: seq<UploadBlock>)
    requires Declaration(w)
    ensures Declaration(AfterLogin(w, now, remaining))
  {
    if w.browser.meta.Some? {
      LoginKeepsMeta(w.browser.meta.value, w.recorded, now, remaining);
    }
    UnblockedEmpty();
    RowUpdateKeepsDeclaration(w, AfterLogin(w, now, remaining));
  }

  /** What goes out is the full declaration, and nothing is stored after it. */
  lemma PostKeepsDeclaration(w: World, pending: nat, now: int)
    requires Declaration(w) && w.browser.meta.Some? && FinalizeDue(w.browser.meta.value, pending, now)
    ensures Declaration(AfterPost(w))
  {
    var m := w.browser.meta.value;
    assert PayloadOf(m, m.payload.value);
  }

  lemma BlockKeepsMeta(m: Meta, recorded: seq<Bytes>, block: UploadBlock)
    requires MetaOk(m, recorded)
    ensures var after := NotePermanentFailure(m, block);
      SameTake(m, after, recorded) && after.recorderState == m.recorderState
  {
  }

  lemma LoginKeepsMeta(m: Meta, recorded: seq<Bytes>, now: int, remaining: seq<UploadBlock>)
    requires MetaOk(m, recorded)
    ensures var after := ClearUnauthorized(m, now, remaining);
      SameTake(m, after, recorded) && after.recorderState == m.recorderState
  {
  }

  /** Server steps leave the browser alone and never change who claimed the take. */
  lemma ServerKeepsDeclaration(w: World, after: World)
    requires Declaration(w)
    requires after.browser == w.browser && after.recorded == w.recorded
    requires after.net.finalizes == w.net.finalizes && after.net.uploads == w.net.uploads
    requires w.server.row.Some? ==>
      after.server.row.Some? && after.server.row.value.takeId == w.server.row.value.takeId
    requires w.server.row.None? && after.server.row.Some? ==> after.server.row.value.takeId.None?
    ensures Declaration(after)
  {
  }
}

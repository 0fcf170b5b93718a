/**
 * What holds of the browser's declaration in every run, MediaRecorder.start() failures included: a
 * declaration that does not say "lost" covers the whole take, and nothing is stored after it.
 */
module TakeStops {
  import opened Common
  import opened RecordingIntegrity
  import opened RecordingFiles
  import opened UploadQueue
  import opened TakeProtocol
  import RowLifecycle

  ghost predicate MetaSound(m: Meta, recorded: seq<Bytes>) {
    && m.nextSequence == |recorded| && m.lastEndMs >= 0
    && (m.confirmed ==> m.serverFinalize == FinComplete)
    && (m.recorderState == RecorderRunning ==>
          m.payload.None? && !m.flushPending && !m.finalizePending && m.persistedAt.None?)
    && (m.recorderState == RecorderStopped ==> m.payload == Some(FullPayload(m, false)) && !m.flushPending)
    && (m.recorderState == RecorderLostState ==>
          m.payload.Some? && m.payload.value.lost && RowLifecycle.ValidPayload(m.payload.value))
  }

  /** No recorder has ever run in this take; at most a start() threw. */
  ghost predicate Untaken(w: World) {
    && w.recorded == [] && w.browser.phase == NoRecorder && w.browser.chunks == map[] && w.net.uploads == {}
    && (w.browser.meta.Some? ==> w.browser.meta.value.recorderState != RecorderStopped)
    && (forall p :: p in w.net.finalizes ==> p.lost)
  }

  ghost predicate Declared(w: World) {
    var b := w.browser;
    && (w.server.row.None? ==> Untaken(w) && b.meta.None? && w.net.finalizes == {})
    && (b.pendingTake.Some? && w.server.row.Some? && w.server.row.value.takeId == b.pendingTake ==> Untaken(w))
    && (b.granted ==> b.pendingTake.Some? && w.server.row.Some? && w.server.row.value.takeId == b.pendingTake)
    && (b.abandoned.Some? ==> Untaken(w) && b.meta.Some?)
    && (b.meta.Some? ==> MetaSound(b.meta.value, w.recorded))
    && (Storing(b.phase) ==> b.meta.Some? && b.meta.value.recorderState != RecorderStopped)
    && (forall p :: p in w.net.finalizes ==>
          RowLifecycle.ValidPayload(p) && (!p.lost ==> p.finalSeq == |w.recorded| - 1 && !Storing(b.phase)))
  }

  // ------------------------------------------------------------ the stored row

  /** Everything but the end of a recorder keeps the row sound, and keeps "stopped" as it was. */
  ghost predicate Follows(before: Meta, after: Meta, recorded: seq<Bytes>) {
    MetaSound(after, recorded) && (after.recorderState == RecorderStopped <==> before.recorderState == RecorderStopped)
  }

  lemma StatusFollows(m: Meta, recorded: seq<Bytes>, status: ServerStatus, now: int)
    requires MetaSound(m, recorded)
    ensures Follows(m, ApplyServerStatus(m, status, now), recorded)
  {
  }

  lemma LossFollows(m: Meta, recorded: seq<Bytes>, now: int)
    requires MetaSound(m, recorded)
    ensures Follows(m, HoldForRecorderFlush(PersistInterrupted(m, now)), recorded)
    ensures Follows(m, HoldForRecorderFlush(PersistReplaced(m, now)), recorded)
    ensures m.recorderState != RecorderStopped ==> Follows(m, PersistRecorderLost(m, now), recorded)
  {
  }

  lemma ReleaseFollows(m: Meta, recorded: seq<Bytes>, now: int)
    requires MetaSound(m, recorded)
    ensures Follows(m, ReleaseRecorderFlush(m, now), recorded)
  {
  }

  lemma ReloadFollows(m: Meta, recorded: seq<Bytes>, told: Option<ServerStatus>, now: int)
    requires MetaSound(m, recorded)
    ensures Follows(m, MergeReload(m, told, now, false), recorded)
  {
    if told.Some? {
      StatusFollows(m, recorded, told.value, now);
    }
    var heard := if told.Some? then ApplyServerStatus(m, told.value, now) else m;
    if PlanReload(Some(heard)) == DeclareLost {
      LossFollows(heard, recorded, now);
      ReleaseFollows(PersistRecorderLost(heard, now), recorded, now);
    } else {
      ReleaseFollows(heard, recorded, now);
    }
  }

  lemma AttemptFollows(m: Meta, recorded: seq<Bytes>, now: int, failed: bool, block: UploadBlock)
    requires MetaSound(m, recorded)
    ensures Follows(m, NoteFinalizeAttempt(m, now, failed), recorded)
    ensures Follows(m, NotePermanentFailure(m, block), recorded)
  {
  }

  lemma LoginFollows(m: Meta, recorded: seq<Bytes>, now: int, remaining: seq<UploadBlock>)
    requires MetaSound(m, recorded)
    ensures Follows(m, ClearUnauthorized(m, now, remaining), recorded)
  {
  }

  lemma CommitSound(m: Meta, recorded: seq<Bytes>, lost: bool, revoked: bool, replaced: bool, now: int)
    requires MetaSound(m, recorded) && m.recorderState != RecorderStopped
    ensures var after := CommitStop(m, lost, revoked, replaced, now);
      MetaSound(after, recorded) && after.recorderState in {RecorderStopped, RecorderLostState}
  {
  }

  // ------------------------------------------------------------ steps

  /** A step of the queue or of a reload: it rewrites the row, and may drop or rewrite slices. */
  lemma RowUpdateKeeps(w: World, after: World)
    requires Declared(w)
    requires after.server == w.server && after.recorded == w.recorded && after.net.finalizes == w.net.finalizes
    requires after.net.uploads == w.net.uploads || w.browser.chunks != map[]
    requires after.browser == w.browser.(meta := after.browser.meta, chunks := after.browser.chunks,
                                         others := after.browser.others,
                                         interruptPending := after.browser.interruptPending,
                                         replacePending := after.browser.replacePending)
    requires w.browser.chunks == map[] && w.net.uploads == {} ==> after.browser.chunks == map[]
    requires w.browser.meta.Some? <==> after.browser.meta.Some?
    requires w.browser.meta.Some? ==> Follows(w.browser.meta.value, after.browser.meta.value, w.recorded)
    ensures Declared(after)
  {
  }

  lemma StatusKeeps(w: World, status: ServerStatus, now: int)
    requires Declared(w)
    ensures Declared(AfterStatus(w, status, now))
  {
    hide MetaSound, ApplyServerStatus, Untaken, Follows;
    if w.browser.meta.Some? {
      StatusFollows(w.browser.meta.value, w.recorded, status, now);
    }
    RowUpdateKeeps(w, AfterStatus(w, status, now));
  }

  lemma ReloadKeeps(w: World, told: Option<ServerStatus>, now: int)
    requires Declared(w)
    ensures Declared(AfterFinishReload(w, told, now))
  {
    hide MetaSound, MergeReload, Untaken, Follows;
    if w.browser.meta.Some? {
      ReloadFollows(w.browser.meta.value, w.recorded, told, now);
    }
    RowUpdateKeeps(w, AfterFinishReload(w, told, now));
  }

  lemma InterruptKeeps(w: World, now: int)
    requires Declared(w)
    ensures Declared(AfterInterruptWrite(w, now))
  {
    hide MetaSound, PersistInterrupted, HoldForRecorderFlush, Untaken, Follows;
    if w.browser.meta.Some? {
      LossFollows(w.browser.meta.value, w.recorded, now);
    }
    RowUpdateKeeps(w, AfterInterruptWrite(w, now));
  }

  lemma ReplaceKeeps(w: World, now: int)
    requires Declared(w)
    ensures Declared(AfterReplaceWrite(w, now))
  {
    hide MetaSound, PersistReplaced, HoldForRecorderFlush, Untaken, Follows;
    if w.browser.meta.Some? {
      LossFollows(w.browser.meta.value, w.recorded, now);
    }
    RowUpdateKeeps(w, AfterReplaceWrite(w, now));
  }

  lemma AnsweredFollows(m: Meta, recorded: seq<Bytes>, fin: FinState, now: int)
    requires MetaSound(m, recorded)
    ensures Follows(m, Answered(m, fin, now), recorded)
  {
    AttemptFollows(m, recorded, now, fin in {NotFinalized, Pending}, BlockChecksum);
    StatusFollows(NoteFinalizeAttempt(m, now, fin in {NotFinalized, Pending}), recorded, ServerStatus(fin, {}), now);
  }

  lemma AnswerKeeps(w: World, answer: Answer, now: int)
    requires Declared(w)
    ensures Declared(AfterAnswer(w, answer, now))
  {
    hide MetaSound, Answered, Untaken, Follows;
    if w.browser.meta.Some? {
      AnsweredFollows(w.browser.meta.value, w.recorded, answer.fin, now);
    }
    RowUpdateKeeps(w, AfterAnswer(w, answer, now));
  }

  lemma FailedFollows(m: Meta, recorded: seq<Bytes>, block: Option<UploadBlock>, now: int)
    requires MetaSound(m, recorded)
    ensures Follows(m, FinalizeFailed(m, block, now), recorded)
  {
    AttemptFollows(m, recorded, now, true, if block.Some? then block.value else BlockChecksum);
  }

  lemma FailureKeeps(w: World, block: Option<UploadBlock>, now: int)
    requires Declared(w)
    ensures Declared(AfterFinalizeFails(w, block, now))
  {
    hide MetaSound, FinalizeFailed, Untaken, Follows;
    if w.browser.meta.Some? {
      FailedFollows(w.browser.meta.value, w.recorded, block, now);
    }
    RowUpdateKeeps(w, AfterFinalizeFails(w, block, now));
  }

  lemma UploadFailureKeeps(w: World, k: nat, data: Bytes, block: Option<UploadBlock>)
    requires Declared(w) && (k, data) in w.net.uploads
    ensures Declared(AfterUploadFails(w, k, data, block))
  {
    if w.browser.meta.Some? && block.Some? {
      AttemptFollows(w.browser.meta.value, w.recorded, 0, true, block.value);
    }
    hide MetaSound, NotePermanentFailure;
    RowUpdateKeeps(w, AfterUploadFails(w, k, data, block));
  }

  lemma LoginKeeps(w: World, now: int, remaining: seq<UploadBlock>)
    requires Declared(w)
    ensures Declared(AfterLogin(w, now, remaining))
  {
    if w.browser.meta.Some? {
      LoginFollows(w.browser.meta.value, w.recorded, now, remaining);
    }
    assert Unblocked(map[]) == map[];
    hide MetaSound, ClearUnauthorized;
    RowUpdateKeeps(w, AfterLogin(w, now, remaining));
  }

  lemma PurgeKeeps(w: World)
    requires Declared(w) && !Storing(w.browser.phase) && w.browser.abandoned.None?
    ensures Declared(AfterPurge(w))
  {
  }

  lemma RemoveUnstartedKeeps(w: World, now: int)
    requires Declared(w) && w.browser.abandoned.Some?
    ensures Declared(AfterRemoveUnstarted(w, now))
  {
    LossFollows(w.browser.meta.value, w.recorded, now);
    var lost := PersistRecorderLost(w.browser.meta.value, now);
    hide PersistRecorderLost, MetaSound;
    AbandonKeeps(w, None);
    AbandonKeeps(w, Some(lost));
  }

  lemma AbandonKeeps(w: World, meta: Option<Meta>)
    requires Declared(w) && w.browser.abandoned.Some?
    requires meta.Some? ==> Follows(w.browser.meta.value, meta.value, w.recorded)
    ensures Declared(w.(browser := w.browser.(meta := meta, abandoned := None)))
  {
    hide MetaSound;
  }

  lemma StoreKeeps(w: World, data: Bytes, endMs: nat)
    requires Declared(w) && Storing(w.browser.phase)
    ensures Declared(AfterStoreSlice(w, data, endMs))
  {
  }

  lemma StopKeeps(w: World, pagehide: bool)
    requires Declared(w) && w.browser.phase == Running
    ensures Declared(AfterStop(w, pagehide))
  {
  }

  lemma CommitKeeps(w: World, now: int)
    requires Declared(w) && w.browser.phase == Draining
    ensures Declared(AfterCommitStop(w, now))
  {
    var b := w.browser;
    CommitSound(b.meta.value, w.recorded, b.stopAsLost, b.revoked, b.replaced, now);
    hide CommitStop, MetaSound, FullPayload;
    assert !Untaken(w);
  }

  lemma UnlockKeeps(w: World)
    requires Declared(w)
    ensures w.browser.phase == Committed ==> Declared(AfterDropLock(w))
    ensures Declared(AfterPageGone(w))
  {
  }

  lemma FlagsKeep(w: World)
    requires Declared(w)
    ensures Declared(AfterRevoke(w)) && Declared(AfterReplace(w)) && Declared(AfterQueryLock(w))
    ensures w.browser.meta.Some? ==> Declared(AfterReadForReload(w))
  {
  }

  lemma GrantedClaimKeeps(w: World, id: nat, answered: bool)
    requires Declared(w) && ClaimGranted(w.server, id)
    requires w.server.row.Some? ==> w.browser.pendingTake == Some(id)
    ensures Declared(AfterClaim(w, id, answered))
  {
    assert Untaken(w);
  }

  lemma RefusedClaimKeeps(w: World, id: nat, answered: bool)
    requires Declared(w) && !ClaimGranted(w.server, id)
    requires w.browser.pendingTake == Some(id) || w.server.row.value.takeId != Some(id)
    ensures Declared(AfterClaim(w, id, answered))
  {
  }

  lemma StartKeeps(w: World, now: int)
    requires Declared(w) && w.browser.granted && w.browser.meta.None?
    ensures Declared(AfterStart(w, now)) && Declared(AfterStartThrows(w, now))
  {
    assert Untaken(w);
  }

  /** A declaration that does not say "lost" is posted only after the recorder stopped, over all slices. */
  lemma PostKeeps(w: World, pending: nat, now: int)
    requires Declared(w) && w.browser.meta.Some? && FinalizeDue(w.browser.meta.value, pending, now)
    ensures Declared(AfterPost(w))
  {
  }

  lemma ServerKeeps(w: World, after: World)
    requires Declared(w)
    requires after.browser == w.browser && after.recorded == w.recorded
    requires after.net.finalizes == w.net.finalizes && after.net.uploads == w.net.uploads
    requires w.server.row.Some? ==>
      after.server.row.Some? && after.server.row.value.takeId == w.server.row.value.takeId
    requires w.server.row.None? && after.server.row.Some? ==> after.server.row.value.takeId.None?
    ensures Declared(after)
  {
  }
}

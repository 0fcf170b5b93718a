/** What every answer of the server is while no page intrudes on a failed start. */
module TakeDelivery {
  import opened Common
  import opened RecordingIntegrity
  import opened RecordingFiles
  import opened UploadQueue
  import opened TakeProtocol
  import opened TakeSafety
  import Keeping = TakeKeeping

  /** What the server holds as declared is what every post says. */
  ghost predicate RowMatches(w: World) {
    w.server.row.Some? && w.server.row.value.finalSeq.Some? ==>
      w.net.finalizes != {} && forall p :: p in w.net.finalizes ==> Matches(w.server.row.value, p)
  }

  ghost predicate Refusals(w: World) {
    w.net.refusals <= {UploadRefused(RecordingDeleted), FinalizeRefused(DeletedConflict)}
  }

  ghost predicate Inv(w: World) {
    Keeping.Inv(w) && Declaration(w) && RowMatches(w) && Refusals(w)
  }

  /** A page that read the row of a failed start finds the lock free before the take has started. */
  ghost predicate Strands(w: World, step: Step) {
    step == QueryLock(true) && (NotStarted(w) || Undoing(w))
  }

  // ------------------------------------------------------------ the declaration

  predicate RunningStep(step: Step) {
    step.ClaimTake? || step.StartRecorder? || step.StartThrows? || step.StoreSlice? || step.StopRecorder?
    || step.PageHide?
  }

  lemma RunningKeepsDeclaration(w: World, step: Step)
    requires Declaration(w) && Enabled(w, step) && RunningStep(step)
    requires step.StoreSlice? ==> Storing(w.browser.phase)
    ensures Declaration(Do(w, step))
  {
    hide Declaration, AfterClaim, AfterStart, AfterStartThrows, AfterStoreSlice, AfterStop;
    match step
    case ClaimTake(id, answered) => ClaimKeepsDeclaration(w, id, answered);
    case StartRecorder(now) => StartKeepsDeclaration(w, now);
    case StartThrows(now) => StartKeepsDeclaration(w, now);
    case StoreSlice(data, endMs) => StoreKeepsDeclaration(w, data, endMs);
    case StopRecorder => StopKeepsDeclaration(w, false);
    case PageHide => StopKeepsDeclaration(w, true);
  }

  lemma EndingKeepsDeclaration(w: World, step: Step)
    requires Declaration(w) && Enabled(w, step) && RecorderStep(step) && !RunningStep(step)
    ensures Declaration(Do(w, step))
  {
    hide Declaration, AfterRevoke, AfterReplace, AfterInterruptWrite, AfterReplaceWrite, AfterCommitStop, AfterDropLock,
      AfterPageGone, AfterRemoveUnstarted;
    match step
    case RemoveUnstarted(now) => RemovalKeepsDeclaration(w, now);
    case Revoke => FlagsKeepDeclaration(w);
    case Replace => FlagsKeepDeclaration(w);
    case InterruptWrite(now) => InterruptKeepsDeclaration(w, now);
    case ReplaceWrite(now) => ReplacementKeepsDeclaration(w, now);
    case CommitRecorderStop(now) => CommitKeepsDeclaration(w, now);
    case DropLock => UnlockKeepsDeclaration(w);
    case Reload => UnlockKeepsDeclaration(w);
  }

  lemma RecorderKeepsDeclaration(w: World, step: Step)
    requires Declaration(w) && Enabled(w, step) && RecorderStep(step)
    requires step.StoreSlice? ==> Storing(w.browser.phase)
    ensures Declaration(Do(w, step))
  {
    hide Declaration, Enabled, Do;
    if RunningStep(step) {
      RunningKeepsDeclaration(w, step);
    } else {
      EndingKeepsDeclaration(w, step);
    }
  }

  lemma ClaimKeepsDeclaration(w: World, id: nat, answered: bool)
    requires Declaration(w) && Enabled(w, ClaimTake(id, answered))
    ensures Declaration(AfterClaim(w, id, answered))
  {
    hide Declaration;
    if ClaimGranted(w.server, id) {
      GrantedClaimKeepsDeclaration(w, id, answered);
    } else {
      RefusedClaimKeepsDeclaration(w, id, answered);
    }
  }

  predicate SliceStep(step: Step) {
    step.ListedDelete? || step.SendUpload? || step.AckArrives? || step.UploadFails? || step.UploadLogin?
  }

  lemma SliceStepKeepsDeclaration(w: World, step: Step)
    requires Declaration(w) && Enabled(w, step) && SliceStep(step)
    ensures Declaration(Do(w, step))
  {
    hide Declaration, AfterDrop, AfterSend, AfterUploadFails, AfterLogin;
    match step
    case ListedDelete(_, k) => DropKeepsDeclaration(w, k);
    case SendUpload(k) => SendKeepsDeclaration(w, k);
    case AckArrives(k) => DropKeepsDeclaration(w, k);
    case UploadFails(k, data, block) => UploadFailsKeepsDeclaration(w, k, data, block);
    case UploadLogin(now, remaining) => LoginKeepsDeclaration(w, now, remaining);
  }

  lemma MetaStepKeepsDeclaration(w: World, step: Step)
    requires Declaration(w) && Enabled(w, step) && QueueStep(step) && !SliceStep(step)
    requires !Strands(w, step) && (step.Purge? ==> !Storing(w.browser.phase) && w.browser.abandoned.None?)
    ensures Declaration(Do(w, step))
  {
    hide Declaration, AfterFinishReload, AfterStatus, AfterPost, AfterAnswer, AfterFinalizeFails, AfterPurge, FinalizeDue,
      AfterReadForReload, AfterQueryLock;
    match step
    case ReadForReload => ReadKeepsDeclaration(w);
    case QueryLock(failed) => QueryKeepsDeclaration(w, failed);
    case FinishReload(told, now) => FinishReloadKeepsDeclaration(w, told, now);
    case StatusArrives(status, now) => StatusKeepsDeclaration(w, status, now);
    case PostFinalize(pending, now) => PostKeepsDeclaration(w, pending, now);
    case AnswerArrives(answer, now) => AnswerKeepsDeclaration(w, answer, now);
    case FinalizeFails(block, now) => FinalizeFailsKeepsDeclaration(w, block, now);
    case Purge(_) => PurgeKeepsDeclaration(w);
  }

  lemma QueueKeepsDeclaration(w: World, step: Step)
    requires Declaration(w) && Enabled(w, step) && QueueStep(step)
    requires !Strands(w, step) && (step.Purge? ==> !Storing(w.browser.phase) && w.browser.abandoned.None?)
    ensures Declaration(Do(w, step))
  {
    hide Declaration, Enabled, Do;
    if SliceStep(step) {
      SliceStepKeepsDeclaration(w, step);
    } else {
      MetaStepKeepsDeclaration(w, step);
    }
  }

  predicate ServerStep(step: Step) {
    !RecorderStep(step) && !QueueStep(step)
  }

  lemma RowMovesKeepTake(row: Row, store: SliceStore, p: Payload)
    ensures AfterRefresh(row, store).0.takeId == row.takeId
    ensures AfterAccepted(row, store, p).0.takeId == row.takeId
  {
  }

  /** A server step changes neither the browser nor what it posted, nor whose take the row is. */
  lemma ServerStepShape(w: World, step: Step)
    requires Enabled(w, step) && ServerStep(step)
    ensures var after := Do(w, step);
      && after.browser == w.browser && after.recorded == w.recorded
      && after.net.finalizes == w.net.finalizes && after.net.uploads == w.net.uploads
      && (w.server.row.Some? ==>
            after.server.row.Some? && after.server.row.value.takeId == w.server.row.value.takeId)
      && (w.server.row.None? && after.server.row.Some? ==> after.server.row.value.takeId.None?)
    ensures !step.DeliverUpload? && !step.DeliverFinalize? ==> Do(w, step).net.refusals == w.net.refusals
  {
    forall row: Row, store: SliceStore, p: Payload
      ensures AfterRefresh(row, store).0.takeId == row.takeId && AfterAccepted(row, store, p).0.takeId == row.takeId
    {
      RowMovesKeepTake(row, store, p);
    }
    hide AfterRefresh, AfterAccepted, Received, UploadDecision, FinalizeDecision;
  }

  /** Only a finalize changes what the row declares. */
  lemma ServerStepKeepsDeclared(w: World, step: Step)
    requires Enabled(w, step) && ServerStep(step) && !step.DeliverFinalize?
    ensures var after := Do(w, step);
      (if w.server.row.Some? && w.server.row.value.finalSeq.Some?
       then after.server.row.Some? && SameDeclaration(w.server.row.value, after.server.row.value)
       else after.server.row.Some? ==> after.server.row.value.finalSeq.None?)
  {
    hide CompletenessOk, MissingForFinal, Received, UploadDecision, FinalizeDecision;
  }

  predicate SameDeclaration(a: Row, b: Row) {
    a.finalSeq == b.finalSeq && a.totalChunks == b.totalChunks && a.durationMs == b.durationMs
    && a.declaredLost == b.declaredLost
  }

  // ------------------------------------------------------------ the answers

  /** A slice of the recording is acknowledged, or refused only because the take is deleted. */
  lemma SliceAnswer(w: World, k: nat, data: Bytes)
    requires Inv(w) && (k, data) in w.net.uploads
    ensures var reply := UploadDecision(w.server, k, data, Some(Sha256(data)));
      Acked(reply) || (reply == RecordingDeleted && Keeping.TombstonedTake(w.server))
  {
    assert k < |w.recorded| && data == w.recorded[k];
    if w.server.row.Some? && w.server.row.value.finalSeq.Some? {
      var p :| p in w.net.finalizes;
      assert Matches(w.server.row.value, p) && p.finalSeq == |w.recorded| - 1;
    }
    assert w.recorded[k] in w.recorded;
    assert k in Below(|w.recorded|);
  }

  /** A posted declaration is accepted, or refused only because the take is deleted. */
  lemma DeclarationAnswer(w: World, p: Payload)
    requires Inv(w) && p in w.net.finalizes
    ensures FinalizeReply(w.server, p) == Accepted
      || (FinalizeReply(w.server, p) == DeletedConflict && Keeping.TombstonedTake(w.server))
    ensures w.server.row.Some?
  {
    assert forall k :: k in w.server.store ==> k in Below(|w.recorded|);
  }

  /** An accepted declaration is the one every post carries. */
  lemma AcceptedMatches(w: World, p: Payload)
    requires Keeping.Inv(w) && RowMatches(w) && w.server.row.Some? && p in w.net.finalizes
    requires FinalizeReply(w.server, p) == Accepted && forall q :: q in w.net.finalizes ==> q == p
    ensures RowMatches(AfterDeliverFinalize(w, p))
  {
    var row := w.server.row.value;
    Keeping.AcceptedIsChecked(row, w.server.store, p);
    AcceptedDeclares(row, w.server.store, p);
    hide AfterAccepted, FinalizeDecision, CompletenessOk;
  }

  lemma AcceptedDeclares(prior: Row, store: SliceStore, p: Payload)
    requires prior.finalSeq.Some? ==> Matches(prior, p)
    requires prior.finalSeq.None? ==> !prior.declaredLost
    requires FinalizeDecision(prior, store, p) == Accepted
    ensures Matches(AfterAccepted(prior, store, p).0, p)
  {
  }

  lemma DeliverUploadRefuses(w: World, k: nat, data: Bytes, db: DbOutcome)
    requires Inv(w) && (k, data) in w.net.uploads
    ensures Refusals(AfterDeliverUpload(w, k, data, db))
  {
    SliceAnswer(w, k, data);
    hide Keeping.Inv, Declaration, UploadDecision;
  }

  lemma DeliverFinalizeRefuses(w: World, p: Payload)
    requires Inv(w) && p in w.net.finalizes
    ensures Refusals(AfterDeliverFinalize(w, p)) && RowMatches(AfterDeliverFinalize(w, p))
  {
    DeclarationAnswer(w, p);
    if FinalizeReply(w.server, p) == Accepted {
      AcceptedMatches(w, p);
    }
    hide Keeping.Inv, Declaration, FinalizeDecision, AfterAccepted;
  }

  // ------------------------------------------------------------ every run

  lemma BrowserStepKeeps(w: World, step: Step)
    requires Inv(w) && Enabled(w, step) && !ServerStep(step) && !Strands(w, step)
    ensures Declaration(Do(w, step)) && RowMatches(Do(w, step)) && Refusals(Do(w, step))
  {
    if RecorderStep(step) {
      RecorderKeepsDeclaration(w, step);
      RecorderKeepsRow(w, step);
    } else {
      if step.Purge? {
        assert Keeping.Stopped(w);
      }
      QueueKeepsDeclaration(w, step);
      QueueKeepsRow(w, step);
    }
  }

  lemma RecorderKeepsRow(w: World, step: Step)
    requires RowMatches(w) && Enabled(w, step) && RecorderStep(step)
    ensures RowMatches(Do(w, step)) && Do(w, step).net.refusals == w.net.refusals
    ensures w.server.row.Some? ==> Do(w, step).server == w.server
    ensures Do(w, step).net.finalizes == w.net.finalizes
  {
    hide PersistRecorderLost, CommitStop, PersistInterrupted, PersistReplaced, HoldForRecorderFlush;
  }

  predicate SameClaim(w: World, after: World) {
    after.browser.pendingTake == w.browser.pendingTake && after.browser.granted == w.browser.granted
  }

  lemma SliceStepLeavesServer(w: World, step: Step)
    requires Enabled(w, step) && SliceStep(step)
    ensures Do(w, step).server == w.server && Do(w, step).net.refusals == w.net.refusals
    ensures Do(w, step).net.finalizes == w.net.finalizes && SameClaim(w, Do(w, step))
  {
    hide ClearUnauthorized, NotePermanentFailure, Unblocked;
  }

  lemma QueueLeavesServer(w: World, step: Step)
    requires Enabled(w, step) && QueueStep(step)
    ensures Do(w, step).server == w.server && Do(w, step).net.refusals == w.net.refusals
    ensures !step.PostFinalize? ==> Do(w, step).net.finalizes == w.net.finalizes
    ensures SameClaim(w, Do(w, step))
  {
    if SliceStep(step) {
      SliceStepLeavesServer(w, step);
    } else {
      hide MergeReload, ApplyServerStatus, Answered, FinalizeFailed, FinalizeDue, ShouldDiscardMeta;
    }
  }

  /** Every post is the same payload, so a repeat changes nothing. */
  lemma PostKeepsRow(w: World, pending: nat, now: int)
    requires Declaration(w) && RowMatches(w) && w.browser.meta.Some? && FinalizeDue(w.browser.meta.value, pending, now)
    ensures RowMatches(AfterPost(w))
  {
    if w.net.finalizes != {} {
      var p :| p in w.net.finalizes;
      assert PayloadOf(w.browser.meta.value, p);
      PostKeepsDeclaration(w, pending, now);
      assert w.browser.meta.value.payload.value == p;
    }
  }

  lemma QueueKeepsRow(w: World, step: Step)
    requires Declaration(w) && RowMatches(w) && Enabled(w, step) && QueueStep(step)
    ensures RowMatches(Do(w, step)) && Do(w, step).net.refusals == w.net.refusals
  {
    QueueLeavesServer(w, step);
    if step.PostFinalize? {
      PostKeepsRow(w, step.pending, step.now);
    } else {
      hide Do, Enabled, Declaration;
    }
  }

  lemma ServerStepKeeps(w: World, step: Step)
    requires Inv(w) && Enabled(w, step) && ServerStep(step)
    ensures Declaration(Do(w, step)) && RowMatches(Do(w, step)) && Refusals(Do(w, step))
  {
    ServerStepShape(w, step);
    ServerKeepsDeclaration(w, Do(w, step));
    if step.DeliverFinalize? {
      DeliverFinalizeRefuses(w, step.payload);
    } else {
      ServerStepKeepsDeclared(w, step);
    }
    if step.DeliverUpload? {
      DeliverUploadRefuses(w, step.k, step.data, step.db);
    }
    hide Declaration, Keeping.Inv;
  }

  lemma StepKeeps(w: World, step: Step)
    requires Inv(w) && Enabled(w, step) && !Strands(w, step)
    ensures Inv(Do(w, step))
  {
    hide Keeping.Inv, Declaration, RowMatches, Refusals, Enabled, Do;
    Keeping.StepKeeps(w, step);
    if ServerStep(step) {
      ServerStepKeeps(w, step);
    } else {
      BrowserStepKeeps(w, step);
    }
  }
}

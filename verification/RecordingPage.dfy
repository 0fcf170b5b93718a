/**
 * The recording page's own variables and its database rows, changed by the code between two awaits of
 * apps/student/src/recordingController.ts. Every method does exactly what the step of that name does.
 */
module RecordingPage {
  import opened Common
  import opened RecordingIntegrity
  import opened UploadQueue
  import opened TakeProtocol

  /** What a refused upload leaves of the browser: the rewritten slice, and the mark on the row. */
  lemma UploadFailsView(b: Browser, k: nat, data: Bytes, block: Option<UploadBlock>)
    ensures forall w: World :: w.browser == b ==>
      AfterUploadFails(w, k, data, block).browser ==
        b.(chunks := b.chunks[k := Chunk(data, block)],
           meta := if block.Some? && b.meta.Some? then Some(NotePermanentFailure(b.meta.value, block.value)) else b.meta)
  {
    hide NotePermanentFailure;
  }

  class Page {
    var meta: Option<Meta>
    var chunks: map<nat, Chunk>
    var phase: Phase
    var lock: bool
    var revoked: bool
    var replaced: bool
    var stopAsLost: bool
    var interruptPending: bool
    var replacePending: bool
    var others: Others
    var pendingTake: Option<nat>
    var granted: bool
    var abandoned: Option<int>

    function View(): Browser
      reads this
    {
      Browser(meta, chunks, phase, lock, revoked, replaced, stopAsLost, interruptPending, replacePending,
              others, pendingTake, granted, abandoned)
    }

    constructor ()
      ensures View() == Start.browser
    {
      meta, chunks, phase, lock, revoked, replaced := None, map[], NoRecorder, false, false, false;
      stopAsLost, interruptPending, replacePending := false, false, false;
      others := Others(false, false, false);
      pendingTake, granted, abandoned := None, false, None;
    }

    /** `attachRecorder` and a start() that returned. */
    method StartRecorder(now: int)
      modifies this
      ensures forall w: World :: w.browser == old(View()) ==> AfterStart(w, now).browser == View()
    {
      lock := true;
      meta := Some(EmptyMeta(now));
      phase := Running;
      pendingTake := None;
      granted := false;
    }

    /** `persistBlob`: one transaction stores the slice and moves the counter. */
    method PersistBlob(data: Bytes, endMs: nat)
      modifies this
      ensures forall w: World :: w.browser == old(View()) ==> AfterStoreSlice(w, data, endMs).browser == View()
    {
      var current := if meta.Some? then meta.value else EmptyMeta(endMs);
      chunks := chunks[current.nextSequence := Chunk(data, None)];
      meta := Some(current.(nextSequence := current.nextSequence + 1, lastEndMs := endMs));
    }

    /** `stopRecording`, or `notePageHide` when the page goes away. */
    method StopRecorder(pagehide: bool)
      modifies this
      ensures forall w: World :: w.browser == old(View()) ==> AfterStop(w, pagehide).browser == View()
    {
      if pagehide {
        stopAsLost := true;
      }
      phase := Draining;
    }

    /** `interruptRecording` up to its first await. */
    method NoteRevoked()
      modifies this
      ensures forall w: World :: w.browser == old(View()) ==> AfterRevoke(w).browser == View()
    {
      revoked := true;
      if phase == Running {
        interruptPending := true;
      }
    }

    /** Its transaction: the take is declared lost, and held until the recorder has flushed. */
    method WriteInterrupted(now: int)
      modifies this
      ensures forall w: World :: w.browser == old(View()) ==> AfterInterruptWrite(w, now).browser == View()
    {
      interruptPending := false;
      if meta.Some? {
        var latest := PersistInterrupted(meta.value, now);
        if latest.recorderState == RecorderLostState && !latest.confirmed && !ServerSettled(latest) {
          latest := latest.(flushPending := true);
        }
        meta := Some(latest);
      }
    }

    /** `stopReplacedRecording` up to its first await. */
    method NoteReplaced()
      modifies this
      ensures forall w: World :: w.browser == old(View()) ==> AfterReplace(w).browser == View()
    {
      replaced := true;
      pendingTake := None;
      granted := false;
      if phase == Running {
        replacePending := true;
      }
    }

    method WriteReplaced(now: int)
      modifies this
      ensures forall w: World :: w.browser == old(View()) ==> AfterReplaceWrite(w, now).browser == View()
    {
      replacePending := false;
      if meta.Some? {
        var latest := meta.value;
        if !DeclarationStands(latest) {
          latest := PersistRecorderLost(latest, now);
        }
        meta := Some(HoldForRecorderFlush(latest));
      }
    }

    /** `commitRecorderStop`, once every slice is stored. */
    method CommitRecorderStop(now: int)
      modifies this
      ensures forall w: World :: w.browser == old(View()) ==> AfterCommitStop(w, now).browser == View()
    {
      var lost := stopAsLost;
      stopAsLost := false;
      phase := Committed;
      if meta.Some? {
        var latest := meta.value;
        if latest.recorderState == RecorderLostState {
          if revoked {
            latest := PersistInterrupted(latest, now);
          } else if replaced {
            latest := PersistReplaced(latest, now);
          }
        } else if lost {
          latest := PersistRecorderLost(latest, now);
        } else if !latest.finalizePending || latest.persistedAt.None? {
          latest := PersistStop(latest, now);
        }
        meta := Some(ReleaseRecorderFlush(latest, now));
      }
    }

    /** The write of `reconcile` on a page that has no recorder. */
    method WriteReload(told: Option<ServerStatus>, now: int)
      modifies this
      ensures forall w: World :: w.browser == old(View()) ==> AfterFinishReload(w, told, now).browser == View()
    {
      if meta.Some? {
        var next := meta.value;
        if told.Some? {
          next := ApplyServerStatus(next, told.value, now);
        }
        if !(next.confirmed && next.serverFinalize == FinComplete) && next.recorderState == RecorderRunning {
          next := PersistRecorderLost(next, now);
        }
        meta := Some(ReleaseRecorderFlush(next, now));
      }
    }

    /**
     * `uploadNextChunk` up to its first await: the lowest stored slice that is neither refused nor in
     * flight and whose retry time has come. `retryAt` holds the times of slices that failed.
     */
    method NextUpload(inFlight: set<nat>, retryAt: map<nat, int>, now: int) returns (next: Option<nat>)
      ensures next.Some? <==> exists k :: Uploadable(k, inFlight, retryAt, now)
      ensures next.Some? ==> Uploadable(next.value, inFlight, retryAt, now)
      ensures next.Some? ==> forall k :: Uploadable(k, inFlight, retryAt, now) ==> next.value <= k
    {
      next := None;
      var left := chunks.Keys;
      while left != {}
        invariant left <= chunks.Keys
        invariant forall k :: Uploadable(k, inFlight, retryAt, now) && k !in left ==> next.Some? && next.value <= k
        invariant next.Some? ==> Uploadable(next.value, inFlight, retryAt, now)
      {
        var k :| k in left;
        left := left - {k};
        var waits := k in retryAt && now < retryAt[k];
        if chunks[k].refused.None? && k !in inFlight && !waits && (next.None? || k < next.value) {
          next := Some(k);
        }
      }
    }

    predicate Uploadable(k: nat, inFlight: set<nat>, retryAt: map<nat, int>, now: int)
      reads this
    {
      k in chunks && chunks[k].refused.None? && k !in inFlight && (k in retryAt ==> retryAt[k] <= now)
    }

    /** An ACK, or a status that lists the slice. */
    method DropStored(k: nat)
      modifies this`chunks
      ensures forall w: World :: w.browser == old(View()) ==> AfterDrop(w, k).browser == View()
    {
      chunks := chunks - {k};
    }

    method NoteUploadFailed(k: nat, data: Bytes, block: Option<UploadBlock>)
      modifies this
      ensures forall w: World :: w.browser == old(View()) ==> AfterUploadFails(w, k, data, block).browser == View()
    {
      hide NotePermanentFailure, AfterUploadFails;
      ghost var before := View();
      chunks := chunks[k := Chunk(data, block)];
      if block.Some? && meta.Some? {
        meta := Some(NotePermanentFailure(meta.value, block.value));
      }
      UploadFailsView(before, k, data, block);
    }

    /** `sendFinalizeIfDue` up to its POST. */
    method FinalizeToSend(pending: nat, now: int) returns (payload: Option<Payload>)
      ensures payload.Some? <==> meta.Some? && FinalizeDue(meta.value, pending, now)
      ensures payload.Some? ==> payload == meta.value.payload
    {
      if meta.None? || meta.value.payload.None? || !FinalizeDue(meta.value, pending, now) {
        return None;
      }
      payload := meta.value.payload;
    }

    /** Its answer counts only while the row still declares what was sent. */
    method TakeFinalizeAnswer(sent: Payload, sentAt: Option<int>, fin: FinState, now: int)
      modifies this`meta
      ensures var stands := old(meta).Some? && old(meta).value.payload == Some(sent)
                            && (sentAt.Some? ==> old(meta).value.persistedAt == sentAt);
        if stands then
          forall w: World :: w.browser == old(View()) ==> AfterAnswer(w, Answer(sent, fin), now).browser == View()
        else meta == old(meta)
    {
      if meta.None? || meta.value.payload != Some(sent) {
        return;
      }
      if sentAt.Some? && meta.value.persistedAt != sentAt {
        return;
      }
      var attempted := NoteFinalizeAttempt(meta.value, now, fin == NotFinalized || fin == Pending);
      meta := Some(ApplyServerStatus(attempted, ServerStatus(fin, {}), now));
    }
  }
}

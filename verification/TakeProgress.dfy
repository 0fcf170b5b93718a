/** A normally stopped take can always be brought to "safe to close". */
module TakeProgress {
  import opened Common
  import opened RecordingIntegrity
  import opened RecordingFiles
  import opened UploadQueue
  import opened TakeProtocol
  import Delivery = TakeDelivery
  import Keeping = TakeKeeping
  import Retired = TakeRetired
  import RowLifecycle
  import TakeSafety

  predicate StillOpen(row: Row) {
    row.state in {Recording, Finalizing, Complete} && row.manifest.None?
  }

  /** The recorder ended the take itself, nothing was refused for good, and the server can still take it. */
  predicate Stopped(w: World) {
    && w.browser.meta.Some? && Declares(w.browser.meta.value)
    && (forall k :: k in w.browser.chunks ==> w.browser.chunks[k].refused.None?)
    && w.server.row.Some? && StillOpen(w.server.row.value)
    && w.recorded != [] && HasEbmlMagic(w.recorded[0])
  }

  ghost predicate Ready(w: World) {
    Delivery.Inv(w) && Stopped(w)
  }

  predicate Declares(m: Meta) {
    && m.recorderState == RecorderStopped && m.finalizePending && m.persistedAt.Some?
    && !m.confirmed && !ServerSettled(m)
  }

  /** A normal stop is due: at once when nothing is left to upload, and after the delay in any case. */
  lemma NormalStopIsDue(m: Meta, recorded: seq<Bytes>, revoked: bool, replaced: bool, now: int, pending: nat)
    requires TakeSafety.MetaOk(m, recorded) && m.recorderState == RecorderRunning && !ServerSettled(m)
    requires m.nextAttemptAt.None?
    ensures var stopped := CommitStop(m, false, revoked, replaced, now);
      && Declares(stopped) && stopped.payload == Some(FullPayload(m, false))
      && FinalizeDue(stopped, 0, now) && FinalizeDue(stopped, pending, now + FINALIZE_DELAY_MS)
      && (FinalizeDue(stopped, pending, now) <==> pending == 0)
  {
  }

  lemma RefreshStaysOpen(row: Row, store: SliceStore)
    requires RowLifecycle.Good(row) && StillOpen(row)
    ensures StillOpen(AfterRefresh(row, store).0)
  {
  }

  function Uploaded(w: World, k: nat): seq<Step>
    requires k in w.browser.chunks
  {
    [SendUpload(k), DeliverUpload(k, w.browser.chunks[k].data, Saved), AckArrives(k)]
  }

  lemma DeliveredIsAcked(w: World, k: nat, data: Bytes)
    requires Delivery.Inv(w) && (k, data) in w.net.uploads && w.server.row.Some? && StillOpen(w.server.row.value)
    ensures var after := AfterDeliverUpload(w, k, data, Saved);
      && k in after.net.acks && after.browser == w.browser && after.recorded == w.recorded
      && after.server.row.Some? && StillOpen(after.server.row.value)
  {
    Delivery.SliceAnswer(w, k, data);
    var store := if k in w.server.store then w.server.store else w.server.store[k := data];
    assert RowLifecycle.Good(w.server.row.value);
    RefreshStaysOpen(w.server.row.value, store);
    hide Delivery.Inv, AfterRefresh;
  }

  lemma UploadSteps(w: World, k: nat, data: Bytes)
    ensures k in w.browser.chunks && w.browser.chunks[k].refused.None? ==>
      Enabled(w, SendUpload(k)) && Do(w, SendUpload(k)) == AfterSend(w, k)
    ensures (k, data) in w.net.uploads ==>
      && Enabled(w, DeliverUpload(k, data, Saved))
      && Do(w, DeliverUpload(k, data, Saved)) == AfterDeliverUpload(w, k, data, Saved)
    ensures k in w.net.acks ==> Enabled(w, AckArrives(k)) && Do(w, AckArrives(k)) == AfterDrop(w, k)
  {
    hide AfterDeliverUpload;
  }

  lemma FinalizeSteps(w: World, p: Payload, now: int)
    ensures w.browser.meta.Some? && FinalizeDue(w.browser.meta.value, 0, now) ==>
      Enabled(w, PostFinalize(0, now)) && Do(w, PostFinalize(0, now)) == AfterPost(w)
    ensures p in w.net.finalizes ==>
      Enabled(w, DeliverFinalize(p)) && Do(w, DeliverFinalize(p)) == AfterDeliverFinalize(w, p)
    ensures var answer := Answer(p, FinComplete);
      answer in w.net.answers && w.browser.meta.Some? && w.browser.meta.value.payload == Some(p) ==>
        && Enabled(w, AnswerArrives(answer, now))
        && Do(w, AnswerArrives(answer, now)) == AfterAnswer(w, answer, now)
  {
    hide AfterDeliverFinalize, AfterAnswer;
  }

  lemma SendKeepsReady(w: World, k: nat)
    requires Ready(w) && k in w.browser.chunks
    ensures Ready(AfterSend(w, k))
  {
    UploadSteps(w, k, []);
    hide Delivery.Inv, Do, Enabled;
    Delivery.StepKeeps(w, SendUpload(k));
  }

  lemma DeliverKeepsReady(w: World, k: nat, data: Bytes)
    requires Ready(w) && (k, data) in w.net.uploads
    ensures var after := AfterDeliverUpload(w, k, data, Saved);
      Ready(after) && after.browser == w.browser && k in after.net.acks
  {
    DeliveredIsAcked(w, k, data);
    UploadSteps(w, k, data);
    hide Delivery.Inv, AfterDeliverUpload, StillOpen, Do, Enabled;
    Delivery.StepKeeps(w, DeliverUpload(k, data, Saved));
  }

  lemma AckKeepsReady(w: World, k: nat)
    requires Ready(w) && k in w.net.acks
    ensures Ready(AfterDrop(w, k))
  {
    UploadSteps(w, k, []);
    hide Delivery.Inv, StillOpen, Do, Enabled;
    Delivery.StepKeeps(w, AckArrives(k));
  }

  /** One slice goes up, is stored and is dropped here. */
  lemma UploadOne(w: World, k: nat)
    requires Ready(w) && k in w.browser.chunks
    ensures PossibleRun(w, Uploaded(w, k))
    ensures var after := AfterRun(w, Uploaded(w, k));
      Ready(after) && after.browser.chunks == w.browser.chunks - {k}
  {
    var data := w.browser.chunks[k].data;
    SendKeepsReady(w, k);
    var sent := AfterSend(w, k);
    DeliverKeepsReady(sent, k, data);
    var stored := AfterDeliverUpload(sent, k, data, Saved);
    AckKeepsReady(stored, k);
    UploadSteps(w, k, data);
    UploadSteps(sent, k, data);
    UploadSteps(stored, k, data);
    assert w.browser.chunks[k].refused.None? && (k, data) in sent.net.uploads;
    hide Ready, AfterDeliverUpload, Do, Enabled;
    ThreeSteps(w, SendUpload(k), DeliverUpload(k, data, Saved), AckArrives(k));
  }

  lemma {:induction false} DrainQueue(w: World) returns (steps: seq<Step>)
    requires Ready(w)
    ensures PossibleRun(w, steps)
    ensures Ready(AfterRun(w, steps)) && AfterRun(w, steps).browser.chunks == map[]
    decreases |w.browser.chunks|
  {
    if w.browser.chunks == map[] {
      steps := [];
    } else {
      assert w.browser.chunks.Keys != {};
      var k :| k in w.browser.chunks.Keys;
      UploadOne(w, k);
      var next := AfterRun(w, Uploaded(w, k));
      assert next.browser.chunks.Keys == w.browser.chunks.Keys - {k};
      assert |next.browser.chunks| == |next.browser.chunks.Keys|;
      hide Ready, AfterRun, PossibleRun, Uploaded;
      var rest := DrainQueue(next);
      Continue(w, Uploaded(w, k), rest);
      steps := Uploaded(w, k) + rest;
    }
  }

  /** With an empty queue the server holds every slice. */
  lemma EmptyQueueMeansStored(w: World)
    requires Ready(w) && w.browser.chunks == map[]
    ensures w.server.store.Keys == Below(|w.recorded|) && HeaderOk(w.server.store)
    ensures w.browser.meta.value.payload == Some(FullPayload(w.browser.meta.value, false))
    ensures w.browser.meta.value.nextSequence == |w.recorded|
  {
    forall k: nat | k < |w.recorded| ensures k in w.server.store {
      assert k in w.ever;
    }
    assert w.server.store.Keys <= w.ever <= Below(|w.recorded|);
    assert 0 in w.server.store;
  }

  /** The declaration of a whole take completes it. */
  lemma WholeTakeCompletes(row: Row, store: SliceStore, p: Payload)
    requires RowLifecycle.Good(row) && StillOpen(row) && RowLifecycle.ValidPayload(p) && !p.lost
    requires FinalizeDecision(row, store, p) == Accepted
    requires store.Keys == Below(p.finalSeq + 1) && HeaderOk(store)
    ensures AfterAccepted(row, store, p).0.state == Complete && AfterAccepted(row, store, p).0.fin == FinComplete
  {
    var declared := ApplyPayload(row, p, false);
    var open := if Open(declared.state) then declared.(state := Finalizing, fin := Pending) else declared;
    var synced := SyncMissing(open, store);
    CompletenessMeaning(synced, store);
    hide CompletenessOk;
  }

  lemma PostKeepsInv(w: World, now: int)
    requires Delivery.Inv(w) && w.browser.meta.Some? && FinalizeDue(w.browser.meta.value, 0, now)
    ensures Delivery.Inv(AfterPost(w))
  {
    FinalizeSteps(w, Payload(0, 0, 0, false), now);
    hide Delivery.Inv, Do, Enabled;
    Delivery.StepKeeps(w, PostFinalize(0, now));
  }

  lemma PostIsAccepted(w: World, now: int)
    requires Ready(w) && w.browser.chunks == map[] && FinalizeDue(w.browser.meta.value, 0, now)
    ensures var m := w.browser.meta.value;
      var p := FullPayload(m, false);
      var posted := AfterPost(w);
      var told := AfterDeliverFinalize(posted, p);
      && p in posted.net.finalizes && told.browser == w.browser && m.payload == Some(p)
      && Answer(p, FinComplete) in told.net.answers
      && told.server.row.Some? && told.server.row.value.state == Complete
  {
    EmptyQueueMeansStored(w);
    var p := FullPayload(w.browser.meta.value, false);
    var posted := AfterPost(w);
    PostKeepsInv(w, now);
    Delivery.DeclarationAnswer(posted, p);
    assert RowLifecycle.Good(w.server.row.value) && TakeSafety.MetaOk(w.browser.meta.value, w.recorded);
    WholeTakeCompletes(w.server.row.value, w.server.store, p);
    hide Delivery.Inv, AfterAccepted, FinalizeDecision;
  }

  lemma AnswerIsSafe(m: Meta, now: int)
    ensures CloseBannerOf(Some(Answered(m, FinComplete, now)), 0) == Safe
  {
  }

  lemma ReadyIsDue(w: World) returns (now: int)
    requires Ready(w)
    ensures w.browser.meta.Some? && FinalizeDue(w.browser.meta.value, 0, now)
  {
    var m := w.browser.meta.value;
    assert TakeSafety.MetaOk(m, w.recorded);
    now := if m.nextAttemptAt.Some? then m.nextAttemptAt.value else 0;
  }

  lemma FinishTake(w: World) returns (steps: seq<Step>)
    requires Ready(w) && w.browser.chunks == map[]
    ensures PossibleRun(w, steps)
    ensures var after := AfterRun(w, steps);
      && CloseBannerOf(after.browser.meta, 0) == Safe
      && after.server.row.Some? && after.server.row.value.state == Complete
  {
    hide Ready, FullPayload, AfterDeliverFinalize, FinalizeDue, Answered, CloseBannerOf, Do, Enabled, PossibleRun,
      AfterRun;
    var now := ReadyIsDue(w);
    var m := w.browser.meta.value;
    var p := FullPayload(m, false);
    var answer := Answer(p, FinComplete);
    PostIsAccepted(w, now);
    var posted := AfterPost(w);
    var told := AfterDeliverFinalize(posted, p);
    AnswerIsSafe(m, now);
    FinalizeSteps(w, p, now);
    FinalizeSteps(posted, p, now);
    FinalizeSteps(told, p, now);
    ThreeSteps(w, PostFinalize(0, now), DeliverFinalize(p), AnswerArrives(answer, now));
    steps := [PostFinalize(0, now), DeliverFinalize(p), AnswerArrives(answer, now)];
  }

  lemma ReadyTakeCompletes(w: World) returns (steps: seq<Step>)
    requires Ready(w)
    ensures PossibleRun(w, steps)
    ensures var after := AfterRun(w, steps);
      && CloseBannerOf(after.browser.meta, 0) == Safe
      && after.server.row.Some? && after.server.row.value.state == Complete
  {
    hide Ready, PossibleRun, AfterRun, CloseBannerOf;
    var drain := DrainQueue(w);
    var finish := FinishTake(AfterRun(w, drain));
    Continue(w, drain, finish);
    steps := drain + finish;
  }

  /** A take that a recorder stopped is not one that never started. */
  lemma StoppedIsReady(w: World)
    requires Retired.Safe(w) && Stopped(w)
    ensures Ready(w)
  {
    hide Delivery.Inv, Keeping.Inv;
  }

  /**
   * After every run without an intrusion that leaves a normally stopped take the server can still take:
   * uploading what is left and posting the declaration makes the server's row complete and the banner
   * "safe".
   */
  lemma StoppedTakeCanComplete(before: seq<Step>) returns (steps: seq<Step>)
    requires PossibleRun(Start, before) && Retired.Unintruded(Start, before) && Stopped(AfterRun(Start, before))
    ensures PossibleRun(AfterRun(Start, before), steps)
    ensures var after := AfterRun(AfterRun(Start, before), steps);
      && CloseBannerOf(after.browser.meta, 0) == Safe
      && after.server.row.Some? && after.server.row.value.state == Complete
  {
    Retired.Reachable(before);
    hide Ready, PossibleRun, AfterRun, CloseBannerOf, Retired.Safe;
    StoppedIsReady(AfterRun(Start, before));
    steps := ReadyTakeCompletes(AfterRun(Start, before));
  }
}

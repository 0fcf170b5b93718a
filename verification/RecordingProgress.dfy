/** A complete take can always be transcoded and uploaded, whatever cut earlier attempts short. */
module RecordingProgress {
  import opened Common
  import opened RecordingIntegrity
  import opened JobQueue
  import opened RecordingWorker
  import opened WorkerSchedule
  import Originals = RecordingOriginals
  import RowLifecycle
  import Sweep = GraceSweep

  predicate FitsTake(w: World, file: Mp4) {
    ValidMp4(Some(file), RowOf(w).durationMs)
  }

  /** Actions that the moves below pass through. */
  predicate Between(t: TranscodeAt) {
    t.CheckResult? || t.RemoveMerged? || t.EnqueueUpload?
  }

  /** A transcode that nothing disturbs. */
  predicate Transcodes(w: World, file: Mp4) {
    && Originals.Inv(w) && w.pc.InTranscode? && !Between(w.pc.t) && MediaGuard(w, w.pc.id)
    && Sweep.SourceKept(w) && FitsTake(w, file)
  }

  /** The originals are gone, the manifest and the video are in place. */
  predicate Published(w: World) {
    RowOf(w).manifest.Some? && w.disk.chunks == map[]
  }

  /** The job's handler returned after a transcode, and the upload job is there. */
  predicate TranscodeEnded(w: World, id: nat, was: seq<Job>, file: Mp4) {
    && Originals.Inv(w) && w.pc == Ending(id, Returned) && MediaGuard(w, id) && Published(w) && FitsTake(w, file)
    && w.jobs == AfterEnqueue(was, Upload, SESSION, 0)
  }

  function Distance(t: TranscodeAt): nat {
    match t
    case CheckSource => 13
    case GuardTranscoding => 12
    case SetTranscoding => 11
    case CheckMp4 => 10
    case Concat => 9
    case Remux => 8
    case CheckResult => 7
    case GuardManifest => 6
    case GuardSet(_) => 5
    case SetManifest(_) => 4
    case GuardRemove => 3
    case RemoveChunks => 2
    case RemoveMerged => 1
    case EnqueueUpload => 0
  }

  /** The same transcode, one action further or more. */
  predicate MovedOn(w: World, next: World, file: Mp4)
    requires w.pc.InTranscode?
  {
    && Transcodes(next, file) && Distance(next.pc.t) < Distance(w.pc.t)
    && next.pc.id == w.pc.id && next.written == w.written && next.jobs == w.jobs
  }

  lemma WorkStep(w: World)
    requires CanWork(w)
    ensures Enabled(w, Work) && Do(w, Work) == DoWork(w)
    ensures Originals.Inv(w) ==> Originals.Inv(DoWork(w))
  {
    hide Originals.Inv, DoWork;
    if Originals.Inv(w) {
      Originals.StepKeeps(w, Work);
    }
  }

  /** What the row promises while the guard passes. */
  lemma GuardedRow(w: World)
    requires Originals.Inv(w) && w.pc.InTranscode? && MediaGuard(w, w.pc.id)
    ensures Originals.TranscodeOk(w, w.pc.t, w.pc.facts) && WorkerMayWrite(RowOf(w))
    ensures w.pc.t.Concat? || w.pc.t.Remux? ==> RowOf(w).manifest.None?
  {
    Originals.GuardMeansComplete(w, w.pc.id);
    hide ValidMp4, Originals.Full, Originals.Listed;
  }

  /** The actions up to the manifest, except those that produce the video. */
  lemma PreparesOn(w: World, file: Mp4)
    requires Transcodes(w, file) && Prepares(w.pc.t)
    ensures MovedOn(w, DoWork(w), file)
  {
    hide Originals.Inv, ValidMp4, Originals.Full, Originals.Listed, HoldsLease, HeaderOk, UploadWork, DeleteWork;
    GuardedRow(w);
    WorkStep(w);
  }

  /** The merge succeeds: the source is whole and slice 0 carries the header. */
  lemma MergesOn(w: World, file: Mp4)
    requires Transcodes(w, file) && w.pc.t.Concat?
    ensures MovedOn(w, DoWork(w), file)
  {
    hide Originals.Inv, ValidMp4, Originals.Full, Originals.Listed, HoldsLease, UploadWork, DeleteWork;
    GuardedRow(w);
    WorkStep(w);
    assert 0 in w.disk.chunks;
  }

  /** The remux publishes a valid video, which the handler then checks. */
  lemma PublishesOn(w: World, file: Mp4)
    requires Transcodes(w, file) && w.pc.t.Remux?
    ensures Enabled(w, WorkPublish(Some(file))) && CanWork(Do(w, WorkPublish(Some(file))))
    ensures MovedOn(w, DoWork(Do(w, WorkPublish(Some(file)))), file)
  {
    hide Originals.Inv, ValidMp4, Originals.Full, Originals.Listed, HoldsLease, HeaderOk, UploadWork, DeleteWork;
    GuardedRow(w);
    Originals.StepKeeps(w, WorkPublish(Some(file)));
    var published := Do(w, WorkPublish(Some(file)));
    WorkStep(published);
  }

  lemma ManifestsOn(w: World, file: Mp4)
    requires Transcodes(w, file)
    requires w.pc.t.GuardManifest? || w.pc.t.GuardSet? || w.pc.t.SetManifest? || w.pc.t.GuardRemove?
    ensures MovedOn(w, DoWork(w), file)
  {
    hide Originals.Inv, ValidMp4, Originals.Full, Originals.Listed, SourceWhole, ManifestFor, HoldsLease, HeaderOk,
      UploadWork, DeleteWork;
    GuardedRow(w);
    WorkStep(w);
  }

  lemma RemovesOne(w: World, file: Mp4, k: nat)
    requires Transcodes(w, file) && w.pc.t.RemoveChunks? && k in w.disk.chunks
    ensures Enabled(w, WorkRemove(k))
    ensures var next := Do(w, WorkRemove(k));
      && Transcodes(next, file) && next.pc == w.pc && next.written == w.written && next.jobs == w.jobs
      && |next.disk.chunks| < |w.disk.chunks|
  {
    GuardedRow(w);
    Originals.StepKeeps(w, WorkRemove(k));
    assert (w.disk.chunks - {k}).Keys == w.disk.chunks.Keys - {k};
    assert |w.disk.chunks - {k}| == |(w.disk.chunks - {k}).Keys| < |w.disk.chunks.Keys|;
    hide Originals.Inv, ValidMp4, Originals.Listed, SourceWhole;
  }

  /** With nothing left to remove, the last actions hand over to the upload. */
  lemma HandsOver(w: World, file: Mp4, now: int) returns (steps: seq<Step>, after: World)
    requires Transcodes(w, file) && w.pc.t.RemoveChunks? && w.disk.chunks == map[]
    ensures Goes(w, steps, now, after) && TranscodeEnded(after, w.pc.id, w.jobs, file) && after.written == w.written
  {
    var emptied := w.(pc := InTranscode(w.pc.id, RemoveMerged, w.pc.facts));
    var merged := w.(disk := w.disk.(merged := false), pc := InTranscode(w.pc.id, EnqueueUpload, w.pc.facts));
    RemovesRest(w, file);
    after := DoWork(merged);
    hide Transcodes, DoWork, TranscodeEnded, Enabled, Do;
    WorkStep(w);
    WorkStep(emptied);
    WorkStep(merged);
    Arrived(after, now);
    First(merged, Work, [], now, after);
    First(emptied, Work, [Work] + [], now, after);
    First(w, Work, [Work] + ([Work] + []), now, after);
    steps := [Work] + ([Work] + ([Work] + []));
  }

  lemma RemovesRest(w: World, file: Mp4)
    requires Transcodes(w, file) && w.pc.t.RemoveChunks? && w.disk.chunks == map[]
    ensures var emptied := w.(pc := InTranscode(w.pc.id, RemoveMerged, w.pc.facts));
      var merged := w.(disk := w.disk.(merged := false), pc := InTranscode(w.pc.id, EnqueueUpload, w.pc.facts));
      && DoWork(w) == emptied && DoWork(emptied) == merged
      && TranscodeEnded(DoWork(merged), w.pc.id, w.jobs, file) && DoWork(merged).written == w.written
  {
    GuardedRow(w);
    hide Originals.Inv, ValidMp4, HoldsLease, SourceWhole, TranscodeEnded;
    var emptied := w.(pc := InTranscode(w.pc.id, RemoveMerged, w.pc.facts));
    var merged := w.(disk := w.disk.(merged := false), pc := InTranscode(w.pc.id, EnqueueUpload, w.pc.facts));
    WorkStep(w);
    WorkStep(emptied);
    QueuesUpload(merged, file);
  }

  lemma QueuesUpload(w: World, file: Mp4)
    requires Originals.Inv(w) && w.pc.InTranscode? && w.pc.t == EnqueueUpload && MediaGuard(w, w.pc.id)
    requires Published(w) && FitsTake(w, file)
    ensures TranscodeEnded(DoWork(w), w.pc.id, w.jobs, file) && DoWork(w).written == w.written
  {
    WorkStep(w);
    EnqueueKeepsJob(w.jobs, w.pc.id);
    hide Originals.Inv, AfterEnqueue;
  }

  lemma EnqueueKeepsJob(jobs: seq<Job>, id: nat)
    requires id < |jobs|
    ensures var after := AfterEnqueue(jobs, Upload, SESSION, 0); |jobs| <= |after| && after[id] == jobs[id]
  {
  }

  predicate Prepares(t: TranscodeAt) {
    t.CheckSource? || t.GuardTranscoding? || t.SetTranscoding? || t.CheckMp4?
  }

  /** One action, or the two of producing the video. */
  lemma TranscodeMoves(w: World, file: Mp4, now: int) returns (steps: seq<Step>, next: World)
    requires Transcodes(w, file) && !w.pc.t.RemoveChunks?
    ensures Goes(w, steps, now, next) && MovedOn(w, next, file)
  {
    var t := w.pc.t;
    hide MovedOn, Transcodes, DoWork, Do, Enabled;
    if t.Remux? {
      PublishesOn(w, file);
      var published := Do(w, WorkPublish(Some(file)));
      next := DoWork(published);
      Arrived(next, now);
      WorkStep(published);
      First(published, Work, [], now, next);
      First(w, WorkPublish(Some(file)), [Work] + [], now, next);
      steps := [WorkPublish(Some(file))] + ([Work] + []);
    } else {
      if t.Concat? {
        MergesOn(w, file);
      } else if Prepares(t) {
        PreparesOn(w, file);
      } else {
        ManifestsOn(w, file);
      }
      WorkStep(w);
      next := DoWork(w);
      Arrived(next, now);
      First(w, Work, [], now, next);
      steps := [Work] + [];
    }
  }

  /** An undisturbed transcode removes every original and leaves an upload job. */
  lemma {:induction false} TranscodeFinishes(w: World, file: Mp4, now: int) returns (steps: seq<Step>, after: World)
    requires Transcodes(w, file)
    ensures Goes(w, steps, now, after) && TranscodeEnded(after, w.pc.id, w.jobs, file) && after.written == w.written
    decreases Distance(w.pc.t), |w.disk.chunks|
  {
    var t, id, chunks := w.pc.t, w.pc.id, w.disk.chunks;
    if t.RemoveChunks? && chunks == map[] {
      steps, after := HandsOver(w, file, now);
    } else {
      var first: seq<Step>;
      var next: World;
      if t.RemoveChunks? {
        assert chunks.Keys != {};
        var k :| k in chunks.Keys;
        RemovesOne(w, file, k);
        hide Transcodes, Enabled, Do;
        next := Do(w, WorkRemove(k));
        Arrived(next, now);
        First(w, WorkRemove(k), [], now, next);
        first := [WorkRemove(k)] + [];
      } else {
        first, next := TranscodeMoves(w, file, now);
      }
      hide Transcodes, TranscodeEnded, Goes;
      var rest: seq<Step>;
      rest, after := TranscodeFinishes(next, file, now);
      Joined(w, first, now, next, rest, after);
      steps := first + rest;
    }
  }

  // ------------------------------------------------------------ the upload

  /** An upload that nothing disturbs. */
  predicate Uploads(w: World) {
    && Originals.Inv(w) && w.pc.InUpload? && MediaGuard(w, w.pc.id)
    && (w.pc.u == CheckLocal ==> Originals.LocalValid(w))
  }

  /** Nothing but the object, the state and the program counter differs. */
  predicate OnlyUploads(w: World, after: World) {
    && after.disk == w.disk && after.written == w.written && after.jobs == w.jobs
    && after.worker == w.worker && after.stopping == w.stopping
    && RowOf(after).(state := RowOf(w).state) == RowOf(w)
  }

  predicate UploadEnded(w: World, id: nat) {
    Originals.Inv(w) && w.pc == Ending(id, Returned) && RowOf(w).state == Uploaded
  }

  function UploadDistance(u: UploadAt): nat {
    match u
    case CheckLocal => 5
    case GuardExists => 4
    case AskExists => 3
    case GuardPut => 2
    case Put => 1
    case SetUploaded => 0
  }

  lemma GuardedUpload(w: World)
    requires Uploads(w)
    ensures CompleteOrLater(RowOf(w).state) && WorkerMayWrite(RowOf(w))
    ensures Originals.UploadOk(w, w.pc.u, w.pc.facts, w.pc.file)
  {
    Originals.GuardMeansComplete(w, w.pc.id);
    hide ValidMp4, Originals.Listed;
  }

  lemma UploadMoves(w: World)
    requires Uploads(w)
    ensures CanWork(w)
    ensures var next := DoWork(w);
      && OnlyUploads(w, next)
      && if w.pc.u == SetUploaded then UploadEnded(next, w.pc.id)
         else Uploads(next) && next.pc.id == w.pc.id && UploadDistance(next.pc.u) < UploadDistance(w.pc.u)
  {
    GuardedUpload(w);
    hide Originals.Inv, ValidMp4, HoldsLease, TranscodeWork, DeleteWork;
    WorkStep(w);
  }

  lemma {:induction false} UploadFinishes(w: World, now: int) returns (steps: seq<Step>, after: World)
    requires Uploads(w)
    ensures Goes(w, steps, now, after) && UploadEnded(after, w.pc.id) && OnlyUploads(w, after)
    decreases UploadDistance(w.pc.u)
  {
    UploadMoves(w);
    WorkStep(w);
    var last := w.pc.u == SetUploaded;
    hide Uploads, UploadEnded, DoWork;
    var rest: seq<Step> := [];
    after := DoWork(w);
    if last {
      Arrived(after, now);
    } else {
      rest, after := UploadFinishes(DoWork(w), now);
    }
    First(w, Work, rest, now, after);
    steps := [Work] + rest;
  }

  // ------------------------------------------------------------ one job after the other

  /** An idle worker, no lease held, and the take still to be processed. */
  predicate Rested(w: World, file: Mp4) {
    && Originals.Inv(w) && w.pc == Idle && !w.stopping && NoneRunning(w.jobs)
    && CompleteOrLater(RowOf(w).state) && Sweep.SourceKept(w) && FitsTake(w, file)
  }

  lemma GoodRow(w: World)
    requires Originals.Inv(w)
    ensures RowLifecycle.Good(RowOf(w))
  {
  }

  function Opened(w: World, id: nat, now: int): World
    requires id < |w.jobs|
  {
    w.(jobs := w.jobs[id := Claimed(w.jobs[id], w.worker, now)],
       pc := match w.jobs[id].kind
             case Transcode => InTranscode(id, CheckSource, FactsOf(RowOf(w)))
             case Upload => InUpload(id, CheckLocal, FactsOf(RowOf(w)), None)
             case _ => Ending(id, Returned))
  }

  /** Claiming the first due job and the two actions its handler starts with. */
  lemma OpensJob(w: World, file: Mp4, id: nat, now: int) returns (steps: seq<Step>)
    requires Rested(w, file) && FirstDue(w.jobs, id, now)
    ensures Goes(w, steps, now, Opened(w, id, now)) && Originals.Inv(Opened(w, id, now))
    ensures w.jobs[id].kind in {Transcode, Upload} ==> MediaGuard(Opened(w, id, now), id)
  {
    hide Originals.Inv, TranscodeWork, UploadWork, DeleteWork, ValidMp4;
    Originals.StepKeeps(w, ClaimJob(id, now));
    var claimed := Do(w, ClaimJob(id, now));
    WorkStep(claimed);
    GoodRow(w);
    NoCleanup(w, id);
    var begun := DoWork(claimed);
    WorkStep(begun);
    var working := Opened(w, id, now);
    assert DoWork(begun) == working;
    hide Do, Enabled, DoWork;
    Arrived(working, now);
    First(begun, Work, [], now, working);
    First(claimed, Work, [Work] + [], now, working);
    ClaimIsPossible(w, file, id, now);
    First(w, ClaimJob(id, now), [Work] + ([Work] + []), now, working);
    steps := [ClaimJob(id, now)] + ([Work] + ([Work] + []));
  }

  lemma ClaimIsPossible(w: World, file: Mp4, id: nat, now: int)
    requires Rested(w, file) && FirstDue(w.jobs, id, now)
    ensures Enabled(w, ClaimJob(id, now))
  {
  }

  lemma NoCleanup(w: World, id: nat)
    requires Originals.Inv(w) && CompleteOrLater(RowOf(w).state) && id < |w.jobs|
    ensures w.jobs[id].kind !in {DeleteRecording, DeleteOrphanObject}
  {
  }

  /** A handler that came to its end is written off, and the worker rests again. */
  lemma ClosesJob(w: World, file: Mp4, id: nat, now: int)
    requires Originals.Inv(w) && w.pc.Ending? && w.pc.id == id && w.pc.result in {Returned, RaisedError}
    requires !w.stopping && CompleteOrLater(RowOf(w).state) && Sweep.SourceKept(w) && FitsTake(w, file)
    requires id < |w.jobs| && LeaseHeld(w, id) && OnlyRunning(w.jobs, id)
    requires w.pc.result == RaisedError ==> w.jobs[id].kind != Transcode
    ensures Enabled(w, FinishJob(now))
    ensures var after := Do(w, FinishJob(now));
      && Rested(after, file) && after.rows == w.rows && after.disk == w.disk && after.remote == w.remote
      && after.written == w.written && |after.jobs| == |w.jobs| && !Due(after.jobs[id], now)
      && forall i :: 0 <= i < |w.jobs| && i != id ==> after.jobs[i] == w.jobs[i]
  {
    hide Originals.Inv, ValidMp4;
    Originals.StepKeeps(w, FinishJob(now));
  }

  /** The job's turn is over; what it left behind. */
  predicate Passed(w: World, after: World, id: nat, now: int, kind: Kind, file: Mp4) {
    && Rested(after, file) && after.written == w.written && WorkedOff(w.jobs, after.jobs, id, now, kind)
    && (RowOf(w).manifest.Some? ==> RowOf(after).manifest.Some?)
    && (Published(w) ==> Published(after))
  }

  lemma KeepsSource(w: World, after: World)
    requires Sweep.SourceKept(w) && after.disk.chunks == w.disk.chunks && after.rows == w.rows
    ensures Sweep.SourceKept(after)
  {
  }

  /** A turn of the worker: the job is opened, its handler comes to its end, and it is finished. */
  lemma Turn(w: World, opening: seq<Step>, busy: World, finish: seq<Step>, ended: World, now: int)
      returns (steps: seq<Step>)
    requires Goes(w, opening, now, busy) && Goes(busy, finish, now, ended) && Enabled(ended, FinishJob(now))
    ensures Goes(w, steps, now, Do(ended, FinishJob(now)))
  {
    hide Do, Enabled, Goes;
    var after := Do(ended, FinishJob(now));
    Arrived(after, now);
    First(ended, FinishJob(now), [], now, after);
    Joined(busy, finish, now, ended, [FinishJob(now)] + [], after);
    Joined(w, opening, now, busy, finish + ([FinishJob(now)] + []), after);
    steps := opening + (finish + ([FinishJob(now)] + []));
  }

  lemma TranscodePass(w: World, file: Mp4, id: nat, now: int) returns (steps: seq<Step>, after: World)
    requires Rested(w, file) && FirstDue(w.jobs, id, now) && w.jobs[id].kind == Transcode
    ensures Goes(w, steps, now, after) && Passed(w, after, id, now, Upload, file)
    ensures Published(after) && SomeActive(after.jobs, Upload, SESSION)
  {
    hide Originals.Inv, ValidMp4, Goes, SourceWhole, Do, Enabled, Passed;
    var opening := OpensJob(w, file, id, now);
    var busy := Opened(w, id, now);
    KeepsSource(w, busy);
    assert Transcodes(busy, file);
    var finish, ended := TranscodeFinishes(busy, file, now);
    TranscodeIsClosed(w, ended, file, id, now);
    after := Do(ended, FinishJob(now));
    steps := Turn(w, opening, busy, finish, ended, now);
  }

  lemma TranscodeIsClosed(w: World, ended: World, file: Mp4, id: nat, now: int)
    requires Rested(w, file) && FirstDue(w.jobs, id, now) && w.jobs[id].kind == Transcode
    requires TranscodeEnded(ended, id, Opened(w, id, now).jobs, file) && ended.written == w.written
    ensures Enabled(ended, FinishJob(now))
    ensures Passed(w, Do(ended, FinishJob(now)), id, now, Upload, file)
    ensures Published(Do(ended, FinishJob(now))) && SomeActive(Do(ended, FinishJob(now)).jobs, Upload, SESSION)
  {
    var busy := Opened(w, id, now).jobs;
    Originals.GuardMeansComplete(ended, id);
    hide Originals.Inv, ValidMp4, SourceWhole;
    ClosesJob(ended, file, id, now);
    var after := Do(ended, FinishJob(now)).jobs;
    assert SomeActive(ended.jobs, Upload, SESSION) by {
      if !SomeActive(busy, Upload, SESSION) {
        assert IsActiveFor(ended.jobs[|busy|], Upload, SESSION);
      }
    }
    var i :| 0 <= i < |ended.jobs| && IsActiveFor(ended.jobs[i], Upload, SESSION);
    assert IsActiveFor(after[i], Upload, SESSION);
    hide Do;
    assert WorkedOff(w.jobs, after, id, now, Upload);
  }

  lemma UploadPass(w: World, file: Mp4, id: nat, now: int, kind: Kind) returns (steps: seq<Step>, after: World)
    requires Rested(w, file) && FirstDue(w.jobs, id, now) && w.jobs[id].kind == Upload
    ensures Goes(w, steps, now, after) && Passed(w, after, id, now, kind, file)
    ensures RowOf(w).manifest.Some? ==> RowOf(after).state == Uploaded
  {
    hide Originals.Inv, ValidMp4, Goes, SourceWhole, Do, Enabled, Passed;
    var opening := OpensJob(w, file, id, now);
    var busy := Opened(w, id, now);
    var finish: seq<Step>;
    var ended: World;
    if Originals.LocalValid(w) {
      assert Uploads(busy);
      finish, ended := UploadFinishes(busy, now);
      UploadIsClosed(w, ended, file, id, now, kind);
    } else {
      WorkStep(busy);
      ended := DoWork(busy);
      FailsWithoutVideo(w, busy);
      finish := [Work] + [];
      Arrived(ended, now);
      First(busy, Work, [], now, ended);
      UploadIsClosed(w, ended, file, id, now, kind);
    }
    after := Do(ended, FinishJob(now));
    steps := Turn(w, opening, busy, finish, ended, now);
  }

  lemma FailsWithoutVideo(w: World, busy: World)
    requires Originals.Inv(w) && CompleteOrLater(RowOf(w).state) && !Originals.LocalValid(w)
    requires busy.pc.InUpload? && busy.pc.u == CheckLocal && busy.rows == w.rows && busy.disk == w.disk
    requires busy.pc.facts == FactsOf(RowOf(w))
    ensures DoWork(busy) == Fail(busy, busy.pc.id) && RowOf(w).manifest.None?
  {
    hide ValidMp4;
  }

  lemma UploadIsClosed(w: World, ended: World, file: Mp4, id: nat, now: int, kind: Kind)
    requires Rested(w, file) && FirstDue(w.jobs, id, now) && w.jobs[id].kind == Upload
    requires Originals.Inv(ended) && ended.pc.Ending? && ended.pc.id == id && OnlyUploads(Opened(w, id, now), ended)
    requires (ended.pc.result == Returned && RowOf(ended).state == Uploaded)
      || (ended.pc.result == RaisedError && RowOf(ended) == RowOf(w))
    ensures Enabled(ended, FinishJob(now))
    ensures Passed(w, Do(ended, FinishJob(now)), id, now, kind, file)
    ensures RowOf(Do(ended, FinishJob(now))) == RowOf(ended)
  {
    hide Originals.Inv, ValidMp4, SourceWhole;
    ClosesJob(ended, file, id, now);
    hide Do;
  }

  lemma OtherPass(w: World, file: Mp4, id: nat, now: int, kind: Kind) returns (steps: seq<Step>, after: World)
    requires Rested(w, file) && FirstDue(w.jobs, id, now) && w.jobs[id].kind !in {Transcode, Upload}
    ensures Goes(w, steps, now, after) && Passed(w, after, id, now, kind, file)
  {
    var opening := OpensJob(w, file, id, now);
    var ended := Opened(w, id, now);
    hide Originals.Inv, ValidMp4, SourceWhole, Goes;
    ClosesJob(ended, file, id, now);
    after := Do(ended, FinishJob(now));
    hide Do, Enabled;
    Arrived(after, now);
    First(ended, FinishJob(now), [], now, after);
    Joined(w, opening, now, ended, [FinishJob(now)] + [], after);
    steps := opening + ([FinishJob(now)] + []);
  }

  /** Working off what is ahead in the queue, up to the first due job of this kind. */
  predicate Reached(w: World, after: World, file: Mp4) {
    && Rested(after, file) && after.written == w.written
    && (RowOf(w).manifest.Some? ==> RowOf(after).manifest.Some?)
    && (Published(w) ==> Published(after))
  }

  lemma {:induction false} WorksUpTo(w: World, file: Mp4, kind: Kind, now: int)
      returns (steps: seq<Step>, after: World, id: nat)
    requires Rested(w, file) && kind in {Transcode, Upload} && SomeDue(w.jobs, kind, now)
    ensures Goes(w, steps, now, after) && Reached(w, after, file)
    ensures FirstDue(after.jobs, id, now) && after.jobs[id].kind == kind
    decreases |DueOthers(w.jobs, kind, now)|
  {
    id := FirstDueExists(w.jobs, kind, now);
    hide Rested, Published, Goes;
    if w.jobs[id].kind == kind {
      Arrived(w, now);
      steps, after := [], w;
    } else {
      var first: seq<Step>;
      var middle: World;
      if w.jobs[id].kind == Transcode {
        first, middle := TranscodePass(w, file, id, now);
      } else if w.jobs[id].kind == Upload {
        first, middle := UploadPass(w, file, id, now, kind);
      } else {
        first, middle := OtherPass(w, file, id, now, kind);
      }
      WorkedOffDrops(w.jobs, middle.jobs, id, now, kind);
      var rest: seq<Step>;
      rest, after, id := WorksUpTo(middle, file, kind, now);
      Joined(w, first, now, middle, rest, after);
      steps := first + rest;
    }
  }

  // ------------------------------------------------------------ a transcoded take has its manifest

  predicate TranscodedIsListed(w: World) {
    RowOf(w).state == Transcoded ==> RowOf(w).manifest.Some?
  }

  lemma RowStepsKeepListed(w: World, step: Step)
    requires TranscodedIsListed(w) && Enabled(w, step) && (step.UploadSlice? || step.RowRoute?)
    ensures TranscodedIsListed(Do(w, step))
  {
    hide HeaderOk, CompletenessOk, MissingForFinal;
  }

  lemma WorkKeepsListed(w: World)
    requires TranscodedIsListed(w) && CanWork(w)
    ensures TranscodedIsListed(DoWork(w))
  {
    hide ValidMp4, MediaGuard, SourceWhole, HeaderOk, AfterEnqueue, ManifestFor, HoldsLease;
  }

  lemma StepKeepsListed(w: World, step: Step)
    requires TranscodedIsListed(w) && Enabled(w, step)
    ensures TranscodedIsListed(Do(w, step))
  {
    if step.UploadSlice? || step.RowRoute? {
      RowStepsKeepListed(w, step);
    } else if step.Work? {
      hide DoWork;
      WorkKeepsListed(w);
    } else {
      hide AfterUploadSlice, RowLifecycle.After, DoWork, GivesUp, AfterRecover, AfterEnqueue, HoldsLease;
    }
  }

  lemma {:induction false} EveryRunKeepsListed(w: World, steps: seq<Step>)
    requires TranscodedIsListed(w) && RecordingWorker.PossibleRun(w, steps)
    ensures TranscodedIsListed(AfterRun(w, steps))
    decreases |steps|
  {
    hide TranscodedIsListed, Enabled, Do;
    if steps != [] {
      StepKeepsListed(w, steps[0]);
      EveryRunKeepsListed(Do(w, steps[0]), steps[1..]);
    }
  }

  // ------------------------------------------------------------ from any state

  /** A recovery may only turn a transcoding row into a failed one. */
  lemma RestartRests(w: World, file: Mp4, now: int)
    requires Originals.Inv(w) && LocksKnown(w) && CompleteOrLater(RowOf(w).state)
    requires Sweep.SourceKept(w) && FitsTake(w, file)
    requires 0 <= now && forall i :: 0 <= i < |w.jobs| ==> w.jobs[i].runAfter <= now
    ensures var r := AfterRestart(w.(pc := Down), now);
      && Rested(r, file) && r.written == w.written && RowOf(r).manifest == RowOf(w).manifest
      && forall i :: 0 <= i < |r.jobs| && r.jobs[i].status == Queued ==> Due(r.jobs[i], now)
  {
    var down := w.(pc := Down);
    Originals.StepKeeps(w, Crash);
    assert Do(w, Crash) == down;
    RestartFreesQueue(down, now);
    Originals.RestartKeeps(down, now);
    RestartKeepsTake(down, now);
    hide Originals.Inv, AfterRestart, ValidMp4, SourceWhole;
  }

  lemma RestartKeepsTake(w: World, now: int)
    requires CompleteOrLater(RowOf(w).state)
    ensures var r := AfterRestart(w, now);
      && CompleteOrLater(RowOf(r).state) && r.disk == w.disk && r.written == w.written
      && RowOf(r).(state := RowOf(w).state) == RowOf(w)
  {
    hide GivesUp, AfterRecover;
  }

  /** The request is queued and due. */
  lemma RequestIsDue(w: World, file: Mp4, kind: Kind, now: int)
    requires Rested(w, file) && kind in {Transcode, Upload}
    requires forall i :: 0 <= i < |w.jobs| && w.jobs[i].status == Queued ==> Due(w.jobs[i], now)
    ensures Enabled(w, EnqueueJob(kind, now))
    ensures var q := Do(w, EnqueueJob(kind, now));
      Rested(q, file) && q.written == w.written && RowOf(q) == RowOf(w) && SomeDue(q.jobs, kind, now)
  {
    Originals.StepKeeps(w, EnqueueJob(kind, now));
    hide Originals.Inv, ValidMp4, SourceWhole;
    var after := AfterEnqueue(w.jobs, kind, SESSION, now);
    if SomeActive(w.jobs, kind, SESSION) {
      var i :| 0 <= i < |w.jobs| && IsActiveFor(w.jobs[i], kind, SESSION);
    } else {
      assert after[|w.jobs|].kind == kind && Due(after[|w.jobs|], now);
    }
  }

  lemma UploadIsDue(jobs: seq<Job>, now: int)
    requires SomeActive(jobs, Upload, SESSION) && NoneRunning(jobs)
    requires forall i :: 0 <= i < |jobs| ==> jobs[i].runAfter <= now
    ensures SomeDue(jobs, Upload, now)
  {
    var i :| 0 <= i < |jobs| && IsActiveFor(jobs[i], Upload, SESSION);
  }

  /** The queue is worked off up to the upload job, and the upload job itself. */
  lemma FromTheManifest(w: World, file: Mp4, now: int) returns (steps: seq<Step>, after: World)
    requires Rested(w, file) && RowOf(w).manifest.Some? && SomeDue(w.jobs, Upload, now)
    ensures Goes(w, steps, now, after) && Reached(w, after, file) && RowOf(after).state == Uploaded
  {
    hide Rested, Goes, Published, WorkedOff;
    var ahead, middle, id := WorksUpTo(w, file, Upload, now);
    var upload: seq<Step>;
    upload, after := UploadPass(middle, file, id, now, Upload);
    Joined(w, ahead, now, middle, upload, after);
    steps := ahead + upload;
  }

  /** The same up to the transcode job, and then, once its turn comes, the upload. */
  lemma FromTheSource(w: World, file: Mp4, now: int)
      returns (steps: seq<Step>, middle: World, later: int, rest: seq<Step>, after: World)
    requires Rested(w, file) && SomeDue(w.jobs, Transcode, now)
    ensures now <= later && Goes(w, steps, now, middle) && Goes(middle, rest, later, after)
    ensures Reached(w, after, file) && RowOf(after).state == Uploaded && Published(after)
  {
    hide Goes, WorkedOff, Sweep.SourceKept, FitsTake, Originals.Inv;
    var ahead, first, id := WorksUpTo(w, file, Transcode, now);
    var transcode: seq<Step>;
    transcode, middle := TranscodePass(first, file, id, now);
    Joined(w, ahead, now, first, transcode, middle);
    steps := ahead + transcode;
    later := LateEnough(middle.jobs, now);
    UploadIsDue(middle.jobs, later);
    rest, after := FromTheManifest(middle, file, later);
  }

  /** What the state of a take admits: an upload once it is transcoded, a transcode before. */
  function Request(state: RecState): Kind {
    if state == Transcoded then Upload else Transcode
  }

  lemma UploadedMeans(w: World, file: Mp4)
    requires Rested(w, file) && RowOf(w).state == Uploaded
    ensures ValidMp4(w.remote, RowOf(w).durationMs)
    ensures RowOf(w).manifest.Some? ==> Originals.Listed(RowOf(w).manifest.value, w.written)
  {
    hide ValidMp4;
  }

  lemma RequestedIsUploaded(w: World, file: Mp4, kind: Kind, now: int) returns (pass: seq<Step>, after: World)
    requires Rested(w, file) && kind in {Transcode, Upload} && SomeDue(w.jobs, kind, now)
    requires kind == Upload ==> RowOf(w).manifest.Some?
    ensures RecordingWorker.PossibleRun(w, pass) && Scheduled(w, pass, now) && AfterRun(w, pass) == after
    ensures forall step :: step in pass ==> Undisturbed(step)
    ensures Reached(w, after, file) && RowOf(after).state == Uploaded && RowOf(after).manifest.Some?
    ensures kind == Transcode ==> Published(after)
  {
    hide Goes, Rested, Undisturbed, RecordingWorker.PossibleRun, Scheduled, AfterRun;
    if kind == Upload {
      pass, after := FromTheManifest(w, file, now);
      GoesIsScheduled(w, pass, now, now, after);
      GoesAlone(w, pass, now, after);
    } else {
      var steps, middle, later, rest;
      steps, middle, later, rest, after := FromTheSource(w, file, now);
      GoesIsScheduled(middle, rest, now, later, after);
      GoesThen(w, steps, now, now, middle, rest);
      GoesAlone(w, steps, now, middle);
      GoesAlone(middle, rest, later, after);
      pass := steps + rest;
    }
  }

  /**
   * From every reachable state of a completed take whose source is whole, in the middle of any attempt:
   * restart the process late enough and ask for the processing that the state admits. The worker alone,
   * on its own clock and in the order of its queue, with FFmpeg producing a valid video, then stores
   * that video in the object store. A take that was not yet transcoded has every slice ever stored in
   * its manifest by then, and no original left on disk.
   */
  lemma CompleteTakeCanBeUploaded(before: seq<Step>, file: Mp4, clock: nat) returns (now: int, pass: seq<Step>)
    requires RecordingWorker.PossibleRun(Start, before)
    requires var w := AfterRun(Start, before);
      CompleteOrLater(RowOf(w).state) && RowOf(w).state != Uploaded && Sweep.SourceKept(w) && FitsTake(w, file)
    ensures forall step :: step in pass ==> Undisturbed(step)
    ensures var w := AfterRun(Start, before);
      var steps := [Crash, Restart(now)] + ([EnqueueJob(Request(RowOf(w).state), now)] + pass);
      && RecordingWorker.PossibleRun(w, steps) && Scheduled(w, steps, clock)
      && var after := AfterRun(w, steps);
      && RowOf(after).state == Uploaded && ValidMp4(after.remote, RowOf(after).durationMs)
      && RowOf(after).manifest.Some? && Originals.Listed(RowOf(after).manifest.value, w.written)
      && (RowOf(w).state != Transcoded ==> after.disk.chunks == map[])
  {
    Originals.EveryRunKeeps(Start, before);
    EveryRunKeepsLocks(Start, before);
    EveryRunKeepsListed(Start, before);
    var w := AfterRun(Start, before);
    var kind := Request(RowOf(w).state);
    now := LateEnough(w.jobs, clock);
    RestartRests(w, file, now);
    var restarted := AfterRestart(w.(pc := Down), now);
    RequestIsDue(restarted, file, kind, now);
    var asked := Do(restarted, EnqueueJob(kind, now));
    hide Originals.Inv, Originals.Listed, Sweep.SourceKept, FitsTake, ValidMp4, Rested, AfterRestart, AfterRun,
      RecordingWorker.PossibleRun, Scheduled, LocksKnown, Undisturbed, Do, Enabled;
    var after: World;
    pass, after := RequestedIsUploaded(asked, file, kind, now);
    AsksFirst(restarted, kind, now, pass);
    AfterACrash(w, clock, now, [EnqueueJob(kind, now)] + pass);
    UploadedMeans(after, file);
  }

  lemma AsksFirst(w: World, kind: Kind, now: int, pass: seq<Step>)
    requires Enabled(w, EnqueueJob(kind, now))
    requires RecordingWorker.PossibleRun(Do(w, EnqueueJob(kind, now)), pass)
    requires Scheduled(Do(w, EnqueueJob(kind, now)), pass, now)
    ensures var steps := [EnqueueJob(kind, now)] + pass;
      && RecordingWorker.PossibleRun(w, steps) && Scheduled(w, steps, now)
      && AfterRun(w, steps) == AfterRun(Do(w, EnqueueJob(kind, now)), pass)
  {
    hide Do, Enabled;
    assert ([EnqueueJob(kind, now)] + pass)[1..] == pass;
  }
}

/**
 * One take, end to end: the browser's database and recorder, a network that may lose, repeat and delay
 * every message, and the server's row and slice store. Each step is one database transaction of the
 * browser, or one server route, sweep or worker transaction.
 */
module TakeProtocol {
  import opened Common
  import opened RecordingIntegrity
  import opened RecordingFiles
  import opened UploadQueue

  /** Draining: the recorder stopped and its last slices are being stored. Committed: the stop is declared. */
  datatype Phase = NoRecorder | Running | Draining | Committed

  predicate Storing(phase: Phase) {
    phase in {Running, Draining}
  }

  datatype Chunk = Chunk(data: Bytes, refused: Option<UploadBlock>)

  /**
   * How far pages without the recorder have got with a reload. `sawRow`: one read an open row and has
   * still to ask for the lock. `sawFailed`: the same, and the row was that of a start() that threw.
   * `reloading`: one passed its checks and has still to write.
   */
  datatype Others = Others(sawRow: bool, sawFailed: bool, reloading: bool)

  datatype Browser = Browser(
    meta: Option<Meta>,
    chunks: map<nat, Chunk>,
    phase: Phase,
    lock: bool,
    revoked: bool,
    replaced: bool,
    stopAsLost: bool,
    interruptPending: bool,   // a revocation saw a running recorder and has still to write
    replacePending: bool,     // the same for a takeover
    others: Others,           // what pages without the recorder are about to do
    pendingTake: Option<nat>, // the claim this page made and has not started recording on
    granted: bool,
    abandoned: Option<int>)   // a start() that threw: its meta is written and its lock dropped

  datatype Answer = Answer(payload: Payload, fin: FinState)

  datatype Refusal = UploadRefused(why: UploadReply) | FinalizeRefused(cause: FinalizeResult)

  /** Everything ever sent. A delivery does not use a message up, so repeats and delays are included. */
  datatype Net = Net(
    uploads: set<(nat, Bytes)>,
    finalizes: set<Payload>,
    acks: set<nat>,
    statuses: set<ServerStatus>,
    answers: set<Answer>,
    refusals: set<Refusal>)

  /** `recorded` and `ever` are history: the slices stored by the recorder, and the ones the server ever held. */
  datatype World = World(
    browser: Browser,
    net: Net,
    server: Take,
    verdicts: set<SweepVerdict>,
    recorded: seq<Bytes>,
    ever: set<nat>)

  const Start := World(
    Browser(None, map[], NoRecorder, false, false, false, false, false, false, Others(false, false, false), None,
            false, None),
    Net({}, {}, {}, {}, {}, {}), NoTake, {}, [], {})

  datatype Step =
    // browser
    | ClaimTake(id: nat, answered: bool)
    | StartRecorder(now: int)
    | StartThrows(now: int)
    | RemoveUnstarted(now: int)
    | StoreSlice(data: Bytes, endMs: nat)
    | StopRecorder
    | PageHide
    | Revoke
    | Replace
    | InterruptWrite(now: int)
    | ReplaceWrite(now: int)
    | CommitRecorderStop(now: int)
    | DropLock
    | Reload
    | ReadForReload
    | QueryLock(failed: bool)
    | FinishReload(told: Option<ServerStatus>, now: int)
    | StatusArrives(status: ServerStatus, now: int)
    | ListedDelete(status: ServerStatus, k: nat)
    | SendUpload(k: nat)
    | AckArrives(k: nat)
    | UploadFails(k: nat, data: Bytes, block: Option<UploadBlock>)
    | UploadLogin(now: int, remaining: seq<UploadBlock>)
    | PostFinalize(pending: nat, now: int)
    | AnswerArrives(answer: Answer, now: int)
    | FinalizeFails(block: Option<UploadBlock>, now: int)
    | Purge(now: int)
    // server
    | DeliverUpload(k: nat, data: Bytes, db: DbOutcome)
    | DeliverFinalize(payload: Payload)
    | ServeStatus
    | EndSession
    | SweepRead
    | SweepClaim(verdict: SweepVerdict)
    | WorkerWrite(state: RecState)
    | WriteManifest
    | TranscodeFails
    | LeaseRecovered
    | RemoveSlice(k: nat)
    | DeleteRoute
    | DeleteFiles
    | DeleteDone

  // ------------------------------------------------------------ helpers

  /** The row a readwrite transaction reads. Without a row the transaction writes nothing. */
  function Latest(w: World): Meta {
    if w.browser.meta.Some? then w.browser.meta.value else EmptyMeta(0)
  }

  function WithMeta(w: World, m: Meta): World {
    if w.browser.meta.None? then w else w.(browser := w.browser.(meta := Some(m)))
  }

  function RowOrFresh(take: Take): Row {
    if take.row.Some? then take.row.value else FreshRow
  }

  function WithRow(w: World, row: Row): World {
    if w.server.row.None? then w else w.(server := w.server.(row := Some(row)))
  }

  function DigestsOf(store: SliceStore): map<nat, Digest> {
    map k | k in store :: Sha256(store[k])
  }

  function Unblocked(chunks: map<nat, Chunk>): map<nat, Chunk> {
    map k | k in chunks ::
      if chunks[k].refused == Some(BlockUnauthorized) then chunks[k].(refused := None) else chunks[k]
  }

  function ServerTruth(take: Take): ServerStatus {
    ServerStatus(if take.row.Some? then take.row.value.fin else NotFinalized,
                 Received(RowOrFresh(take), take.store))
  }

  // ------------------------------------------------------------ steps

  /** When a step can happen. MediaRecorder.start() may throw at any time. */
  predicate Enabled(w: World, step: Step) {
    var b := w.browser;
    match step
    case ClaimTake(id, _) =>
      && b.phase == NoRecorder && b.meta.None?
      && (b.pendingTake == Some(id)
          || (b.pendingTake.None? && (w.server.row.Some? ==> w.server.row.value.takeId != Some(id))))
    case StartRecorder(_) => b.granted && b.meta.None? && b.phase == NoRecorder && !b.lock
    case StartThrows(_) => b.granted && b.meta.None? && b.phase == NoRecorder && !b.lock
    case RemoveUnstarted(_) => b.abandoned.Some?
    case StoreSlice(data, _) => b.phase in {Running, Draining} && data != []
    case StopRecorder => b.phase == Running
    case PageHide => b.phase == Running
    case InterruptWrite(_) => b.interruptPending
    case ReplaceWrite(_) => b.replacePending
    case CommitRecorderStop(_) => b.phase == Draining
    case DropLock => b.phase == Committed
    case ReadForReload => b.meta.Some?
    case QueryLock(failed) => (if failed then b.others.sawFailed else b.others.sawRow) && !b.lock
    case FinishReload(told, _) => b.others.reloading && (told.Some? ==> told.value in w.net.statuses)
    case StatusArrives(status, _) => status in w.net.statuses
    case ListedDelete(status, k) => status in w.net.statuses && k in status.received
    case SendUpload(k) => k in b.chunks && b.chunks[k].refused.None?
    case AckArrives(k) => k in w.net.acks
    case UploadFails(k, data, _) => (k, data) in w.net.uploads
    case PostFinalize(pending, now) => b.meta.Some? && FinalizeDue(b.meta.value, pending, now)
    case AnswerArrives(answer, _) =>
      answer in w.net.answers && b.meta.Some? && b.meta.value.payload == Some(answer.payload)
    case Purge(now) => b.meta.Some? && ShouldDiscardMeta(b.meta.value, now)
    case DeliverUpload(k, data, _) => (k, data) in w.net.uploads
    case DeliverFinalize(p) => p in w.net.finalizes
    case ServeStatus => w.server.row.Some? ==> !Tombstoned(w.server.row.value.state)
    case SweepRead => w.server.row.Some?
    case SweepClaim(v) => v in w.verdicts
    case WorkerWrite(st) => w.server.row.Some? && st in {Transcoding, Transcoded, Uploaded}
    case WriteManifest =>
      && w.server.row.Some? && w.server.row.value.manifest.None? && w.server.row.value.finalSeq.Some?
      && WorkerMayWrite(w.server.row.value)
      && w.server.store.Keys == Below(w.server.row.value.finalSeq.value + 1)
    case RemoveSlice(k) => w.server.row.Some? && w.server.row.value.manifest.Some? && k in w.server.store
    case DeleteFiles => w.server.row.Some? && Tombstoned(w.server.row.value.state)
    case _ => true
  }

  function AfterClaim(w: World, id: nat, answered: bool): World {
    var b := w.browser;
    if ClaimGranted(w.server, id) then
      w.(server := AfterClaimRoute(w.server, id),
         browser := b.(pendingTake := Some(id), granted := b.granted || answered))
    else
      w.(browser := b.(pendingTake := if answered then None else Some(id), granted := false))
  }

  function AfterStart(w: World, now: int): World {
    w.(browser := w.browser.(meta := Some(EmptyMeta(now)), phase := Running, lock := true, granted := false,
                             pendingTake := None))
  }

  /**
   * The lock taken, the row written, start() thrown and the lock dropped, at once: a page that reads the
   * row in between is one that reads it right after.
   */
  function AfterStartThrows(w: World, now: int): World {
    w.(browser := w.browser.(meta := Some(EmptyMeta(now)), granted := false, abandoned := Some(now)))
  }

  /** `deleteUnstartedMeta`, or the lost declaration when the row is no longer the untouched one. */
  function AfterRemoveUnstarted(w: World, now: int): World {
    var b := w.browser;
    var unstarted := b.meta.Some? && b.abandoned.Some? && b.meta.value.startedAt == b.abandoned.value
                     && b.meta.value.nextSequence == 0;
    var left := if unstarted || b.meta.None? then None else Some(PersistRecorderLost(b.meta.value, now));
    w.(browser := b.(meta := left, abandoned := None))
  }

  /** One transaction: the slice and the advanced counter commit together. */
  function AfterStoreSlice(w: World, data: Bytes, endMs: nat): World {
    var b := w.browser;
    var m := if b.meta.Some? then b.meta.value else EmptyMeta(endMs);
    w.(browser := b.(meta := Some(AfterStoredChunk(m, endMs)),
                     chunks := b.chunks[m.nextSequence := Chunk(data, None)]),
       recorded := w.recorded + [data])
  }

  function AfterStop(w: World, pagehide: bool): World {
    w.(browser := w.browser.(phase := Draining, stopAsLost := w.browser.stopAsLost || pagehide))
  }

  function AfterRevoke(w: World): World {
    var b := w.browser;
    w.(browser := b.(revoked := true, interruptPending := b.interruptPending || b.phase == Running))
  }

  function AfterReplace(w: World): World {
    var b := w.browser;
    w.(browser := b.(replaced := true, replacePending := b.replacePending || b.phase == Running,
                     pendingTake := None, granted := false))
  }

  function AfterInterruptWrite(w: World, now: int): World {
    WithMeta(w.(browser := w.browser.(interruptPending := false)),
             HoldForRecorderFlush(PersistInterrupted(Latest(w), now)))
  }

  function AfterReplaceWrite(w: World, now: int): World {
    WithMeta(w.(browser := w.browser.(replacePending := false)),
             HoldForRecorderFlush(PersistReplaced(Latest(w), now)))
  }

  function AfterCommitStop(w: World, now: int): World {
    var b := w.browser;
    WithMeta(w.(browser := b.(phase := Committed, stopAsLost := false)),
             CommitStop(Latest(w), b.stopAsLost, b.revoked, b.replaced, now))
  }

  function AfterDropLock(w: World): World {
    w.(browser := w.browser.(phase := NoRecorder, lock := false))
  }

  /** The recording page is gone: its recorder, its lock and its memory with it. */
  function AfterPageGone(w: World): World {
    w.(browser := w.browser.(phase := NoRecorder, lock := false, revoked := false, replaced := false,
                             stopAsLost := false, interruptPending := false, replacePending := false,
                             pendingTake := None, granted := false, abandoned := None))
  }

  /** Only an open row makes the page ask whether the lock is held. */
  function AfterReadForReload(w: World): World
    requires w.browser.meta.Some?
  {
    var m, others := w.browser.meta.value, w.browser.others;
    var after := if m.recorderState != RecorderRunning && !m.flushPending then others.(reloading := true)
                 else if w.browser.abandoned.Some? then others.(sawFailed := true)
                 else others.(sawRow := true);
    w.(browser := w.browser.(others := after))
  }

  /** A page that finds the lock free goes on; one that finds it held reads the row again later. */
  function AfterQueryLock(w: World): World {
    w.(browser := w.browser.(others := w.browser.others.(reloading := true)))
  }

  function AfterFinishReload(w: World, told: Option<ServerStatus>, now: int): World {
    WithMeta(w, MergeReload(Latest(w), told, now, false))
  }

  function AfterStatus(w: World, status: ServerStatus, now: int): World {
    WithMeta(w, ApplyServerStatus(Latest(w), status, now))
  }

  /** An ACK, or a status that lists the slice, removes the blob and nothing else. */
  function AfterDrop(w: World, k: nat): World {
    w.(browser := w.browser.(chunks := w.browser.chunks - {k}))
  }

  function AfterSend(w: World, k: nat): World
    requires k in w.browser.chunks
  {
    w.(net := w.net.(uploads := w.net.uploads + {(k, w.browser.chunks[k].data)}))
  }

  function AfterUploadFails(w: World, k: nat, data: Bytes, block: Option<UploadBlock>): World {
    var rewritten := w.(browser := w.browser.(chunks := w.browser.chunks[k := Chunk(data, block)]));
    if block.Some? then WithMeta(rewritten, NotePermanentFailure(Latest(w), block.value)) else rewritten
  }

  function AfterLogin(w: World, now: int, remaining: seq<UploadBlock>): World {
    WithMeta(w.(browser := w.browser.(chunks := Unblocked(w.browser.chunks))),
             ClearUnauthorized(Latest(w), now, remaining))
  }

  function AfterPost(w: World): World
    requires w.browser.meta.Some? && w.browser.meta.value.payload.Some?
  {
    w.(net := w.net.(finalizes := w.net.finalizes + {w.browser.meta.value.payload.value}))
  }

  function Answered(m: Meta, fin: FinState, now: int): Meta {
    ApplyServerStatus(NoteFinalizeAttempt(m, now, fin in {NotFinalized, Pending}), ServerStatus(fin, {}), now)
  }

  function AfterAnswer(w: World, answer: Answer, now: int): World {
    WithMeta(w, Answered(Latest(w), answer.fin, now))
  }

  function FinalizeFailed(m: Meta, block: Option<UploadBlock>, now: int): Meta {
    if block.Some? then NotePermanentFailure(m, block.value) else NoteFinalizeAttempt(m, now, true)
  }

  function AfterFinalizeFails(w: World, block: Option<UploadBlock>, now: int): World {
    WithMeta(w, FinalizeFailed(Latest(w), block, now))
  }

  function AfterPurge(w: World): World {
    w.(browser := w.browser.(meta := None, chunks := map[]))
  }

  function AfterDeliverUpload(w: World, k: nat, data: Bytes, db: DbOutcome): World {
    var reply := UploadDecision(w.server, k, data, Some(Sha256(data)));
    var after := w.(server := AfterUpload(w.server, k, data, Some(Sha256(data)), true, db));
    if Acked(reply) then after.(net := w.net.(acks := w.net.acks + {k}), ever := w.ever + {k})
    else after.(net := w.net.(refusals := w.net.refusals + {UploadRefused(reply)}))
  }

  function AfterDeliverFinalize(w: World, p: Payload): World {
    var reply := FinalizeReply(w.server, p);
    var after := AfterFinalizeRoute(w.server, p);
    if reply == Accepted then
      w.(server := after, net := w.net.(answers := w.net.answers + {Answer(p, RowOrFresh(after).fin)}))
    else w.(server := after, net := w.net.(refusals := w.net.refusals + {FinalizeRefused(reply)}))
  }

  function AfterServeStatus(w: World): World {
    w.(net := w.net.(statuses := w.net.statuses + {ServerTruth(w.server)}))
  }

  function AfterSweepRead(w: World): World {
    w.(verdicts := w.verdicts + {SweepDecision(RowOrFresh(w.server), w.server.store)})
  }

  function AfterWriteManifest(w: World): World {
    WithRow(w, AfterWorkerWrite(RowOrFresh(w.server), Transcoded, Some(DigestsOf(w.server.store))))
  }

  function AfterRemoveSlice(w: World, k: nat): World {
    w.(server := w.server.(store := w.server.store - {k}))
  }

  function AfterDeleteRequest(w: World): World {
    w.(server := w.server.(row := Some(AfterDeleteRoute(RowOrFresh(w.server)))))
  }

  function Do(w: World, step: Step): World
    requires Enabled(w, step)
  {
    match step
    case ClaimTake(id, answered) => AfterClaim(w, id, answered)
    case StartRecorder(now) => AfterStart(w, now)
    case StartThrows(now) => AfterStartThrows(w, now)
    case RemoveUnstarted(now) => AfterRemoveUnstarted(w, now)
    case StoreSlice(data, endMs) => AfterStoreSlice(w, data, endMs)
    case StopRecorder => AfterStop(w, false)
    case PageHide => AfterStop(w, true)
    case Revoke => AfterRevoke(w)
    case Replace => AfterReplace(w)
    case InterruptWrite(now) => AfterInterruptWrite(w, now)
    case ReplaceWrite(now) => AfterReplaceWrite(w, now)
    case CommitRecorderStop(now) => AfterCommitStop(w, now)
    case DropLock => AfterDropLock(w)
    case Reload => AfterPageGone(w)
    case ReadForReload => AfterReadForReload(w)
    case QueryLock(_) => AfterQueryLock(w)
    case FinishReload(told, now) => AfterFinishReload(w, told, now)
    case StatusArrives(status, now) => AfterStatus(w, status, now)
    case ListedDelete(_, k) => AfterDrop(w, k)
    case SendUpload(k) => AfterSend(w, k)
    case AckArrives(k) => AfterDrop(w, k)
    case UploadFails(k, data, block) => AfterUploadFails(w, k, data, block)
    case UploadLogin(now, remaining) => AfterLogin(w, now, remaining)
    case PostFinalize(_, _) => AfterPost(w)
    case AnswerArrives(answer, now) => AfterAnswer(w, answer, now)
    case FinalizeFails(block, now) => AfterFinalizeFails(w, block, now)
    case Purge(_) => AfterPurge(w)
    case DeliverUpload(k, data, db) => AfterDeliverUpload(w, k, data, db)
    case DeliverFinalize(p) => AfterDeliverFinalize(w, p)
    case ServeStatus => AfterServeStatus(w)
    case EndSession => w.(server := AfterEndRoute(w.server))
    case SweepRead => AfterSweepRead(w)
    case SweepClaim(v) => WithRow(w, AfterSweepClaim(RowOrFresh(w.server), v))
    case WorkerWrite(st) => WithRow(w, AfterWorkerWrite(RowOrFresh(w.server), st, None))
    case WriteManifest => AfterWriteManifest(w)
    case TranscodeFails => WithRow(w, AfterTranscodeError(RowOrFresh(w.server)))
    case LeaseRecovered => WithRow(w, AfterLeaseRecovered(RowOrFresh(w.server)))
    case RemoveSlice(k) => AfterRemoveSlice(w, k)
    case DeleteRoute => AfterDeleteRequest(w)
    case DeleteFiles => w.(server := w.server.(store := map[]))
    case DeleteDone => WithRow(w, AfterDeleteJob(RowOrFresh(w.server)))
  }

  predicate RecorderStep(step: Step) {
    step.ClaimTake? || step.StartRecorder? || step.StartThrows? || step.RemoveUnstarted? || step.StoreSlice?
    || step.StopRecorder? || step.PageHide? || step.Revoke? || step.Replace? || step.InterruptWrite?
    || step.ReplaceWrite? || step.CommitRecorderStop? || step.DropLock? || step.Reload?
  }

  predicate QueueStep(step: Step) {
    step.ReadForReload? || step.QueryLock? || step.FinishReload? || step.StatusArrives? || step.ListedDelete?
    || step.SendUpload? || step.AckArrives? || step.UploadFails? || step.UploadLogin? || step.PostFinalize?
    || step.AnswerArrives? || step.FinalizeFails? || step.Purge?
  }

  predicate PossibleRun(w: World, steps: seq<Step>)
    decreases |steps|
  {
    steps == [] ||
    (Enabled(w, steps[0]) && PossibleRun(Do(w, steps[0]), steps[1..]))
  }

  function AfterRun(w: World, steps: seq<Step>): World
    requires PossibleRun(w, steps)
    decreases |steps|
  {
    if steps == [] then w else AfterRun(Do(w, steps[0]), steps[1..])
  }

  lemma Prepend(w: World, step: Step, rest: seq<Step>)
    requires Enabled(w, step) && PossibleRun(Do(w, step), rest)
    ensures PossibleRun(w, [step] + rest)
    ensures AfterRun(w, [step] + rest) == AfterRun(Do(w, step), rest)
  {
    assert ([step] + rest)[1..] == rest;
  }

  lemma {:induction false} Continue(w: World, first: seq<Step>, second: seq<Step>)
    requires PossibleRun(w, first) && PossibleRun(AfterRun(w, first), second)
    ensures PossibleRun(w, first + second)
    ensures AfterRun(w, first + second) == AfterRun(AfterRun(w, first), second)
    decreases |first|
  {
    if first == [] {
      assert first + second == second;
    } else {
      var next := Do(w, first[0]);
      hide Do, Enabled;
      Continue(next, first[1..], second);
      assert (first + second)[1..] == first[1..] + second;
    }
  }

  lemma ThreeSteps(w: World, a: Step, b: Step, c: Step)
    requires Enabled(w, a) && Enabled(Do(w, a), b)
    requires Enabled(Do(Do(w, a), b), c)
    ensures PossibleRun(w, [a, b, c])
    ensures AfterRun(w, [a, b, c]) == Do(Do(Do(w, a), b), c)
  {
    hide Do, Enabled;
    var first := Do(w, a);
    var second := Do(first, b);
    Prepend(second, c, []);
    Prepend(first, b, [c] + []);
    Prepend(w, a, [b] + ([c] + []));
    assert [a] + ([b] + ([c] + [])) == [a, b, c];
  }
}

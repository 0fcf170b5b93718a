/**
 * A take that has not started and never will: a page read the row of its failed start, found the lock
 * free, and the server grants no retry any more.
 */
module TakeRetired {
  import opened Common
  import opened RecordingIntegrity
  import opened RecordingFiles
  import opened UploadQueue
  import opened TakeProtocol
  import opened TakeSafety
  import Delivery = TakeDelivery
  import Keeping = TakeKeeping
  import RowLifecycle

  /** A row of a take that never recorded declares, if anything, this one end. */
  predicate OnlyDeclares(m: Meta, end: Payload) {
    && FullPayload(m, true) == end && m.nextSequence == 0 && m.recorderState != RecorderStopped
    && (m.payload.Some? ==> m.payload == Some(end))
  }

  /** No recorder can start any more in this take. */
  ghost predicate Hopeless(w: World, end: Payload) {
    var b := w.browser;
    && w.server.row.Some? && Unclaimable(w.server.row.value, b.pendingTake)
    && w.recorded == [] && b.phase == NoRecorder && !b.granted && b.chunks == map[] && w.net.uploads == {}
    && end.finalSeq == -1 && w.net.finalizes <= {end}
    && (b.meta.Some? ==> OnlyDeclares(b.meta.value, end))
  }

  lemma ServerStaysUnclaimable(w: World, step: Step)
    requires Enabled(w, step) && Delivery.ServerStep(step) && w.server.row.Some?
    requires Unclaimable(w.server.row.value, w.browser.pendingTake)
    ensures Do(w, step).server.row.Some? && Unclaimable(Do(w, step).server.row.value, w.browser.pendingTake)
  {
    hide Received, UploadDecision, FinalizeDecision, CompletenessOk, MissingForFinal;
  }

  lemma StatusDeclaresOnly(m: Meta, end: Payload, status: ServerStatus, now: int)
    requires OnlyDeclares(m, end)
    ensures OnlyDeclares(ApplyServerStatus(m, status, now), end)
  {
  }

  lemma LossDeclaresOnly(m: Meta, end: Payload, now: int)
    requires OnlyDeclares(m, end)
    ensures OnlyDeclares(HoldForRecorderFlush(PersistInterrupted(m, now)), end)
    ensures OnlyDeclares(HoldForRecorderFlush(PersistReplaced(m, now)), end)
    ensures OnlyDeclares(PersistRecorderLost(m, now), end)
  {
  }

  lemma ReleaseDeclaresOnly(m: Meta, end: Payload, now: int)
    requires OnlyDeclares(m, end)
    ensures OnlyDeclares(ReleaseRecorderFlush(m, now), end)
  {
  }

  lemma ReloadDeclaresOnly(m: Meta, end: Payload, told: Option<ServerStatus>, now: int)
    requires OnlyDeclares(m, end)
    ensures OnlyDeclares(MergeReload(m, told, now, false), end)
  {
    var heard := if told.Some? then ApplyServerStatus(m, told.value, now) else m;
    if told.Some? {
      StatusDeclaresOnly(m, end, told.value, now);
    }
    hide OnlyDeclares, ApplyServerStatus, PersistRecorderLost, ReleaseRecorderFlush;
    LossDeclaresOnly(heard, end, now);
    ReleaseDeclaresOnly(heard, end, now);
    ReleaseDeclaresOnly(PersistRecorderLost(heard, now), end, now);
  }

  lemma AttemptDeclaresOnly(m: Meta, end: Payload, fin: FinState, block: Option<UploadBlock>, now: int)
    requires OnlyDeclares(m, end)
    ensures OnlyDeclares(FinalizeFailed(m, block, now), end)
    ensures OnlyDeclares(Answered(m, fin, now), end)
  {
    var noted := NoteFinalizeAttempt(m, now, fin in {NotFinalized, Pending});
    assert OnlyDeclares(noted, end) && OnlyDeclares(FinalizeFailed(m, block, now), end);
    hide OnlyDeclares, ApplyServerStatus, NoteFinalizeAttempt, FinalizeFailed;
    StatusDeclaresOnly(noted, end, ServerStatus(fin, {}), now);
  }

  lemma LoginDeclaresOnly(m: Meta, end: Payload, now: int, remaining: seq<UploadBlock>, block: UploadBlock)
    requires OnlyDeclares(m, end)
    ensures OnlyDeclares(ClearUnauthorized(m, now, remaining), end)
    ensures OnlyDeclares(NotePermanentFailure(m, block), end)
  {
  }

  /** A step of a browser that cannot record only rewrites its row, posts its one end, or asks again. */
  lemma WritesStayHopeless(w: World, step: Step, end: Payload)
    requires Hopeless(w, end) && Enabled(w, step)
    requires step.RemoveUnstarted? || step.InterruptWrite? || step.ReplaceWrite? || step.FinishReload?
      || step.StatusArrives? || step.UploadLogin? || step.AnswerArrives? || step.FinalizeFails?
    ensures Hopeless(Do(w, step), end)
  {
    if w.browser.meta.Some? {
      var m := w.browser.meta.value;
      match step
      case RemoveUnstarted(now) => LossDeclaresOnly(m, end, now);
      case InterruptWrite(now) => LossDeclaresOnly(m, end, now);
      case ReplaceWrite(now) => LossDeclaresOnly(m, end, now);
      case FinishReload(told, now) => ReloadDeclaresOnly(m, end, told, now);
      case StatusArrives(status, now) => StatusDeclaresOnly(m, end, status, now);
      case UploadLogin(now, remaining) => LoginDeclaresOnly(m, end, now, remaining, BlockChecksum);
      case AnswerArrives(answer, now) => AttemptDeclaresOnly(m, end, answer.fin, None, now);
      case FinalizeFails(block, now) => AttemptDeclaresOnly(m, end, Pending, block, now);
    }
    UnblockedEmpty();
    hide OnlyDeclares, Unclaimable, MergeReload, PersistRecorderLost, ApplyServerStatus, Answered, FinalizeFailed,
      ClearUnauthorized, HoldForRecorderFlush, PersistInterrupted, PersistReplaced, Unblocked;
  }

  lemma StaysHopeless(w: World, step: Step, end: Payload)
    requires Hopeless(w, end) && Enabled(w, step)
    ensures Hopeless(Do(w, step), end)
  {
    if Delivery.ServerStep(step) {
      ServerStaysUnclaimable(w, step);
      Delivery.ServerStepShape(w, step);
      hide Do, Enabled, OnlyDeclares, Unclaimable;
    } else if step.RemoveUnstarted? || step.InterruptWrite? || step.ReplaceWrite? || step.FinishReload?
              || step.StatusArrives? || step.UploadLogin? || step.AnswerArrives? || step.FinalizeFails? {
      WritesStayHopeless(w, step, end);
    } else {
      OthersStayHopeless(w, step, end);
    }
  }

  lemma OthersStayHopeless(w: World, step: Step, end: Payload)
    requires Hopeless(w, end) && Enabled(w, step) && !Delivery.ServerStep(step)
    requires !(step.RemoveUnstarted? || step.InterruptWrite? || step.ReplaceWrite? || step.FinishReload?
               || step.StatusArrives? || step.UploadLogin? || step.AnswerArrives? || step.FinalizeFails?)
    ensures Hopeless(Do(w, step), end)
  {
    hide CommitStop, AfterStoredChunk;
  }

  // ------------------------------------------------------------ its answers

  ghost predicate Stranded(w: World, end: Payload) {
    && Keeping.Inv(w) && Hopeless(w, end) && Delivery.RowMatches(w) && Delivery.Refusals(w)
    && RowLifecycle.ValidPayload(end)
  }

  /** The server holds nothing, so it accepts the one declaration unless the take is deleted. */
  lemma EndIsAnswered(w: World, end: Payload)
    requires Stranded(w, end) && end in w.net.finalizes
    ensures w.server.row.Some?
    ensures FinalizeReply(w.server, end) == Accepted
      || (FinalizeReply(w.server, end) == DeletedConflict && Keeping.TombstonedTake(w.server))
    ensures Delivery.RowMatches(AfterDeliverFinalize(w, end)) && Delivery.Refusals(AfterDeliverFinalize(w, end))
  {
    assert w.server.store.Keys <= w.ever <= Below(|w.recorded|);
    assert w.server.store == map[];
    if FinalizeReply(w.server, end) == Accepted {
      Delivery.AcceptedMatches(w, end);
    }
    hide Keeping.Inv, AfterAccepted, FinalizeDecision;
  }

  lemma ServerKeepsAnswers(w: World, step: Step, end: Payload)
    requires Stranded(w, end) && Enabled(w, step) && Delivery.ServerStep(step)
    ensures Delivery.RowMatches(Do(w, step)) && Delivery.Refusals(Do(w, step))
  {
    Delivery.ServerStepShape(w, step);
    if step.DeliverFinalize? {
      EndIsAnswered(w, end);
    } else {
      Delivery.ServerStepKeepsDeclared(w, step);
    }
    hide Keeping.Inv;
  }

  lemma BrowserKeepsAnswers(w: World, step: Step, end: Payload)
    requires Stranded(w, end) && Enabled(w, step) && !Delivery.ServerStep(step) && Hopeless(Do(w, step), end)
    ensures Delivery.RowMatches(Do(w, step)) && Delivery.Refusals(Do(w, step))
  {
    if RecorderStep(step) {
      Delivery.RecorderKeepsRow(w, step);
    } else {
      Delivery.QueueLeavesServer(w, step);
      PostsOnlyGrow(w, step);
    }
    hide Do, Enabled, Keeping.Inv;
  }

  lemma PostsOnlyGrow(w: World, step: Step)
    requires Enabled(w, step) && QueueStep(step)
    ensures w.net.finalizes <= Do(w, step).net.finalizes
  {
    Delivery.QueueLeavesServer(w, step);
    if !step.PostFinalize? {
      hide Do, Enabled;
    }
  }

  lemma StaysStranded(w: World, step: Step, end: Payload)
    requires Stranded(w, end) && Enabled(w, step)
    ensures Stranded(Do(w, step), end)
  {
    StaysHopeless(w, step, end);
    Keeping.StepKeeps(w, step);
    if Delivery.ServerStep(step) {
      ServerKeepsAnswers(w, step, end);
    } else {
      BrowserKeepsAnswers(w, step, end);
    }
    hide Keeping.Inv, Hopeless, Do, Enabled;
  }

  /** The page that finds the lock free can do no harm any more. */
  lemma BecomesStranded(w: World)
    requires Delivery.Inv(w) && Enabled(w, QueryLock(true)) && Delivery.Strands(w, QueryLock(true))
    requires !RetryPossible(w)
    ensures var end := if w.browser.meta.Some? then FullPayload(w.browser.meta.value, true) else Payload(-1, 0, 0, true);
      Stranded(AfterQueryLock(w), end)
  {
    Keeping.StepKeeps(w, QueryLock(true));
    assert w.server.store.Keys <= w.ever <= Below(|w.recorded|);
    assert w.server.store == map[];
    hide Keeping.Inv;
  }

  // ------------------------------------------------------------ every run without an intrusion

  /** What every such run keeps: the declaration is sound, or nothing can be recorded any more. */
  ghost predicate Safe(w: World) {
    Delivery.Inv(w) || exists end :: Stranded(w, end)
  }

  lemma SafeStepKeeps(w: World, step: Step)
    requires Safe(w) && Enabled(w, step) && !Intrudes(w, step)
    ensures Safe(Do(w, step))
  {
    hide Delivery.Inv, Stranded, Do, Enabled;
    if !Delivery.Inv(w) {
      var end :| Stranded(w, end);
      StaysStranded(w, step, end);
    } else if Delivery.Strands(w, step) {
      BecomesStranded(w);
      QueryStep(w);
    } else {
      Delivery.StepKeeps(w, step);
    }
  }

  lemma QueryStep(w: World)
    ensures Enabled(w, QueryLock(true)) ==> Do(w, QueryLock(true)) == AfterQueryLock(w)
  {
  }

  /** No page that read the row of a failed start finds the lock free while the take can still be retried. */
  predicate Unintruded(w: World, steps: seq<Step>)
    requires PossibleRun(w, steps)
    decreases |steps|
  {
    steps != [] ==> !Intrudes(w, steps[0]) && Unintruded(Do(w, steps[0]), steps[1..])
  }

  lemma {:induction false} EveryRunKeeps(w: World, steps: seq<Step>)
    requires Safe(w) && PossibleRun(w, steps) && Unintruded(w, steps)
    ensures Safe(AfterRun(w, steps))
    decreases |steps|
  {
    hide Safe, Enabled, Do, Intrudes;
    if steps != [] {
      SafeStepKeeps(w, steps[0]);
      EveryRunKeeps(Do(w, steps[0]), steps[1..]);
    }
  }

  lemma Reachable(steps: seq<Step>)
    requires PossibleRun(Start, steps) && Unintruded(Start, steps)
    ensures Safe(AfterRun(Start, steps))
  {
    assert Delivery.Inv(Start);
    EveryRunKeeps(Start, steps);
  }
}

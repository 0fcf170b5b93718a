/** When every declaration the browser posts covers every slice of the take. */
module TakeFrontier {
  import opened Common
  import opened RecordingIntegrity
  import opened RecordingFiles
  import opened UploadQueue
  import opened TakeProtocol
  import opened TakeSafety
  import Delivery = TakeDelivery
  import Keeping = TakeKeeping
  import Retired = TakeRetired

  /** Every posted declaration covers every slice stored so far, and all posts are one payload. */
  ghost predicate Frontier(w: World) {
    && (forall p :: p in w.net.finalizes ==> |w.recorded| <= p.finalSeq + 1)
    && (forall p, q :: p in w.net.finalizes && q in w.net.finalizes ==> p == q)
  }

  lemma SafeIsCovered(w: World)
    requires Retired.Safe(w)
    ensures Frontier(w) && Delivery.Refusals(w)
  {
    hide Keeping.Inv;
  }

  /**
   * Through normal stop, revocation, takeover, pagehide, reload and failed starts: no slice is ever
   * stored past a posted end, in every run in which no page that read the row of a failed start finds
   * the lock free while the take can still be retried.
   */
  lemma DeclarationFrontier(steps: seq<Step>)
    requires PossibleRun(Start, steps) && Retired.Unintruded(Start, steps)
    ensures Frontier(AfterRun(Start, steps))
  {
    Retired.Reachable(steps);
    SafeIsCovered(AfterRun(Start, steps));
  }

  /**
   * In those runs the server never answers with a sequence past the end, an end below a stored slice, a
   * conflict or a checksum failure: whatever it refuses, it refuses because the take is being deleted.
   */
  lemma OnlyDeletionIsRefused(steps: seq<Step>)
    requires PossibleRun(Start, steps) && Retired.Unintruded(Start, steps)
    ensures AfterRun(Start, steps).net.refusals
      <= {UploadRefused(RecordingDeleted), FinalizeRefused(DeletedConflict)}
  {
    Retired.Reachable(steps);
    SafeIsCovered(AfterRun(Start, steps));
  }

  /** A slice that was sent would be acknowledged now, or the take is deleted. */
  lemma UploadAnswer(steps: seq<Step>, k: nat, data: Bytes)
    requires PossibleRun(Start, steps) && Retired.Unintruded(Start, steps)
    requires (k, data) in AfterRun(Start, steps).net.uploads
    ensures var take := AfterRun(Start, steps).server;
      var reply := UploadDecision(take, k, data, Some(Sha256(data)));
      Acked(reply) || (reply == RecordingDeleted && Keeping.TombstonedTake(take))
  {
    Retired.Reachable(steps);
    var w := AfterRun(Start, steps);
    hide Delivery.Inv, Keeping.Inv, AfterRun, PossibleRun;
    if Delivery.Inv(w) {
      Delivery.SliceAnswer(w, k, data);
    }
  }

  /** A declaration that was posted would be accepted now, or the take is deleted. */
  lemma FinalizeAnswer(steps: seq<Step>, p: Payload)
    requires PossibleRun(Start, steps) && Retired.Unintruded(Start, steps)
    requires p in AfterRun(Start, steps).net.finalizes
    ensures var take := AfterRun(Start, steps).server;
      FinalizeReply(take, p) == Accepted || (FinalizeReply(take, p) == DeletedConflict && Keeping.TombstonedTake(take))
  {
    Retired.Reachable(steps);
    var w := AfterRun(Start, steps);
    hide Delivery.Inv, Keeping.Inv, AfterRun, PossibleRun;
    if Delivery.Inv(w) {
      Delivery.DeclarationAnswer(w, p);
    } else {
      var end :| Retired.Stranded(w, end);
      Retired.EndIsAnswered(w, end);
    }
  }

  // ------------------------------------------------------------ a run in which one page intrudes

  const TAKE: nat := 7
  const SLICE: Bytes := [0x1a]
  const EARLY_END := Payload(-1, 0, 0, true)

  /**
   * MediaRecorder.start() throws once. The lock is dropped before the unused row is removed, so another
   * tab that read the row finds the lock free, and its write lands on the row of the retried, running take.
   */
  const FailedStart: seq<Step> :=
    [ClaimTake(TAKE, true), StartThrows(0), ReadForReload, QueryLock(true), RemoveUnstarted(0)]

  /** The same with the unused row already gone when the other tab asks for the lock. */
  const LateQuery: seq<Step> :=
    [ClaimTake(TAKE, true), StartThrows(0), ReadForReload, RemoveUnstarted(0), QueryLock(true)]
  const Retry: seq<Step> := [ClaimTake(TAKE, true), StartRecorder(1), FinishReload(None, 2)]
  const EarlyPost: seq<Step> := [PostFinalize(0, 2), StoreSlice(SLICE, 5)]
  const Refused: seq<Step> := [DeliverFinalize(EARLY_END), SendUpload(0), DeliverUpload(0, SLICE, Saved)]

  const Claimed := Take(Some(FreshRow.(takeId := Some(TAKE))), map[], false)

  /** The unused row is gone; the other tab's reload has still to write. */
  const Removed := Start.(server := Claimed,
    browser := Start.browser.(others := Others(false, true, true), pendingTake := Some(TAKE)))

  /** The retried take is recording, and the other tab has declared it lost with no slices. */
  const Misjudged := Removed.(browser := Removed.browser.(
    meta := Some(PersistRecorderLost(EmptyMeta(1), 2)), phase := Running, lock := true, pendingTake := None))

  const PastEnd := Misjudged.(
    net := Start.net.(finalizes := {EARLY_END}), recorded := [SLICE],
    browser := Misjudged.browser.(
      meta := Some(AfterStoredChunk(PersistRecorderLost(EmptyMeta(1), 2), 5)), chunks := map[0 := Chunk(SLICE, None)]))

  lemma FiveSteps(w: World, steps: seq<Step>, w1: World, w2: World, w3: World, w4: World)
    requires |steps| == 5
    requires Enabled(w, steps[0]) && Do(w, steps[0]) == w1 && Enabled(w1, steps[1]) && Do(w1, steps[1]) == w2
    requires Enabled(w2, steps[2]) && Do(w2, steps[2]) == w3 && Enabled(w3, steps[3]) && Do(w3, steps[3]) == w4
    requires Enabled(w4, steps[4])
    ensures PossibleRun(w, steps) && AfterRun(w, steps) == Do(w4, steps[4])
  {
    hide Do, Enabled;
    var s := steps;
    Prepend(w4, s[4], []);
    Prepend(w3, s[3], [s[4]]);
    Prepend(w2, s[2], [s[3], s[4]]);
    Prepend(w1, s[1], [s[2], s[3], s[4]]);
    Prepend(w, s[0], [s[1], s[2], s[3], s[4]]);
    assert [s[0]] + [s[1], s[2], s[3], s[4]] == s;
  }

  /** start() has thrown, and the other tab has read its row. */
  const Thrown := Start.(server := Claimed,
    browser := Start.browser.(meta := Some(EmptyMeta(0)), pendingTake := Some(TAKE), abandoned := Some(0)))

  const Seen := Thrown.(browser := Thrown.browser.(others := Others(false, true, false)))

  lemma ThrowSteps()
    ensures var claimed := Do(Start, ClaimTake(TAKE, true));
      && Enabled(Start, ClaimTake(TAKE, true)) && Enabled(claimed, StartThrows(0))
      && Do(claimed, StartThrows(0)) == Thrown
    ensures Enabled(Thrown, ReadForReload) && Do(Thrown, ReadForReload) == Seen
  {
  }

  lemma FailedStartRun()
    ensures PossibleRun(Start, FailedStart) && AfterRun(Start, FailedStart) == Removed
  {
    ThrowSteps();
    var asked := Do(Seen, QueryLock(true));
    assert Do(asked, RemoveUnstarted(0)) == Removed;
    FiveSteps(Start, FailedStart, Do(Start, ClaimTake(TAKE, true)), Thrown, Seen, asked);
  }

  lemma LateQueryRun()
    ensures PossibleRun(Start, LateQuery) && AfterRun(Start, LateQuery) == Removed
  {
    ThrowSteps();
    var gone := Do(Seen, RemoveUnstarted(0));
    assert Do(gone, QueryLock(true)) == Removed;
    FiveSteps(Start, LateQuery, Do(Start, ClaimTake(TAKE, true)), Thrown, Seen, gone);
  }

  lemma RetryRun()
    ensures PossibleRun(Removed, Retry) && AfterRun(Removed, Retry) == Misjudged
  {
    var s := Retry;
    var w1 := Do(Removed, s[0]);
    var w2 := Do(w1, s[1]);
    assert Do(w2, s[2]) == Misjudged;
    assert PossibleRun(Misjudged, []);
    Prepend(w2, s[2], []);
    Prepend(w1, s[1], [s[2]]);
    Prepend(Removed, s[0], [s[1], s[2]]);
    assert [s[0]] + [s[1], s[2]] == s;
  }

  lemma EarlyPostRun()
    ensures PossibleRun(Misjudged, EarlyPost) && AfterRun(Misjudged, EarlyPost) == PastEnd
  {
    var s := EarlyPost;
    var w1 := Do(Misjudged, s[0]);
    assert Do(w1, s[1]) == PastEnd;
    assert PossibleRun(PastEnd, []);
    Prepend(w1, s[1], []);
    Prepend(Misjudged, s[0], [s[1]]);
    assert [s[0]] + [s[1]] == s;
  }

  /** The server latched the early end. */
  const Latched := PastEnd.(
    server := Claimed.(row := Some(Row(Incomplete, FinIncomplete, Some(-1), Some(0), Some(0), true,
                                       Some(RecorderLost), true, [], None, Some(TAKE)))),
    net := PastEnd.net.(answers := {Answer(EARLY_END, FinIncomplete)}))

  lemma EarlyEndAccepted()
    ensures Enabled(PastEnd, Refused[0]) && Do(PastEnd, Refused[0]) == Latched
  {
    assert PastEnd.server.store.Keys == {};
    assert Do(PastEnd, Refused[0]).server == Latched.server;
  }

  const SentLate := Latched.(net := Latched.net.(uploads := {(0, SLICE)}))

  lemma SliceIsSent()
    ensures Enabled(Latched, Refused[1]) && Do(Latched, Refused[1]) == SentLate
  {
  }

  lemma SliceIsRefused()
    ensures Enabled(SentLate, Refused[2])
    ensures UploadRefused(SequencePastFinal) in Do(SentLate, Refused[2]).net.refusals
  {
  }

  lemma RefusedRun()
    ensures PossibleRun(PastEnd, Refused)
    ensures UploadRefused(SequencePastFinal) in AfterRun(PastEnd, Refused).net.refusals
  {
    EarlyEndAccepted();
    SliceIsSent();
    SliceIsRefused();
    hide Do, Enabled;
    var s := Refused;
    Prepend(SentLate, s[2], []);
    Prepend(Latched, s[1], [s[2]]);
    Prepend(PastEnd, s[0], [s[1], s[2]]);
    assert [s[0]] + [s[1], s[2]] == s;
  }

  /** From there the retry records past the end the other tab declares. */
  lemma RemovedBreaks(prefix: seq<Step>)
    requires PossibleRun(Start, prefix) && AfterRun(Start, prefix) == Removed
    ensures PossibleRun(Start, prefix + Retry + EarlyPost)
    ensures var w := AfterRun(Start, prefix + Retry + EarlyPost);
      && !Frontier(w) && EARLY_END in w.net.finalizes && w.recorded == [SLICE]
      && PossibleRun(w, Refused)
      && UploadRefused(SequencePastFinal) in AfterRun(w, Refused).net.refusals
  {
    RetryRun();
    EarlyPostRun();
    RefusedRun();
    hide Do, Enabled;
    Continue(Start, prefix, Retry);
    Continue(Start, prefix + Retry, EarlyPost);
    assert EARLY_END in PastEnd.net.finalizes;
  }

  /** The other tab asks for the lock while the failed start is being undone. */
  lemma LateReloadBreaksFrontier()
    ensures PossibleRun(Start, FailedStart + Retry + EarlyPost)
    ensures var w := AfterRun(Start, FailedStart + Retry + EarlyPost);
      && !Frontier(w) && EARLY_END in w.net.finalizes && w.recorded == [SLICE]
      && PossibleRun(w, Refused)
      && UploadRefused(SequencePastFinal) in AfterRun(w, Refused).net.refusals
  {
    FailedStartRun();
    RemovedBreaks(FailedStart);
  }

  /** It asks only after the unused row is gone, and nothing is being undone any more. */
  lemma LateQueryBreaksFrontier()
    ensures PossibleRun(Start, LateQuery + Retry + EarlyPost)
    ensures PossibleRun(Start, LateQuery[..4]) && AfterRun(Start, LateQuery[..4]).browser.abandoned.None?
    ensures var w := AfterRun(Start, LateQuery + Retry + EarlyPost);
      && !Frontier(w) && EARLY_END in w.net.finalizes && w.recorded == [SLICE]
      && PossibleRun(w, Refused)
      && UploadRefused(SequencePastFinal) in AfterRun(w, Refused).net.refusals
  {
    LateQueryRun();
    RemovedBreaks(LateQuery);
    UndoneFirst();
  }

  lemma UndoneFirst()
    ensures PossibleRun(Start, LateQuery[..4]) && AfterRun(Start, LateQuery[..4]).browser.abandoned.None?
  {
    ThrowSteps();
    var s := LateQuery[..4];
    var claimed, gone := Do(Start, ClaimTake(TAKE, true)), Do(Seen, RemoveUnstarted(0));
    assert Enabled(Seen, RemoveUnstarted(0)) && gone.browser.abandoned.None?;
    hide Do, Enabled;
    Prepend(Seen, s[3], []);
    Prepend(Thrown, s[2], [s[3]] + []);
    Prepend(claimed, s[1], [s[2]] + ([s[3]] + []));
    Prepend(Start, s[0], [s[1]] + ([s[2]] + ([s[3]] + [])));
    assert [s[0]] + ([s[1]] + ([s[2]] + ([s[3]] + []))) == s;
  }

  // ------------------------------------------------------------ every intrusion can do harm, and nothing else

  /** A take that just started recording while another page has still to write. */
  predicate Overtaken(w: World) {
    && w.browser.meta == Some(EmptyMeta(1)) && w.browser.phase == Running && w.browser.others.reloading
    && w.recorded == []
  }

  lemma OvertakenBreaks(w: World)
    requires Overtaken(w)
    ensures var steps := [FinishReload(None, 2), PostFinalize(0, 2), StoreSlice(SLICE, 5)];
      PossibleRun(w, steps) && !Frontier(AfterRun(w, steps))
  {
    assert MergeReload(EmptyMeta(1), None, 2, false) == PersistRecorderLost(EmptyMeta(1), 2);
    hide MergeReload;
    var judged := Do(w, FinishReload(None, 2));
    assert judged.browser.meta == Some(PersistRecorderLost(EmptyMeta(1), 2));
    var posted := Do(judged, PostFinalize(0, 2));
    assert EARLY_END in posted.net.finalizes;
    var stored := Do(posted, StoreSlice(SLICE, 5));
    assert stored.recorded == [SLICE];
    assert !Frontier(stored);
    hide Do, Enabled, Frontier;
    ThreeSteps(w, FinishReload(None, 2), PostFinalize(0, 2), StoreSlice(SLICE, 5));
  }

  /** The recorder may start at once, and another page has passed its checks. */
  predicate Poised(w: World) {
    && w.browser.granted && w.browser.meta.None? && w.browser.phase == NoRecorder && !w.browser.lock
    && w.browser.others.reloading && w.recorded == []
  }

  lemma PoisedBreaks(w: World) returns (more: seq<Step>)
    requires Poised(w)
    ensures PossibleRun(w, more) && !Frontier(AfterRun(w, more))
  {
    var running := Do(w, StartRecorder(1));
    assert Overtaken(running);
    OvertakenBreaks(running);
    hide Do, Enabled, Frontier, Overtaken;
    more := [FinishReload(None, 2), PostFinalize(0, 2), StoreSlice(SLICE, 5)];
    Prepend(w, StartRecorder(1), more);
    more := [StartRecorder(1)] + more;
  }

  /** The claim can be repeated: it is granted, and the recorder may start. */
  lemma ClaimableBreaks(w: World) returns (more: seq<Step>)
    requires w.browser.meta.None? && w.browser.phase == NoRecorder && !w.browser.lock
    requires w.browser.others.reloading && w.recorded == [] && RetryPossible(w)
    ensures PossibleRun(w, more) && !Frontier(AfterRun(w, more))
  {
    if w.browser.granted {
      more := PoisedBreaks(w);
    } else {
      var claim := ClaimTake(w.browser.pendingTake.value, true);
      assert Enabled(w, claim) && Poised(Do(w, claim));
      more := PoisedBreaks(Do(w, claim));
      hide Do, Enabled, Frontier, Poised;
      Prepend(w, claim, more);
      more := [claim] + more;
    }
  }

  lemma IntrusionBreaks(w: World) returns (more: seq<Step>)
    requires Declaration(w) && Enabled(w, QueryLock(true)) && RetryPossible(w)
    ensures PossibleRun(Do(w, QueryLock(true)), more) && !Frontier(AfterRun(Do(w, QueryLock(true)), more))
  {
    assert NotStarted(w) || Undoing(w);
    var asked := Do(w, QueryLock(true));
    if w.browser.abandoned.Some? {
      var removed := asked.(browser := asked.browser.(meta := None, abandoned := None));
      assert Enabled(asked, RemoveUnstarted(0)) && Do(asked, RemoveUnstarted(0)) == removed;
      more := ClaimableBreaks(removed);
      hide Do, Enabled, Frontier;
      Prepend(asked, RemoveUnstarted(0), more);
      more := [RemoveUnstarted(0)] + more;
    } else {
      more := ClaimableBreaks(asked);
    }
  }

  // ------------------------------------------------------------ without a retry nothing breaks

  lemma NoRetryStays(w: World, step: Step)
    requires NoRetry(w) && Enabled(w, step)
    ensures NoRetry(Do(w, step)) && !Intrudes(w, step)
  {
    if Delivery.ServerStep(step) {
      Retired.ServerStaysUnclaimable(w, step);
      Delivery.ServerStepShape(w, step);
      hide Do, Enabled;
    } else if QueueStep(step) {
      Delivery.QueueLeavesServer(w, step);
      hide Do, Enabled;
    } else {
      hide PersistRecorderLost, CommitStop, PersistInterrupted, PersistReplaced, HoldForRecorderFlush;
    }
  }

  lemma {:induction false} NoRetryNoIntrusion(w: World, steps: seq<Step>)
    requires NoRetry(w) && PossibleRun(w, steps)
    ensures Retired.Unintruded(w, steps)
    decreases |steps|
  {
    hide NoRetry, Do, Enabled, Intrudes;
    if steps != [] {
      NoRetryStays(w, steps[0]);
      NoRetryNoIntrusion(Do(w, steps[0]), steps[1..]);
    }
  }

  lemma NotPossibleIsNoRetry(w: World)
    requires Retired.Safe(w) && Enabled(w, QueryLock(true)) && !RetryPossible(w)
    ensures NoRetry(w)
  {
    if Delivery.Inv(w) {
      assert w.server.store.Keys <= w.ever <= Below(|w.recorded|);
    }
    hide Keeping.Inv, Keeping.TombstonedTake;
  }

  lemma StrandedIsNoRetry(w: World)
    requires Retired.Safe(w) && RetryPossible(w)
    ensures Delivery.Inv(w)
  {
    hide Keeping.Inv, Delivery.Inv;
  }

  /**
   * The other half. After any run without an intrusion, whenever a page that read the row of a failed
   * start finds the lock free: some continuation breaks the frontier if and only if the take can still
   * be retried.
   */
  lemma IntrusionEndangersExactly(steps: seq<Step>)
    requires PossibleRun(Start, steps) && Retired.Unintruded(Start, steps)
    requires Enabled(AfterRun(Start, steps), QueryLock(true))
    ensures var asked := Do(AfterRun(Start, steps), QueryLock(true));
      (exists more :: PossibleRun(asked, more) && !Frontier(AfterRun(asked, more)))
        <==> RetryPossible(AfterRun(Start, steps))
  {
    Retired.Reachable(steps);
    var w := AfterRun(Start, steps);
    hide Frontier, Do, Enabled, Declaration, Keeping.Inv, AfterRun, PossibleRun, Retired.Safe, NoRetry;
    if RetryPossible(w) {
      StrandedIsNoRetry(w);
      var more := IntrusionBreaks(w);
    } else {
      NotPossibleIsNoRetry(w);
      Retired.SafeStepKeeps(w, QueryLock(true));
      NoRetryStays(w, QueryLock(true));
      var asked := Do(w, QueryLock(true));
      forall more | PossibleRun(asked, more) ensures Frontier(AfterRun(asked, more)) {
        NoRetryNoIntrusion(asked, more);
        Retired.EveryRunKeeps(asked, more);
        SafeIsCovered(AfterRun(asked, more));
      }
    }
  }
}

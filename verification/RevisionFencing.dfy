/** Snapshot revisions fence short-lived commands (server/app/websocket.py). */
module RevisionFencing {
  import opened Common
  import opened EventLog
  import opened EventDelivery

  /** Clip commands, returns to idle, pauses and fallback requests carry the revision they were issued against. */
  predicate Fenced(e: Event) {
    ShortLived(e.kind) || e.kind == FallbackUsed
  }

  predicate FenceInv(w: World) {
    && (forall i :: 0 <= i < |w.applied| ==> w.applied[i].lifetime <= w.lifetime)
    && (forall i :: 0 <= i < |w.applied| && Fenced(w.applied[i].event) ==>
          w.applied[i].event.revision.Some? && w.applied[i].event.revision.value >= w.applied[i].met)
    && (forall i :: 0 <= i < |w.applied| && w.applied[i].lifetime == w.lifetime && Fenced(w.applied[i].event) ==>
          w.applied[i].met < w.server.snap.revision)
    && (forall i, j ::
          0 <= i < j < |w.applied| && w.applied[i].lifetime == w.applied[j].lifetime && Fenced(w.applied[i].event) ==>
            w.applied[i].met < w.applied[j].met)
  }

  lemma ApplyMovesOn(snap: Snapshot, e: Event, env: Env)
    ensures AfterApply(snap, e, env).revision >= snap.revision
    ensures Fenced(e) ==> AfterApply(snap, e, env).revision > snap.revision
  {
  }

  lemma AcceptedMovesOn(stored: Live, e: Event, env: Env)
    ensures AfterAccepted(stored, e, env).snap.revision >= stored.snap.revision
    ensures Fenced(e) ==> AfterAccepted(stored, e, env).snap.revision > stored.snap.revision
  {
    ApplyMovesOn(stored.snap, e, env);
    hide AfterApply, AfterLifecycle;
  }

  lemma DueStartKeepsRevision(live: Live, now: int)
    ensures AfterDueStart(live, now).snap.revision == live.snap.revision
  {
  }

  /** An applied fenced command was issued against the revision it met or a later one, and moves past it. */
  lemma HandlingFences(live: Live, frame: Frame, env: Env)
    ensures var h := Handle(live, frame, env);
      && h.live.snap.revision >= live.snap.revision
      && (h.applied ==>
            var e := if frame.Envelope? then frame.event else FallbackEvent(frame.event, env);
            Fenced(e) ==>
              && e.revision.Some? && e.revision.value >= live.snap.revision
              && h.live.snap.revision > live.snap.revision)
  {
    DueStartKeepsRevision(live, env.now);
    var due := AfterDueStart(live, env.now);
    AcceptedMovesOn(due.(rows := due.rows + [frame.event]), frame.event, env);
    ApplyMovesOn(due.snap.(fallbacks := due.snap.fallbacks + 1, lastFallback := env.resolvedClip),
                 FallbackEvent(frame.event, env), env);
    hide AfterAccepted, AfterApply, AfterDueStart, Known;
  }

  lemma DeliverFences(w: World, frame: Frame, env: Env)
    requires FenceInv(w)
    ensures var after := AfterDeliver(w, frame, env);
      FenceInv(after) && after.server.snap.revision >= w.server.snap.revision
  {
    HandlingFences(w.server, frame, env);
    hide Handle;
  }

  lemma PausesMoveOn(live: Live, id: string, env: Env)
    ensures AfterNetworkPause(live, id, env).snap.revision >= live.snap.revision
    ensures AfterRecorderLost(live, id, env).snap.revision >= live.snap.revision
  {
    hide PauseEvent, AfterAppend;
  }

  lemma StepKeeps(w: World, step: Step)
    requires FenceInv(w) && Enabled(w, step)
    ensures FenceInv(Do(w, step))
    ensures Do(w, step).lifetime == w.lifetime ==>
      Do(w, step).server.snap.revision >= w.server.snap.revision
  {
    hide Handle, AfterDeliver, AfterNetworkPause, AfterRecorderLost;
    match step
    case Deliver(frame, env) => DeliverFences(w, frame, env);
    case NetworkPause(id, env) => PausesMoveOn(w.server, id, env);
    case RecorderLostPause(id, env) => PausesMoveOn(w.server, id, env);
    case _ =>
  }

  lemma {:induction false} EveryRunKeeps(w: World, steps: seq<Step>)
    requires FenceInv(w) && EventDelivery.PossibleRun(w, steps)
    ensures FenceInv(AfterRun(w, steps)) && AfterRun(w, steps).lifetime >= w.lifetime
    ensures AfterRun(w, steps).lifetime == w.lifetime ==>
      AfterRun(w, steps).server.snap.revision >= w.server.snap.revision
    decreases |steps|
  {
    hide FenceInv, Enabled, Do;
    if steps != [] {
      StepKeeps(w, steps[0]);
      LifetimeGrows(w, steps[0]);
      EveryRunKeeps(Do(w, steps[0]), steps[1..]);
    }
  }

  lemma LifetimeGrows(w: World, step: Step)
    requires Enabled(w, step)
    ensures Do(w, step).lifetime >= w.lifetime
  {
    hide Handle, AfterNetworkPause, AfterRecorderLost;
  }

  /** Within one process lifetime the revision never decreases. */
  lemma RevisionNeverDecreases(before: seq<Step>, more: seq<Step>)
    requires EventDelivery.PossibleRun(Start, before) && EventDelivery.PossibleRun(AfterRun(Start, before), more)
    ensures var w := AfterRun(Start, before);
      var later := AfterRun(w, more);
      later.lifetime == w.lifetime ==> later.server.snap.revision >= w.server.snap.revision
  {
    EveryRunKeeps(Start, before);
    EveryRunKeeps(AfterRun(Start, before), more);
  }

  /**
   * Among the commands and fallback requests issued against one revision, none ahead of the server's
   * when it was handled, at most one is ever applied in one process lifetime.
   */
  lemma OneCommandPerRevision(steps: seq<Step>, i: nat, j: nat)
    requires EventDelivery.PossibleRun(Start, steps)
    requires var applied := AfterRun(Start, steps).applied;
      && i < |applied| && j < |applied| && applied[i].lifetime == applied[j].lifetime
      && Fenced(applied[i].event) && Fenced(applied[j].event)
      && applied[i].event.revision == applied[j].event.revision
    requires var applied := AfterRun(Start, steps).applied;
      applied[i].event.revision.Some?
      && applied[i].event.revision.value <= applied[i].met && applied[j].event.revision.value <= applied[j].met
    ensures i == j
  {
    EveryRunKeeps(Start, steps);
  }

  const IdEnv := Env(0, true, Some("clip"), false, true, true, true)

  function AheadCommand(id: string, sequence: nat): Event {
    Event(Wizard, sequence, ClipCommand, "", id, Some(10), Some(5), Some("answer"), None)
  }

  /** The proviso matters: two commands issued ahead of the server's revision are both applied. */
  lemma AheadCommandsAreNotFenced()
    ensures var first := HandleEvent(NewSession, AheadCommand("a", 0), IdEnv);
      var second := HandleEvent(first.live, AheadCommand("b", 1), IdEnv);
      first.applied && second.applied
  {
    var a, b := AheadCommand("a", 0), AheadCommand("b", 1);
    assert !Blank("a") by { assert "a"[0] == 'a'; }
    assert !Blank("b") by { assert "b"[0] == 'b'; }
    var first := HandleEvent(NewSession, a, IdEnv);
    assert !Known([], a);
    assert first.live.rows == [a];
    assert "a" != "b" by { assert "a"[0] != "b"[0]; }
    assert !Known([a], b);
  }
}

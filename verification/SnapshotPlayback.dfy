/** The snapshot shows what the applied events of this process lifetime add up to (server/app/websocket.py). */
module SnapshotPlayback {
  import opened Common
  import opened EventLog
  import opened EventDelivery

  predicate Plays(kind: EventType) {
    kind in {FallbackUsed, ClipCommand, ClipStarted}
  }

  predicate Stops(kind: EventType) {
    kind in {ClipEnded, ClipInterrupted, ReturnToIdle}
  }

  /** An applied event of this process lifetime that starts or stops a clip. */
  predicate Moves(a: Application, lifetime: nat) {
    a.lifetime == lifetime && (Plays(a.event.kind) || Stops(a.event.kind))
  }

  /** The last one of them. */
  predicate Latest(applied: seq<Application>, lifetime: nat, i: nat) {
    && i < |applied| && Moves(applied[i], lifetime)
    && forall j :: i < j < |applied| ==> !Moves(applied[j], lifetime)
  }

  predicate Shows(snap: Snapshot, e: Event) {
    && snap.playing == Plays(e.kind)
    && (if Stops(e.kind) then snap.activeClip.None? else e.clip.Some? ==> snap.activeClip == e.clip)
  }

  predicate PlaybackOk(snap: Snapshot, applied: seq<Application>, lifetime: nat) {
    && (forall i: nat :: i < |applied| && Latest(applied, lifetime, i) ==> Shows(snap, applied[i].event))
    && ((forall i :: 0 <= i < |applied| ==> !Moves(applied[i], lifetime)) ==> !snap.playing && snap.activeClip.None?)
  }

  /** Fields that go together. */
  predicate Coherent(snap: Snapshot) {
    && (snap.activeClip.Some? ==> snap.playing)
    && (snap.startAt.Some? <==> snap.state == Starting)
    && (snap.fallbacks > 0 <==> snap.lastFallback.Some?)
  }

  predicate Inv(w: World) {
    && (forall i :: 0 <= i < |w.applied| ==> w.applied[i].lifetime <= w.lifetime)
    && Coherent(w.server.snap) && PlaybackOk(w.server.snap, w.applied, w.lifetime)
  }

  predicate SamePlayback(before: Snapshot, after: Snapshot) {
    after.playing == before.playing && after.activeClip == before.activeClip
  }

  lemma DueStartShows(live: Live, now: int)
    requires Coherent(live.snap)
    ensures Coherent(AfterDueStart(live, now).snap) && SamePlayback(live.snap, AfterDueStart(live, now).snap)
  {
  }

  predicate MovesAs(before: Snapshot, e: Event, after: Snapshot) {
    if Plays(e.kind) || Stops(e.kind) then Shows(after, e) else SamePlayback(before, after)
  }

  lemma ApplyShows(snap: Snapshot, e: Event, env: Env)
    requires Coherent(snap) && e.kind != SessionStarted
    ensures Coherent(AfterApply(snap, e, env)) && MovesAs(snap, e, AfterApply(snap, e, env))
  {
  }

  lemma AcceptedShows(stored: Live, e: Event, env: Env)
    requires Coherent(stored.snap)
    ensures var after := AfterAccepted(stored, e, env); Coherent(after.snap) && MovesAs(stored.snap, e, after.snap)
  {
    if e.kind != SessionStarted {
      ApplyShows(stored.snap, e, env);
      hide AfterApply, AfterLifecycle;
    }
  }

  /** A message that is applied moves the playback as its event says; any other leaves it. */
  lemma HandlingShows(live: Live, frame: Frame, env: Env)
    requires Coherent(live.snap)
    ensures var h := Handle(live, frame, env);
      var e := if frame.Envelope? then frame.event else FallbackEvent(frame.event, env);
      && Coherent(h.live.snap)
      && if h.applied then MovesAs(live.snap, e, h.live.snap) else SamePlayback(live.snap, h.live.snap)
  {
    DueStartShows(live, env.now);
    var due := AfterDueStart(live, env.now);
    AcceptedShows(due.(rows := due.rows + [frame.event]), frame.event, env);
    var streak := due.snap.(fallbacks := due.snap.fallbacks + 1, lastFallback := env.resolvedClip);
    if env.resolvedClip.Some? {
      ApplyShows(streak, FallbackEvent(frame.event, env), env);
    }
    hide AfterAccepted, AfterApply, AfterDueStart, Known, KeyOf, CommandRejection, LifecycleAllowed;
  }

  lemma AppliedKeeps(w: World, snap: Snapshot, a: Application)
    requires Inv(w) && a.lifetime == w.lifetime && Coherent(snap)
    requires MovesAs(w.server.snap, a.event, snap)
    ensures PlaybackOk(snap, w.applied + [a], w.lifetime)
  {
    var applied := w.applied + [a];
    if !Moves(a, w.lifetime) {
      forall i: nat | Latest(applied, w.lifetime, i) ensures Shows(snap, applied[i].event) {
        assert Latest(w.applied, w.lifetime, i) by {
          forall j | i < j < |w.applied| ensures !Moves(w.applied[j], w.lifetime) {
            assert applied[j] == w.applied[j];
          }
        }
      }
      if forall i :: 0 <= i < |applied| ==> !Moves(applied[i], w.lifetime) {
        forall i | 0 <= i < |w.applied| ensures !Moves(w.applied[i], w.lifetime) {
          assert applied[i] == w.applied[i];
        }
      }
    } else {
      assert applied[|w.applied|] == a;
    }
  }

  lemma DeliverKeeps(w: World, frame: Frame, env: Env)
    requires Inv(w)
    ensures Inv(AfterDeliver(w, frame, env))
  {
    HandlingShows(w.server, frame, env);
    hide Handle, Coherent, PlaybackOk, MovesAs;
    var h := Handle(w.server, frame, env);
    var after := AfterDeliver(w, frame, env);
    if h.applied {
      AppliedKeeps(w, h.live.snap, after.applied[|w.applied|]);
    } else {
      SameKeeps(w.server.snap, h.live.snap, w.applied, w.lifetime);
    }
  }

  lemma SameKeeps(before: Snapshot, after: Snapshot, applied: seq<Application>, lifetime: nat)
    requires PlaybackOk(before, applied, lifetime) && SamePlayback(before, after)
    ensures PlaybackOk(after, applied, lifetime)
  {
  }

  /** A pause the server writes itself leaves the playback alone. */
  lemma PausesKeepPlayback(live: Live, id: string, env: Env)
    requires Coherent(live.snap)
    ensures var after := AfterNetworkPause(live, id, env).snap; Coherent(after) && SamePlayback(live.snap, after)
    ensures var after := AfterRecorderLost(live, id, env).snap; Coherent(after) && SamePlayback(live.snap, after)
  {
    hide PauseEvent, AfterAppend;
  }

  lemma RestartKeeps(w: World, durable: Live)
    requires Inv(w)
    ensures Inv(AfterRestart(w.(server := durable)))
  {
  }

  lemma StepKeeps(w: World, step: Step)
    requires Inv(w) && Enabled(w, step)
    ensures Inv(Do(w, step))
  {
    hide Coherent, PlaybackOk, AfterRestart, AfterNetworkPause, AfterRecorderLost, Handle, SamePlayback;
    match step
    case Deliver(frame, env) => DeliverKeeps(w, frame, env);
    case NetworkPause(id, env) =>
      PausesKeepPlayback(w.server, id, env);
      SameKeeps(w.server.snap, Do(w, step).server.snap, w.applied, w.lifetime);
    case RecorderLostPause(id, env) =>
      PausesKeepPlayback(w.server, id, env);
      SameKeeps(w.server.snap, Do(w, step).server.snap, w.applied, w.lifetime);
    case Restart => RestartKeeps(w, w.server);
    case DieWhileHandling(frame, env, lifecycleToo) =>
      var h := Handle(w.server, frame, env);
      var left := w.server.(rows := h.live.rows);
      RestartKeeps(w, if lifecycleToo then left.(status := h.live.status, dbRevision := h.live.dbRevision) else left);
    case _ =>
  }

  lemma {:induction false} EveryRunKeeps(w: World, steps: seq<Step>)
    requires Inv(w) && EventDelivery.PossibleRun(w, steps)
    ensures Inv(AfterRun(w, steps))
    decreases |steps|
  {
    hide Inv, Enabled, Do;
    if steps != [] {
      StepKeeps(w, steps[0]);
      EveryRunKeeps(Do(w, steps[0]), steps[1..]);
    }
  }

  /**
   * Through replays, duplicates, pauses and restarts: the clip the snapshot shows is that of the last
   * event this process applied that starts or stops one.
   */
  lemma SnapshotShowsTheLastMove(steps: seq<Step>, i: nat)
    requires EventDelivery.PossibleRun(Start, steps)
    ensures var w := AfterRun(Start, steps);
      i < |w.applied| && Latest(w.applied, w.lifetime, i) ==>
        var e, snap := w.applied[i].event, w.server.snap;
        && (Plays(e.kind) ==> snap.playing && (e.clip.Some? ==> snap.activeClip == e.clip))
        && (Stops(e.kind) ==> !snap.playing && snap.activeClip.None?)
  {
    EveryRunKeeps(Start, steps);
  }

  /** Nothing plays before such an event; a start time is held exactly while starting; a streak has its clip. */
  lemma SnapshotIsCoherent(steps: seq<Step>)
    requires EventDelivery.PossibleRun(Start, steps)
    ensures var w := AfterRun(Start, steps);
      var snap := w.server.snap;
      && ((forall i :: 0 <= i < |w.applied| ==> !Moves(w.applied[i], w.lifetime)) ==>
            !snap.playing && snap.activeClip.None?)
      && (snap.activeClip.Some? ==> snap.playing)
      && (snap.startAt.Some? <==> snap.state == Starting)
      && (snap.fallbacks > 0 <==> snap.lastFallback.Some?)
  {
    EveryRunKeeps(Start, steps);
  }
}

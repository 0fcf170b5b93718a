/**
 * The wizard console, the wire and the server of one live session, through reconnects and restarts
 * (apps/wizard/src/useSessionSocket.ts, server/app/websocket.py).
 */
module EventDelivery {
  import opened Common
  import opened EventLog

  /** What the console puts on the socket. */
  datatype Frame = Envelope(event: Event) | FallbackRequest(event: Event)

  datatype Pending = Pending(frame: Frame, shortLived: bool)

  datatype Ack = Ack(key: Key, reply: Reply)

  /** One change of the snapshot: the event, the process that made it and the revision it met. */
  datatype Application = Application(event: Event, lifetime: nat, met: nat)

  /**
   * Frames and acks on the wire are never used up: any of them may be lost, repeated, delayed or
   * reordered. `sent`, `left` and `applied` are history.
   */
  datatype World = World(
    server: Live,
    lifetime: nat,
    wire: set<Frame>,
    acks: set<Ack>,
    sent: seq<Pending>,
    pending: map<Key, Pending>,
    left: map<Key, Reply>,
    applied: seq<Application>)

  const Start := World(NewSession, 0, {}, {}, [], map[], map[], [])

  datatype Step =
    | Send(frame: Frame, shortLived: bool)
    | StudentSends(frame: Frame)
    | Deliver(frame: Frame, env: Env)
    | TakeAck(ack: Ack)
    | AskSnapshot
    | Replay
    | NetworkPause(id: string, env: Env)
    | RecorderLostPause(id: string, env: Env)
    | EndRoute
    | Restart
    | DieWhileHandling(frame: Frame, env: Env, lifecycleToo: bool)

  function FrameKey(frame: Frame): Key {
    match frame
    case Envelope(e) => KeyOf(e)
    case FallbackRequest(e) => Chosen(e.commandId)
  }

  function Handle(live: Live, frame: Frame, env: Env): Handled {
    match frame
    case Envelope(e) => HandleEvent(live, e, env)
    case FallbackRequest(e) => HandleFallback(live, e, env)
  }

  predicate IsSent(sent: seq<Pending>, key: Key) {
    exists i :: 0 <= i < |sent| && FrameKey(sent[i].frame) == key
  }

  predicate Stored(rows: seq<Event>, key: Key) {
    exists i :: 0 <= i < |rows| && KeyOf(rows[i]) == key
  }

  /** Ids are random UUIDs: a new one has been used nowhere before. */
  predicate Unused(w: World, key: Key) {
    && !IsSent(w.sent, key) && !Stored(w.server.rows, key) && key !in w.server.processed
    && forall f :: f in w.wire ==> KeyOf(f.event) != key
  }

  predicate Enabled(w: World, step: Step) {
    match step
    case Send(frame, shortLived) =>
      && frame.event.source == Wizard && frame.event.sequence == |w.sent|
      && Unused(w, FrameKey(frame)) && FrameKey(frame) == KeyOf(frame.event)
      && (frame.FallbackRequest? ==> shortLived && frame.event.commandId != "")
    case StudentSends(frame) => frame.event.source == Student && !IsSent(w.sent, KeyOf(frame.event))
    case Deliver(frame, _) => frame in w.wire
    case TakeAck(ack) => ack in w.acks
    case NetworkPause(id, _) => id != "" && !IsSent(w.sent, Chosen(id))
    case RecorderLostPause(id, _) => id != "" && !IsSent(w.sent, Chosen(id))
    case DieWhileHandling(frame, _, _) => frame in w.wire
    case _ => true
  }

  // ------------------------------------------------------------ the console

  function AfterSend(w: World, frame: Frame, shortLived: bool): World {
    var p := Pending(frame, shortLived);
    w.(sent := w.sent + [p], pending := w.pending[FrameKey(frame) := p], wire := w.wire + {frame})
  }

  /** An ack of any kind ends the wait for its frame. */
  function AfterTakeAck(w: World, ack: Ack): World {
    if ack.key !in w.pending then w
    else w.(pending := w.pending - {ack.key}, left := w.left[ack.key := ack.reply])
  }

  /** Short-lived commands are dropped, never replayed. */
  function Durable(pending: map<Key, Pending>): map<Key, Pending> {
    map k | k in pending && !pending[k].shortLived :: pending[k]
  }

  function Frames(pending: map<Key, Pending>): set<Frame> {
    set k | k in pending :: pending[k].frame
  }

  /** The refs of the console hook. They outlive every socket; only a page reload resets them. */
  class Console {
    var sequence: nat
    var pending: map<Key, Pending>
    var lastAckedSequence: int
    var wire: set<Frame>

    constructor ()
      ensures sequence == 0 && pending == map[] && lastAckedSequence == -1 && wire == {}
    {
      sequence, pending, lastAckedSequence, wire := 0, map[], -1, {};
    }

    /** `sendEnvelope` and `sendRequestFallback`: an envelope that is not sent uses up no number. */
    method Send(frame: Frame, shortLived: bool, open: bool) returns (sent: bool)
      requires frame.event.sequence == sequence
      modifies this
      ensures sent == open && lastAckedSequence == old(lastAckedSequence)
      ensures sent ==> sequence == old(sequence) + 1 && wire == old(wire) + {frame}
      ensures sent ==> pending == old(pending)[FrameKey(frame) := Pending(frame, shortLived)]
      ensures !sent ==> sequence == old(sequence) && wire == old(wire) && pending == old(pending)
    {
      if !open {
        return false;
      }
      wire := wire + {frame};
      sequence := sequence + 1;
      pending := pending[FrameKey(frame) := Pending(frame, shortLived)];
      sent := true;
    }

    /** `handleAck` */
    method HandleAck(ack: Ack)
      modifies this
      ensures pending == old(pending) - {ack.key}
      ensures lastAckedSequence ==
        if ack.key in old(pending) && !ack.reply.Rejected?
             && old(pending)[ack.key].frame.event.sequence > old(lastAckedSequence)
        then old(pending)[ack.key].frame.event.sequence else old(lastAckedSequence)
      ensures sequence == old(sequence) && wire == old(wire)
    {
      if ack.key in pending {
        var acked := pending[ack.key].frame.event.sequence;
        pending := pending - {ack.key};
        if !ack.reply.Rejected? && acked > lastAckedSequence {
          lastAckedSequence := acked;
        }
      }
    }

    /** `requestSnapshot`: short-lived commands are dropped before the server is asked. */
    method RequestSnapshot()
      modifies this`pending
      ensures pending == Durable(old(pending))
    {
      var keys := pending.Keys;
      while keys != {}
        invariant keys <= old(pending).Keys
        invariant pending == map k | k in old(pending) && (k in keys || !old(pending)[k].shortLived) :: old(pending)[k]
      {
        var key :| key in keys;
        keys := keys - {key};
        if pending[key].shortLived {
          pending := pending - {key};
        }
      }
    }

    /** The replay in `applySnapshot`: every pending frame again, unchanged. */
    method ReplayPending()
      modifies this`wire
      ensures wire == old(wire) + Frames(pending)
    {
      var keys := pending.Keys;
      while keys != {}
        invariant keys <= pending.Keys
        invariant wire == old(wire) + set k | k in pending && k !in keys :: pending[k].frame
      {
        var key :| key in keys;
        wire := wire + {pending[key].frame};
        keys := keys - {key};
      }
    }
  }

  // ------------------------------------------------------------ the server

  /** A console's reply goes back on its own socket. */
  function Acks(frame: Frame, reply: Reply): set<Ack> {
    if frame.event.source == Wizard then {Ack(FrameKey(frame), reply)} else {}
  }

  function AfterDeliver(w: World, frame: Frame, env: Env): World {
    var h := Handle(w.server, frame, env);
    var met := w.server.snap.revision;
    var stored := if frame.Envelope? then frame.event else FallbackEvent(frame.event, env);
    w.(server := h.live, acks := w.acks + Acks(frame, h.reply),
       applied := if h.applied then w.applied + [Application(stored, w.lifetime, met)] else w.applied)
  }

  function AfterEndRoute(live: Live): Live {
    if live.status == Ended then live else live.(status := Ended, dbRevision := live.dbRevision + 1)
  }

  /** A new process starts from the durable half. */
  function Rebooted(live: Live): Live {
    live.(processed := {}, snap := NewSnapshot)
  }

  function AfterRestart(w: World): World {
    w.(server := Rebooted(w.server), lifetime := w.lifetime + 1)
  }

  /** The process dies after the row was committed, with or without the transition that follows it. */
  function AfterDeath(w: World, frame: Frame, env: Env, lifecycleToo: bool): World {
    var h := Handle(w.server, frame, env);
    var left := w.server.(rows := h.live.rows);
    var durable := if lifecycleToo then left.(status := h.live.status, dbRevision := h.live.dbRevision) else left;
    AfterRestart(w.(server := durable))
  }

  function Do(w: World, step: Step): World
    requires Enabled(w, step)
  {
    match step
    case Send(frame, shortLived) => AfterSend(w, frame, shortLived)
    case StudentSends(frame) => w.(wire := w.wire + {frame})
    case Deliver(frame, env) => AfterDeliver(w, frame, env)
    case TakeAck(ack) => AfterTakeAck(w, ack)
    case AskSnapshot => w.(pending := Durable(w.pending))
    case Replay => w.(wire := w.wire + Frames(w.pending))
    case NetworkPause(id, env) => w.(server := AfterNetworkPause(w.server, id, env))
    case RecorderLostPause(id, env) => w.(server := AfterRecorderLost(w.server, id, env))
    case EndRoute => w.(server := AfterEndRoute(w.server))
    case Restart => AfterRestart(w)
    case DieWhileHandling(frame, env, lifecycleToo) => AfterDeath(w, frame, env, lifecycleToo)
  }

  predicate PossibleRun(w: World, steps: seq<Step>)
    decreases |steps|
  {
    steps == [] || (Enabled(w, steps[0]) && PossibleRun(Do(w, steps[0]), steps[1..]))
  }

  function AfterRun(w: World, steps: seq<Step>): World
    requires PossibleRun(w, steps)
    decreases |steps|
  {
    if steps == [] then w else AfterRun(Do(w, steps[0]), steps[1..])
  }
}

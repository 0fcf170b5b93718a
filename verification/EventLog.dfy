/** The server side of one live session: the event log, the dedup set and the snapshot (server/app/websocket.py). */
module EventLog {
  import opened Common

  datatype Source = Student | Wizard | Server

  datatype EventType =
    | SessionStarted | SessionPaused | SessionResumed | SessionEnded
    | ClipCommand | ClipStarted | ClipEnded | ClipInterrupted | ReturnToIdle
    | FallbackUsed | UncoveredQuestion | OtherEvent

  datatype SessionState = Created | Starting | Active | Paused | Ended

  /** One envelope. An absent and an empty id are the same thing. */
  datatype Event = Event(
    source: Source,
    sequence: nat,
    kind: EventType,
    eventId: string,
    commandId: string,
    expiresAt: Option<int>,
    revision: Option<int>,
    clip: Option<string>,
    reason: Option<string>)

  /** The two forms of dedup key: an id the sender chose, or the (source, sequence) of the envelope. */
  datatype Key = Chosen(id: string) | Counted(source: Source, sequence: nat)

  datatype Snapshot = Snapshot(
    revision: nat,
    state: SessionState,
    playing: bool,
    activeClip: Option<string>,
    startAt: Option<int>,
    fallbacks: nat,
    lastFallback: Option<string>)

  /** `rows`, `status` and `dbRevision` are durable; `processed` and `snap` are lost with the process. */
  datatype Live = Live(rows: seq<Event>, status: SessionState, dbRevision: nat, processed: set<Key>, snap: Snapshot)

  const NewSnapshot := Snapshot(0, Created, false, None, None, 0, None)

  const NewSession := Live([], Created, 0, {}, NewSnapshot)

  const PAUSE_REASONS: set<string> :=
    {"manual", "network_failure", "clock_sync_failure", "recording_failure", "ethical_or_safety_stop"}

  const START_DELAY_MS: int := 2000

  datatype Reason =
    | MissingCommandFields | InvalidCommandFields | CommandExpired | StaleSnapshotRevision
    | MissingPauseReason | InvalidPauseReason
    | FallbackIsServerResolved | UncoveredQuestionRequiresWizard | SessionStartRequiresWizard
    | FallbackRequiresWizard | InvalidFallbackCategory | UnknownCase | SessionIsPaused
    | InvalidLifecycleTransition | PersistenceUnavailable

  datatype Reply = Accepted | Duplicate | Rejected(reason: Reason)

  /** What a message meets: the monotonic clock, the case files, and which database calls fail. */
  datatype Env = Env(now: int, categoryKnown: bool, resolvedClip: Option<string>, isFallbackClip: bool,
                     readsWork: bool, appendWorks: bool, lifecycleWorks: bool)

  /** The state after a message, the reply, and whether the message changed the snapshot. */
  datatype Handled = Handled(live: Live, reply: Reply, applied: bool)

  function KeyOf(e: Event): Key {
    if e.eventId != "" then Chosen(e.eventId)
    else if e.commandId != "" then Chosen(e.commandId)
    else Counted(e.source, e.sequence)
  }

  /** Either unique index would refuse `e` beside `row`. */
  predicate Collides(row: Event, e: Event) {
    KeyOf(row) == KeyOf(e) || (row.source == e.source && row.sequence == e.sequence)
  }

  predicate Known(rows: seq<Event>, e: Event) {
    exists i :: 0 <= i < |rows| && Collides(rows[i], e)
  }

  function AfterAppend(rows: seq<Event>, e: Event): seq<Event> {
    if Known(rows, e) then rows else rows + [e]
  }

  // ------------------------------------------------------------ the snapshot

  predicate ShortLived(kind: EventType) {
    kind in {ClipCommand, ReturnToIdle, SessionPaused}
  }

  predicate Blank(s: string) {
    forall i :: 0 <= i < |s| ==> s[i] in {' ', '\t', '\n', '\r'}
  }

  /** `_validate_short_lived_command` */
  function CommandRejection(e: Event, snap: Snapshot, now: int): Option<Reason> {
    if e.commandId == "" || e.expiresAt.None? || e.revision.None? then Some(MissingCommandFields)
    else if Blank(e.commandId) || e.revision.value < 0 then Some(InvalidCommandFields)
    else if now > e.expiresAt.value then Some(CommandExpired)
    else if e.revision.value < snap.revision then Some(StaleSnapshotRevision)
    else None
  }

  function ResolveStart(snap: Snapshot, now: int): Snapshot {
    if snap.state == Starting && snap.startAt.Some? && now >= snap.startAt.value then
      snap.(state := Active, startAt := None)
    else snap
  }

  /** `_apply_snapshot_update` */
  function AfterApply(before: Snapshot, e: Event, env: Env): Snapshot {
    var snap := ResolveStart(before, env.now);
    var bumped := snap.(revision := snap.revision + 1);
    match e.kind
    case FallbackUsed => bumped.(playing := true, activeClip := e.clip)
    case SessionResumed => bumped.(state := Active, startAt := None)
    case SessionPaused => bumped.(state := Paused, startAt := None)
    case SessionEnded => bumped.(state := Ended, startAt := None)
    case ClipCommand => AfterPlay(bumped, e, env)
    case ClipStarted => AfterPlay(bumped, e, env)
    case ClipEnded => bumped.(playing := false, activeClip := None)
    case ClipInterrupted => bumped.(playing := false, activeClip := None)
    case ReturnToIdle => bumped.(playing := false, activeClip := None)
    case _ => snap
  }

  /** A real answer ends the run of fallbacks; a fallback clip that starts does not. */
  function AfterPlay(snap: Snapshot, e: Event, env: Env): Snapshot {
    if e.clip.None? then snap.(playing := true)
    else if env.isFallbackClip then snap.(playing := true, activeClip := e.clip)
    else snap.(playing := true, activeClip := e.clip, fallbacks := 0, lastFallback := None)
  }

  function AfterScheduledStart(before: Snapshot, now: int): Snapshot {
    var snap := ResolveStart(before, now);
    snap.(state := Starting, startAt := Some(now + START_DELAY_MS), revision := snap.revision + 1)
  }

  function Adopt(snap: Snapshot, dbRevision: nat): Snapshot {
    if dbRevision > snap.revision then snap.(revision := dbRevision) else snap
  }

  // ------------------------------------------------------------ the session row

  predicate Lifecycle(kind: EventType) {
    kind in {SessionStarted, SessionPaused, SessionResumed, SessionEnded}
  }

  predicate Allowed(current: SessionState, target: SessionState) {
    match current
    case Created => target in {Starting, Active, Ended}
    case Starting => target in {Active, Paused, Ended}
    case Active => target in {Paused, Ended}
    case Paused => target in {Active, Ended}
    case Ended => false
  }

  function Target(kind: EventType): SessionState
    requires Lifecycle(kind)
  {
    match kind
    case SessionStarted => Starting
    case SessionPaused => Paused
    case SessionResumed => Active
    case SessionEnded => Ended
  }

  /** `_db_lifecycle_rejection_reason` */
  predicate LifecycleAllowed(status: SessionState, kind: EventType) {
    if !Lifecycle(kind) then true
    else if kind == SessionResumed then status == Paused
    else if kind == SessionEnded && status == Ended then true
    else if kind == SessionStarted && status == Paused then false
    else Allowed(status, Target(kind))
  }

  /** The row after the transition; ending an ended session changes nothing. */
  function AfterLifecycle(live: Live, kind: EventType): Live
    requires Lifecycle(kind)
  {
    if kind == SessionEnded && live.status == Ended then live
    else live.(status := Target(kind), dbRevision := live.dbRevision + 1)
  }

  /** `_resolve_scheduled_start`: the due start reaches the row too when the row can take it. */
  function AfterDueStart(live: Live, now: int): Live {
    var snap := ResolveStart(live.snap, now);
    if snap == live.snap then live
    else if live.status in {Created, Starting} then
      live.(snap := snap, status := Active, dbRevision := live.dbRevision + 1)
    else live.(snap := snap)
  }

  // ------------------------------------------------------------ messages

  /** What is refused before the database is asked, in the order of the checks. */
  function EventRefusal(live: Live, e: Event, env: Env): Option<Reason> {
    if ShortLived(e.kind) && CommandRejection(e, live.snap, env.now).Some? then
      CommandRejection(e, live.snap, env.now)
    else if e.kind == SessionPaused && e.reason.None? then Some(MissingPauseReason)
    else if e.kind == SessionPaused && e.reason.value !in PAUSE_REASONS then Some(InvalidPauseReason)
    else if e.kind == FallbackUsed then Some(FallbackIsServerResolved)
    else if e.kind == UncoveredQuestion && e.source != Wizard then Some(UncoveredQuestionRequiresWizard)
    else if e.kind == SessionStarted && e.source != Wizard then Some(SessionStartRequiresWizard)
    else if Lifecycle(e.kind) && !env.readsWork then Some(PersistenceUnavailable)
    else if !LifecycleAllowed(live.status, e.kind) then Some(InvalidLifecycleTransition)
    else if !env.appendWorks then Some(PersistenceUnavailable)
    else None
  }

  /** The generic event path of `_handle_message`, from the due start on. */
  function HandleEvent(before: Live, e: Event, env: Env): Handled {
    var live := AfterDueStart(before, env.now);
    if KeyOf(e) in live.processed then Handled(live, Duplicate, false)
    else if EventRefusal(live, e, env).Some? then Handled(live, Rejected(EventRefusal(live, e, env).value), false)
    else if Known(live.rows, e) then
      Handled(live.(processed := live.processed + {KeyOf(e)}), Duplicate, false)
    else
      var stored := live.(rows := live.rows + [e]);
      if Lifecycle(e.kind) && !env.lifecycleWorks then Handled(stored, Rejected(PersistenceUnavailable), false)
      else Handled(AfterAccepted(stored, e, env), Accepted, true)
  }

  function AfterAccepted(stored: Live, e: Event, env: Env): Live {
    var moved := if Lifecycle(e.kind) then AfterLifecycle(stored, e.kind) else stored;
    var snap := if e.kind == SessionStarted then AfterScheduledStart(stored.snap, env.now)
                else AfterApply(stored.snap, e, env);
    moved.(snap := if Lifecycle(e.kind) then Adopt(snap, moved.dbRevision) else snap,
           processed := stored.processed + {KeyOf(e)})
  }

  function FallbackRefusal(live: Live, e: Event, env: Env): Option<Reason> {
    if live.snap.state == Paused then Some(SessionIsPaused)
    else if CommandRejection(e, live.snap, env.now).Some? then CommandRejection(e, live.snap, env.now)
    else if !env.categoryKnown then Some(InvalidFallbackCategory)
    else if env.resolvedClip.None? then Some(UnknownCase)
    else None
  }

  /** The `fallback_used` envelope the server writes for a request: the request's keys, the resolved clip. */
  function FallbackEvent(e: Event, env: Env): Event {
    e.(kind := FallbackUsed, clip := env.resolvedClip)
  }

  /** `_handle_request_fallback` */
  function HandleFallback(before: Live, e: Event, env: Env): Handled {
    if e.source != Wizard then Handled(before, Rejected(FallbackRequiresWizard), false)
    else if e.commandId != "" && Chosen(e.commandId) in before.processed then Handled(before, Duplicate, false)
    else
      var live := AfterDueStart(before, env.now);
      var used := FallbackEvent(e, env);
      if FallbackRefusal(live, e, env).Some? then
        Handled(live, Rejected(FallbackRefusal(live, e, env).value), false)
      else if !env.appendWorks then Handled(live, Rejected(PersistenceUnavailable), false)
      else
        var marked := live.(processed := live.processed + {Chosen(e.commandId)});
        if Known(live.rows, used) then Handled(marked, Duplicate, false)
        else
          var streak := live.snap.(fallbacks := live.snap.fallbacks + 1, lastFallback := env.resolvedClip);
          Handled(marked.(rows := live.rows + [used], snap := AfterApply(streak, used, env)), Accepted, true)
  }

  function MaxServerSequence(rows: seq<Event>): int {
    if rows == [] then -1
    else
      var last, rest := rows[|rows| - 1], MaxServerSequence(rows[..|rows| - 1]);
      if last.source == Server && last.sequence > rest then last.sequence else rest
  }

  lemma {:induction false} NextServerSequenceIsUnused(rows: seq<Event>)
    ensures MaxServerSequence(rows) >= -1
    ensures forall i :: 0 <= i < |rows| && rows[i].source == Server ==> rows[i].sequence <= MaxServerSequence(rows)
  {
    if rows != [] {
      NextServerSequenceIsUnused(rows[..|rows| - 1]);
      forall i | 0 <= i < |rows| && rows[i].source == Server
        ensures rows[i].sequence <= MaxServerSequence(rows)
      {
        if i < |rows| - 1 {
          assert rows[..|rows| - 1][i] == rows[i];
        }
      }
    }
  }

  /** A pause the server writes itself, under its own next sequence number. */
  function PauseEvent(live: Live, id: string, reason: string): Event {
    NextServerSequenceIsUnused(live.rows);
    Event(Server, MaxServerSequence(live.rows) + 1, SessionPaused, id, "", None, None, None, Some(reason))
  }

  function AfterServerPause(live: Live, id: string, reason: string, env: Env): Live {
    var e := PauseEvent(live, id, reason);
    var snap := live.snap.(state := Paused, startAt := None, revision := live.snap.revision + 1);
    live.(rows := if env.appendWorks then AfterAppend(live.rows, e) else live.rows,
          status := Paused, dbRevision := live.dbRevision + 1,
          snap := Adopt(snap, live.dbRevision + 1), processed := live.processed + {KeyOf(e)})
  }

  /** `_pause_for_network_failure`, once the due start is settled and the snapshot is active. */
  function AfterNetworkPause(before: Live, id: string, env: Env): Live {
    var live := AfterDueStart(before, env.now);
    if live.snap.state != Active || live.status != Active || !env.readsWork || !env.lifecycleWorks then live
    else AfterServerPause(live, id, "network_failure", env)
  }

  /** `_announce_recorder_lost` */
  function AfterRecorderLost(live: Live, id: string, env: Env): Live {
    if live.status !in {Active, Starting} || !env.lifecycleWorks then live
    else AfterServerPause(live, id, "recording_failure", env)
  }

  // ------------------------------------------------------------ the session object

  class LiveSession {
    var rows: seq<Event>
    var status: SessionState
    var dbRevision: nat
    var processed: set<Key>
    var snap: Snapshot

    function View(): Live
      reads this
    {
      Live(rows, status, dbRevision, processed, snap)
    }

    constructor ()
      ensures View() == NewSession
    {
      rows, status, dbRevision, processed, snap := [], Created, 0, {}, NewSnapshot;
    }

    /** `append_event`: idempotent on both keys; a stored row is never rewritten. */
    method AppendEvent(e: Event) returns (isNew: bool)
      modifies this`rows
      ensures isNew == !Known(old(rows), e)
      ensures rows == AfterAppend(old(rows), e)
    {
      for i := 0 to |rows|
        invariant rows == old(rows)
        invariant forall j :: 0 <= j < i ==> !Collides(rows[j], e)
      {
        if KeyOf(rows[i]) == KeyOf(e) || (rows[i].source == e.source && rows[i].sequence == e.sequence) {
          return false;
        }
      }
      rows := rows + [e];
      isNew := true;
    }

    method SettleDueStart(now: int)
      modifies this
      ensures View() == AfterDueStart(old(View()), now)
    {
      if snap.state != Starting || snap.startAt.None? || now < snap.startAt.value {
        return;
      }
      snap := snap.(state := Active, startAt := None);
      if status == Created || status == Starting {
        status := Active;
        dbRevision := dbRevision + 1;
      }
    }

    /** The pause that both server-side callers write. */
    method PauseAsServer(id: string, reason: string, env: Env)
      modifies this
      ensures View() == AfterServerPause(old(View()), id, reason, env)
    {
      var e := PauseEvent(View(), id, reason);
      status := Paused;
      dbRevision := dbRevision + 1;
      if env.appendWorks {
        var _ := AppendEvent(e);
      }
      snap := snap.(state := Paused, startAt := None, revision := snap.revision + 1);
      snap := Adopt(snap, dbRevision);
      processed := processed + {KeyOf(e)};
    }

    method ReceiveEvent(e: Event, env: Env) returns (reply: Reply)
      modifies this
      ensures View() == HandleEvent(old(View()), e, env).live
      ensures reply == HandleEvent(old(View()), e, env).reply
    {
      SettleDueStart(env.now);
      var key := KeyOf(e);
      if key in processed {
        return Duplicate;
      }
      var refusal := EventRefusal(View(), e, env);
      if refusal.Some? {
        return Rejected(refusal.value);
      }
      var isNew := AppendEvent(e);
      if !isNew {
        processed := processed + {key};
        return Duplicate;
      }
      if Lifecycle(e.kind) {
        if !env.lifecycleWorks {
          return Rejected(PersistenceUnavailable);
        }
        if e.kind != SessionEnded || status != Ended {
          status := Target(e.kind);
          dbRevision := dbRevision + 1;
        }
      }
      if e.kind == SessionStarted {
        snap := AfterScheduledStart(snap, env.now);
      } else {
        snap := AfterApply(snap, e, env);
      }
      if Lifecycle(e.kind) {
        snap := Adopt(snap, dbRevision);
      }
      processed := processed + {key};
      reply := Accepted;
    }

    method ReceiveFallback(e: Event, env: Env) returns (reply: Reply)
      modifies this
      ensures View() == HandleFallback(old(View()), e, env).live
      ensures reply == HandleFallback(old(View()), e, env).reply
    {
      if e.source != Wizard {
        return Rejected(FallbackRequiresWizard);
      }
      if e.commandId != "" && Chosen(e.commandId) in processed {
        return Duplicate;
      }
      SettleDueStart(env.now);
      var refusal := FallbackRefusal(View(), e, env);
      if refusal.Some? {
        return Rejected(refusal.value);
      }
      if !env.appendWorks {
        return Rejected(PersistenceUnavailable);
      }
      var used := FallbackEvent(e, env);
      var isNew := AppendEvent(used);
      processed := processed + {Chosen(e.commandId)};
      if !isNew {
        return Duplicate;
      }
      snap := snap.(fallbacks := snap.fallbacks + 1, lastFallback := env.resolvedClip);
      snap := AfterApply(snap, used, env);
      reply := Accepted;
    }
  }
}

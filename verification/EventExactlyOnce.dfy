/** A client event changes the snapshot at most once, and an answered one is in the log. */
module EventExactlyOnce {
  import opened Common
  import opened EventLog
  import opened EventDelivery

  predicate DistinctRows(rows: seq<Event>) {
    forall i, j :: 0 <= i < j < |rows| ==> !Collides(rows[i], rows[j])
  }

  /** Every change of the snapshot came from its own row. */
  predicate AppliedOk(rows: seq<Event>, applied: seq<Application>) {
    && (forall i :: 0 <= i < |applied| ==> applied[i].event in rows)
    && (forall i, j :: 0 <= i < j < |applied| ==> !Collides(applied[i].event, applied[j].event))
  }

  predicate Applied(applied: seq<Application>, key: Key) {
    exists i :: 0 <= i < |applied| && KeyOf(applied[i].event) == key
  }

  /** The console counts its frames and never reuses a key. */
  predicate SentOk(sent: seq<Pending>) {
    && (forall i :: 0 <= i < |sent| ==> SentFrameOk(sent[i].frame, i))
    && (forall i, j :: 0 <= i < j < |sent| ==> FrameKey(sent[i].frame) != FrameKey(sent[j].frame))
  }

  predicate SentFrameOk(frame: Frame, i: nat) {
    frame.event.source == Wizard && frame.event.sequence == i && FrameKey(frame) == KeyOf(frame.event)
  }

  /** A wizard row is the frame the console sent under that sequence; no other row has a console's key. */
  predicate RowOk(sent: seq<Pending>, row: Event) {
    if row.source == Wizard then row.sequence < |sent| && KeyOf(row) == FrameKey(sent[row.sequence].frame)
    else !IsSent(sent, KeyOf(row))
  }

  predicate RowsOk(sent: seq<Pending>, rows: seq<Event>) {
    forall i :: 0 <= i < |rows| ==> RowOk(sent, rows[i])
  }

  predicate FrameOk(sent: seq<Pending>, f: Frame) {
    if f.event.source == Wizard then f.event.sequence < |sent| && f == sent[f.event.sequence].frame
    else f.event.source == Student && !IsSent(sent, KeyOf(f.event))
  }

  predicate WireOk(sent: seq<Pending>, wire: set<Frame>) {
    forall f :: f in wire ==> FrameOk(sent, f)
  }

  predicate ProcessedOk(sent: seq<Pending>, rows: seq<Event>, processed: set<Key>) {
    forall k :: k in processed && IsSent(sent, k) ==> Stored(rows, k)
  }

  /** A positive answer means a stored row; `accepted` means it also changed the snapshot. */
  predicate AnswerOk(rows: seq<Event>, applied: seq<Application>, key: Key, reply: Reply) {
    && (reply in {Accepted, Duplicate} ==> Stored(rows, key))
    && (reply == Accepted ==> Applied(applied, key))
  }

  predicate AcksOk(w: World) {
    forall a :: a in w.acks ==> AnswerOk(w.server.rows, w.applied, a.key, a.reply)
  }

  predicate LeftOk(w: World) {
    forall k :: k in w.left ==> AnswerOk(w.server.rows, w.applied, k, w.left[k])
  }

  /** A durable frame is pending until an ack names it. */
  predicate PendingOk(w: World) {
    && (forall k :: k in w.pending ==>
          exists i :: 0 <= i < |w.sent| && w.sent[i] == w.pending[k] && FrameKey(w.sent[i].frame) == k)
    && (forall i :: 0 <= i < |w.sent| && !w.sent[i].shortLived ==>
          FrameKey(w.sent[i].frame) in w.pending || FrameKey(w.sent[i].frame) in w.left)
  }

  predicate LogOk(w: World) {
    DistinctRows(w.server.rows) && AppliedOk(w.server.rows, w.applied)
  }

  predicate ConsoleOk(w: World) {
    && SentOk(w.sent) && RowsOk(w.sent, w.server.rows) && WireOk(w.sent, w.wire)
    && ProcessedOk(w.sent, w.server.rows, w.server.processed)
    && AcksOk(w) && LeftOk(w) && PendingOk(w)
  }

  predicate Inv(w: World) {
    LogOk(w) && ConsoleOk(w)
  }

  // ------------------------------------------------------------ what handling a frame does to the durable log

  function StoredForm(frame: Frame, env: Env): Event {
    if frame.Envelope? then frame.event else FallbackEvent(frame.event, env)
  }

  lemma DueStartKeepsLog(live: Live, now: int)
    ensures AfterDueStart(live, now).rows == live.rows
    ensures AfterDueStart(live, now).processed == live.processed
    ensures AfterDueStart(live, now).snap.revision == live.snap.revision
  {
  }

  lemma AcceptedKeepsLog(stored: Live, e: Event, env: Env)
    ensures AfterAccepted(stored, e, env).rows == stored.rows
    ensures AfterAccepted(stored, e, env).processed == stored.processed + {KeyOf(e)}
  {
  }

  /** Handling appends at most the handled event, and applies it only when it appends it. */
  lemma HandlingAppends(live: Live, frame: Frame, env: Env)
    ensures var h, e := Handle(live, frame, env), StoredForm(frame, env);
      && (h.live.rows == live.rows || (h.live.rows == live.rows + [e] && !Known(live.rows, e)))
      && (h.applied ==> h.reply == Accepted && h.live.rows == live.rows + [e] && !Known(live.rows, e))
      && (h.reply == Accepted ==> h.applied)
  {
    hide AfterAccepted, EventRefusal, FallbackRefusal, AfterApply, AfterDueStart;
    DueStartKeepsLog(live, env.now);
    var due := AfterDueStart(live, env.now);
    AcceptedKeepsLog(due.(rows := due.rows + [frame.event]), frame.event, env);
  }

  /** A key is remembered, or answered `duplicate`, only for a known event. */
  lemma HandlingRemembers(live: Live, frame: Frame, env: Env)
    requires frame.event.source == Wizard ==> FrameKey(frame) == KeyOf(frame.event)
    ensures var h, e := Handle(live, frame, env), StoredForm(frame, env);
      && live.processed <= h.live.processed <= live.processed + {FrameKey(frame)}
      && (FrameKey(frame) in h.live.processed ==> FrameKey(frame) in live.processed || Known(h.live.rows, e))
      && (h.reply == Duplicate ==> FrameKey(frame) in live.processed || Known(h.live.rows, e))
  {
    hide AfterAccepted, EventRefusal, FallbackRefusal, AfterApply, AfterDueStart;
    DueStartKeepsLog(live, env.now);
    var due := AfterDueStart(live, env.now);
    var e := StoredForm(frame, env);
    AcceptedKeepsLog(due.(rows := due.rows + [frame.event]), frame.event, env);
    var grown := live.rows + [e];
    assert grown[|live.rows|] == e && Collides(e, e);
    assert Known(grown, e);
  }

  /** With the console's own counter, a row that collides with its frame is that frame. */
  lemma KnownMeansStored(sent: seq<Pending>, rows: seq<Event>, e: Event)
    requires SentOk(sent) && RowsOk(sent, rows) && Known(rows, e)
    requires e.source == Wizard && e.sequence < |sent| && KeyOf(e) == FrameKey(sent[e.sequence].frame)
    ensures Stored(rows, KeyOf(e))
  {
    var i :| 0 <= i < |rows| && Collides(rows[i], e);
    assert RowOk(sent, rows[i]);
    assert KeyOf(rows[i]) == KeyOf(e);
  }

  // ------------------------------------------------------------ growth

  lemma StoredStays(rows: seq<Event>, later: seq<Event>, key: Key)
    requires Stored(rows, key) && rows <= later
    ensures Stored(later, key)
  {
    var i :| 0 <= i < |rows| && KeyOf(rows[i]) == key;
    assert later[i] == rows[i];
  }

  lemma AppliedStays(applied: seq<Application>, later: seq<Application>, key: Key)
    requires Applied(applied, key) && applied <= later
    ensures Applied(later, key)
  {
    var i :| 0 <= i < |applied| && KeyOf(applied[i].event) == key;
    assert later[i] == applied[i];
  }

  lemma AnswersStay(w: World, after: World)
    requires AcksOk(w) && LeftOk(w) && w.server.rows <= after.server.rows && w.applied <= after.applied
    requires after.left == w.left
    ensures LeftOk(after)
    ensures forall a :: a in w.acks ==> AnswerOk(after.server.rows, after.applied, a.key, a.reply)
  {
    forall key: Key, reply: Reply | AnswerOk(w.server.rows, w.applied, key, reply)
      ensures AnswerOk(after.server.rows, after.applied, key, reply)
    {
      if Stored(w.server.rows, key) {
        StoredStays(w.server.rows, after.server.rows, key);
      }
      if Applied(w.applied, key) {
        AppliedStays(w.applied, after.applied, key);
      }
    }
  }

  lemma AppendKeepsLog(w: World, e: Event)
    requires LogOk(w) && !Known(w.server.rows, e)
    ensures DistinctRows(w.server.rows + [e])
    ensures AppliedOk(w.server.rows + [e], w.applied)
    ensures forall a: Application :: a.event == e ==> AppliedOk(w.server.rows + [e], w.applied + [a])
  {
    forall i | 0 <= i < |w.server.rows| ensures !Collides(w.server.rows[i], e) {
    }
    assert (w.server.rows + [e])[|w.server.rows|] == e;
    forall i | 0 <= i < |w.applied| ensures w.applied[i].event in w.server.rows + [e]
    {
      assert w.applied[i].event in w.server.rows;
    }
  }

  // ------------------------------------------------------------ steps

  lemma DeliverKeepsLog(w: World, frame: Frame, env: Env)
    requires LogOk(w)
    ensures LogOk(AfterDeliver(w, frame, env))
    ensures w.server.rows <= AfterDeliver(w, frame, env).server.rows
    ensures w.applied <= AfterDeliver(w, frame, env).applied
  {
    hide Handle, AppliedOk, DistinctRows;
    HandlingAppends(w.server, frame, env);
    if !Known(w.server.rows, StoredForm(frame, env)) {
      AppendKeepsLog(w, StoredForm(frame, env));
    }
  }

  lemma DeliverAnswers(w: World, frame: Frame, env: Env)
    requires Inv(w) && frame in w.wire && frame.event.source == Wizard
    ensures var h := Handle(w.server, frame, env);
      AnswerOk(h.live.rows, AfterDeliver(w, frame, env).applied, FrameKey(frame), h.reply)
    ensures var h := Handle(w.server, frame, env);
      ProcessedOk(w.sent, h.live.rows, h.live.processed) && RowsOk(w.sent, h.live.rows)
  {
    hide Handle, KeyOf;
    var h, e := Handle(w.server, frame, env), StoredForm(frame, env);
    assert FrameOk(w.sent, frame) && SentFrameOk(w.sent[e.sequence].frame, e.sequence);
    HandlingAppends(w.server, frame, env);
    HandlingRemembers(w.server, frame, env);
    StoredFormKey(frame, env);
    assert RowOk(w.sent, e);
    assert RowsOk(w.sent, h.live.rows);
    if Known(h.live.rows, e) {
      KnownMeansStored(w.sent, h.live.rows, e);
    }
    forall k | k in h.live.processed && IsSent(w.sent, k) ensures Stored(h.live.rows, k) {
      if k in w.server.processed {
        StoredStays(w.server.rows, h.live.rows, k);
      }
    }
    if h.reply == Accepted {
      var after := AfterDeliver(w, frame, env).applied;
      assert KeyOf(after[|w.applied|].event) == FrameKey(frame);
      assert h.live.rows[|w.server.rows|] == e;
    }
    if h.reply == Duplicate && FrameKey(frame) in w.server.processed {
      assert IsSent(w.sent, FrameKey(frame));
      StoredStays(w.server.rows, h.live.rows, FrameKey(frame));
    }
  }

  lemma StoredFormKey(frame: Frame, env: Env)
    ensures KeyOf(StoredForm(frame, env)) == KeyOf(frame.event)
    ensures StoredForm(frame, env).source == frame.event.source
    ensures StoredForm(frame, env).sequence == frame.event.sequence
  {
  }

  lemma StudentKeepsConsole(w: World, frame: Frame, env: Env)
    requires Inv(w) && frame in w.wire && frame.event.source != Wizard
    ensures var h := Handle(w.server, frame, env);
      ProcessedOk(w.sent, h.live.rows, h.live.processed) && RowsOk(w.sent, h.live.rows)
  {
    hide Handle, KeyOf;
    var h, e := Handle(w.server, frame, env), StoredForm(frame, env);
    assert FrameOk(w.sent, frame);
    HandlingAppends(w.server, frame, env);
    StudentProcessed(w.server, frame, env);
    StoredFormKey(frame, env);
    assert RowOk(w.sent, e);
    forall k | k in h.live.processed && IsSent(w.sent, k) ensures Stored(h.live.rows, k) {
      StoredStays(w.server.rows, h.live.rows, k);
    }
  }

  lemma StudentProcessed(live: Live, frame: Frame, env: Env)
    requires frame.event.source == Student
    ensures Handle(live, frame, env).live.processed <= live.processed + {KeyOf(frame.event)}
  {
    hide AfterAccepted, EventRefusal, AfterApply, AfterDueStart;
    DueStartKeepsLog(live, env.now);
    var due := AfterDueStart(live, env.now);
    AcceptedKeepsLog(due.(rows := due.rows + [frame.event]), frame.event, env);
  }

  lemma DeliverKeeps(w: World, frame: Frame, env: Env)
    requires Inv(w) && frame in w.wire
    ensures Inv(AfterDeliver(w, frame, env))
  {
    hide Handle, DistinctRows, AppliedOk, ProcessedOk, RowsOk, AnswerOk, WireOk, SentOk, PendingOk;
    DeliverKeepsLog(w, frame, env);
    AnswersStay(w, AfterDeliver(w, frame, env));
    if frame.event.source == Wizard {
      DeliverAnswers(w, frame, env);
    } else {
      StudentKeepsConsole(w, frame, env);
    }
    DeliverKeepsPending(w, frame, env);
  }

  lemma DeliverKeepsPending(w: World, frame: Frame, env: Env)
    requires PendingOk(w)
    ensures PendingOk(AfterDeliver(w, frame, env))
  {
    hide Handle;
  }

  /** A new frame has a fresh key and the next number, so nothing stored or in flight is mistaken for it. */
  lemma SendKeeps(w: World, frame: Frame, shortLived: bool)
    requires Inv(w) && Enabled(w, Send(frame, shortLived))
    ensures Inv(AfterSend(w, frame, shortLived))
  {
    hide KeyOf;
    var sent := w.sent + [Pending(frame, shortLived)];
    assert forall i :: 0 <= i < |w.sent| ==> sent[i] == w.sent[i];
    forall k ensures IsSent(sent, k) <==> IsSent(w.sent, k) || k == FrameKey(frame) {
      if k == FrameKey(frame) {
        assert FrameKey(sent[|w.sent|].frame) == k;
      }
      if IsSent(w.sent, k) {
        var i :| 0 <= i < |w.sent| && FrameKey(w.sent[i].frame) == k;
        assert FrameKey(sent[i].frame) == k;
      }
    }
    SendKeepsSent(w, frame, shortLived);
    assert RowsOk(sent, w.server.rows) by {
      forall i | 0 <= i < |w.server.rows| ensures RowOk(sent, w.server.rows[i]) {
        assert RowOk(w.sent, w.server.rows[i]);
      }
    }
    assert WireOk(sent, w.wire + {frame}) by {
      forall f | f in w.wire ensures FrameOk(sent, f) {
        assert FrameOk(w.sent, f);
      }
    }
    SendKeepsPending(w, frame, shortLived);
  }

  lemma SendKeepsSent(w: World, frame: Frame, shortLived: bool)
    requires Inv(w) && Enabled(w, Send(frame, shortLived))
    ensures SentOk(w.sent + [Pending(frame, shortLived)])
  {
    var sent := w.sent + [Pending(frame, shortLived)];
    forall i | 0 <= i < |w.sent| ensures FrameKey(sent[i].frame) != FrameKey(frame) {
    }
  }

  lemma SendKeepsPending(w: World, frame: Frame, shortLived: bool)
    requires PendingOk(w)
    ensures PendingOk(AfterSend(w, frame, shortLived))
  {
    hide KeyOf;
    var after := AfterSend(w, frame, shortLived);
    assert forall i :: 0 <= i < |w.sent| ==> after.sent[i] == w.sent[i];
    forall k | k in after.pending
      ensures exists i ::
        0 <= i < |after.sent| && after.sent[i] == after.pending[k] && FrameKey(after.sent[i].frame) == k
    {
      if k == FrameKey(frame) {
        assert after.sent[|w.sent|] == after.pending[k];
      } else {
        var i :| 0 <= i < |w.sent| && w.sent[i] == w.pending[k] && FrameKey(w.sent[i].frame) == k;
        assert after.sent[i] == after.pending[k];
      }
    }
  }

  lemma AckKeeps(w: World, ack: Ack)
    requires Inv(w) && ack in w.acks
    ensures Inv(AfterTakeAck(w, ack))
  {
    hide AnswerOk, SentOk, RowsOk, WireOk, ProcessedOk, DistinctRows, AppliedOk;
  }

  lemma AskKeeps(w: World)
    requires Inv(w)
    ensures Inv(w.(pending := Durable(w.pending)))
  {
    hide AnswerOk, RowsOk, WireOk, ProcessedOk, DistinctRows, AppliedOk;
    var after := w.(pending := Durable(w.pending));
    forall i | 0 <= i < |w.sent| && !w.sent[i].shortLived
      ensures FrameKey(w.sent[i].frame) in after.pending || FrameKey(w.sent[i].frame) in after.left
    {
      var k := FrameKey(w.sent[i].frame);
      if k in w.pending {
        var j :| 0 <= j < |w.sent| && w.sent[j] == w.pending[k] && FrameKey(w.sent[j].frame) == k;
        assert j == i;
      }
    }
  }

  /** A replay resends exactly the frames that were sent before. */
  lemma ReplayKeeps(w: World)
    requires Inv(w)
    ensures Inv(w.(wire := w.wire + Frames(w.pending)))
  {
    hide AnswerOk, RowsOk, ProcessedOk, DistinctRows, AppliedOk, KeyOf;
    forall f | f in Frames(w.pending) ensures FrameOk(w.sent, f) {
      var k :| k in w.pending && w.pending[k].frame == f;
      var i :| 0 <= i < |w.sent| && w.sent[i] == w.pending[k] && FrameKey(w.sent[i].frame) == k;
      assert SentFrameOk(w.sent[i].frame, i);
    }
  }

  lemma ServerPauseKeeps(w: World, live: Live, id: string, reason: string, env: Env)
    requires Inv(w) && id != "" && !IsSent(w.sent, Chosen(id))
    requires live.rows == w.server.rows && live.processed == w.server.processed
    ensures Inv(w.(server := AfterServerPause(live, id, reason, env)))
  {
    var after := w.(server := AfterServerPause(live, id, reason, env));
    PauseShape(live, id, reason, env);
    hide AfterServerPause, AnswerOk, WireOk, SentOk, PendingOk, DistinctRows, AppliedOk;
    var e := PauseEvent(live, id, reason);
    if after.server.rows != w.server.rows {
      AppendKeepsLog(w, e);
      assert RowOk(w.sent, e);
    }
    AnswersStay(w, after);
    forall k | k in after.server.processed && IsSent(w.sent, k) ensures Stored(after.server.rows, k) {
      StoredStays(w.server.rows, after.server.rows, k);
    }
  }

  lemma PauseShape(live: Live, id: string, reason: string, env: Env)
    requires id != ""
    ensures var after, e := AfterServerPause(live, id, reason, env), PauseEvent(live, id, reason);
      && e.source == Server && KeyOf(e) == Chosen(id)
      && after.processed <= live.processed + {Chosen(id)}
      && (after.rows == live.rows || (after.rows == live.rows + [e] && !Known(live.rows, e)))
  {
  }

  /** A change of the session row and of the snapshot alone. */
  lemma LogUntouchedKeeps(w: World, live: Live)
    requires Inv(w) && live.rows == w.server.rows && live.processed == w.server.processed
    ensures Inv(w.(server := live))
  {
    hide AnswerOk, RowsOk, ProcessedOk, DistinctRows, AppliedOk, KeyOf, WireOk, SentOk;
  }

  lemma PauseKeeps(w: World, id: string, env: Env)
    requires Inv(w) && id != "" && !IsSent(w.sent, Chosen(id))
    ensures Inv(w.(server := AfterNetworkPause(w.server, id, env)))
    ensures Inv(w.(server := AfterRecorderLost(w.server, id, env)))
  {
    hide Inv, AfterServerPause, AfterDueStart;
    DueStartKeepsLog(w.server, env.now);
    var due := AfterDueStart(w.server, env.now);
    LogUntouchedKeeps(w, due);
    ServerPauseKeeps(w, due, id, "network_failure", env);
    ServerPauseKeeps(w, w.server, id, "recording_failure", env);
  }

  lemma ServerLossKeeps(w: World, durable: Live)
    requires Inv(w) && LogOk(w.(server := durable)) && RowsOk(w.sent, durable.rows)
    requires w.server.rows <= durable.rows
    ensures Inv(AfterRestart(w.(server := durable)))
  {
    hide AnswerOk, WireOk, SentOk, RowsOk, DistinctRows, AppliedOk;
    AnswersStay(w, AfterRestart(w.(server := durable)));
    assert PendingOk(AfterRestart(w.(server := durable)));
  }

  lemma DeathKeeps(w: World, frame: Frame, env: Env, lifecycleToo: bool)
    requires Inv(w) && frame in w.wire
    ensures Inv(AfterDeath(w, frame, env, lifecycleToo))
  {
    hide Handle, ProcessedOk, RowsOk, AnswerOk, WireOk, SentOk, PendingOk, DistinctRows, AppliedOk;
    var h := Handle(w.server, frame, env);
    HandlingAppends(w.server, frame, env);
    if !Known(w.server.rows, StoredForm(frame, env)) {
      AppendKeepsLog(w, StoredForm(frame, env));
    }
    if frame.event.source == Wizard {
      DeliverAnswers(w, frame, env);
    } else {
      StudentKeepsConsole(w, frame, env);
    }
    var left := w.server.(rows := h.live.rows);
    ServerLossKeeps(w, if lifecycleToo then left.(status := h.live.status, dbRevision := h.live.dbRevision) else left);
  }

  lemma StudentSendKeeps(w: World, frame: Frame)
    requires Inv(w) && Enabled(w, StudentSends(frame))
    ensures Inv(w.(wire := w.wire + {frame}))
  {
    hide AnswerOk, RowsOk, ProcessedOk, DistinctRows, AppliedOk, KeyOf;
  }

  lemma EndKeeps(w: World)
    requires Inv(w)
    ensures Inv(w.(server := AfterEndRoute(w.server)))
  {
    LogUntouchedKeeps(w, AfterEndRoute(w.server));
  }

  lemma StepKeeps(w: World, step: Step)
    requires Inv(w) && Enabled(w, step)
    ensures Inv(Do(w, step))
  {
    hide Inv, AfterSend, AfterDeliver, AfterTakeAck, AfterRestart, AfterDeath, AfterEndRoute, AfterNetworkPause,
      AfterRecorderLost;
    match step
    case Send(frame, shortLived) => SendKeeps(w, frame, shortLived);
    case StudentSends(frame) => StudentSendKeeps(w, frame);
    case Deliver(frame, env) => DeliverKeeps(w, frame, env);
    case TakeAck(ack) => AckKeeps(w, ack);
    case AskSnapshot => AskKeeps(w);
    case Replay => ReplayKeeps(w);
    case NetworkPause(id, env) => PauseKeeps(w, id, env);
    case RecorderLostPause(id, env) => PauseKeeps(w, id, env);
    case EndRoute => EndKeeps(w);
    case Restart => RestartKeeps(w);
    case DieWhileHandling(frame, env, lifecycleToo) => DeathKeeps(w, frame, env, lifecycleToo);
  }

  lemma RestartKeeps(w: World)
    requires Inv(w)
    ensures Inv(AfterRestart(w))
  {
    ServerLossKeeps(w, w.server);
  }

  /** The log only grows, whatever the step. */
  lemma LogOnlyGrows(w: World, step: Step)
    requires Inv(w) && Enabled(w, step)
    ensures w.server.rows <= Do(w, step).server.rows && w.applied <= Do(w, step).applied
  {
    hide Inv, Handle, AfterDueStart;
    match step
    case Deliver(frame, env) => HandlingAppends(w.server, frame, env);
    case DieWhileHandling(frame, env, _) => HandlingAppends(w.server, frame, env);
    case NetworkPause(id, env) => DueStartKeepsLog(w.server, env.now);
    case _ =>
  }

  lemma {:induction false} EveryRunKeeps(w: World, steps: seq<Step>)
    requires Inv(w) && EventDelivery.PossibleRun(w, steps)
    ensures Inv(AfterRun(w, steps))
    ensures w.server.rows <= AfterRun(w, steps).server.rows && w.applied <= AfterRun(w, steps).applied
    decreases |steps|
  {
    hide Inv, Enabled, Do;
    if steps != [] {
      StepKeeps(w, steps[0]);
      LogOnlyGrows(w, steps[0]);
      EveryRunKeeps(Do(w, steps[0]), steps[1..]);
    }
  }

  /**
   * Through losses, repeats, reconnects and restarts: stored rows have distinct keys and distinct
   * (source, sequence); the snapshot changes at most once for each, and only for a stored row.
   */
  lemma AppliedAtMostOnce(steps: seq<Step>)
    requires EventDelivery.PossibleRun(Start, steps)
    ensures var w := AfterRun(Start, steps);
      && (forall i, j :: 0 <= i < j < |w.server.rows| ==>
            && KeyOf(w.server.rows[i]) != KeyOf(w.server.rows[j])
            && (w.server.rows[i].source, w.server.rows[i].sequence)
                 != (w.server.rows[j].source, w.server.rows[j].sequence))
      && (forall i :: 0 <= i < |w.applied| ==> w.applied[i].event in w.server.rows)
      && (forall i, j :: 0 <= i < j < |w.applied| ==> KeyOf(w.applied[i].event) != KeyOf(w.applied[j].event))
  {
    EveryRunKeeps(Start, steps);
    var w := AfterRun(Start, steps);
    assert forall i, j :: 0 <= i < j < |w.server.rows| ==> !Collides(w.server.rows[i], w.server.rows[j]);
    assert forall i, j :: 0 <= i < j < |w.applied| ==> !Collides(w.applied[i].event, w.applied[j].event);
  }

  predicate IsRowOf(row: Event, frame: Frame) {
    row.source == frame.event.source && row.sequence == frame.event.sequence && KeyOf(row) == FrameKey(frame)
  }

  predicate OnlyApplication(applied: seq<Application>, a: nat, key: Key)
    requires a < |applied|
  {
    KeyOf(applied[a].event) == key && forall b :: 0 <= b < |applied| && KeyOf(applied[b].event) == key ==> b == a
  }

  lemma StoredIsTheFrame(w: World, i: nat)
    requires Inv(w) && i < |w.sent| && Stored(w.server.rows, FrameKey(w.sent[i].frame))
    ensures exists r :: 0 <= r < |w.server.rows| && IsRowOf(w.server.rows[r], w.sent[i].frame)
  {
    hide KeyOf, FrameKey;
    var r :| 0 <= r < |w.server.rows| && KeyOf(w.server.rows[r]) == FrameKey(w.sent[i].frame);
    assert RowOk(w.sent, w.server.rows[r]) && SentFrameOk(w.sent[i].frame, i);
    assert w.server.rows[r].sequence == i;
    assert IsRowOf(w.server.rows[r], w.sent[i].frame);
  }

  /**
   * A durable event of the console stays pending until an ack names it; if that ack was positive the
   * event is in the log, and if it said `accepted` the event changed the snapshot exactly once.
   */
  lemma DurableEventsAreAnswered(steps: seq<Step>, i: nat)
    requires EventDelivery.PossibleRun(Start, steps)
    requires i < |AfterRun(Start, steps).sent| && !AfterRun(Start, steps).sent[i].shortLived
    ensures var w := AfterRun(Start, steps);
      var key := FrameKey(w.sent[i].frame);
      || key in w.pending
      || (&& key in w.left
          && (w.left[key] in {Accepted, Duplicate} ==>
                exists r :: 0 <= r < |w.server.rows| && IsRowOf(w.server.rows[r], w.sent[i].frame))
          && (w.left[key] == Accepted ==>
                exists a :: 0 <= a < |w.applied| && OnlyApplication(w.applied, a, key)))
  {
    EveryRunKeeps(Start, steps);
    var w := AfterRun(Start, steps);
    var key := FrameKey(w.sent[i].frame);
    if key !in w.pending {
      assert AnswerOk(w.server.rows, w.applied, key, w.left[key]);
      if w.left[key] in {Accepted, Duplicate} {
        StoredIsTheFrame(w, i);
      }
      if w.left[key] == Accepted {
        var a :| 0 <= a < |w.applied| && KeyOf(w.applied[a].event) == key;
        forall b | 0 <= b < |w.applied| && KeyOf(w.applied[b].event) == key ensures b == a {
          assert a < b ==> !Collides(w.applied[a].event, w.applied[b].event);
          assert b < a ==> !Collides(w.applied[b].event, w.applied[a].event);
        }
        assert OnlyApplication(w.applied, a, key);
      }
    }
  }
}

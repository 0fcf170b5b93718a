/** The completeness state machine of one recording row (server/app/recording_integrity.py). */
module RecordingIntegrity {
  import opened Common

  datatype RecState =
    | Recording | Finalizing | Complete | Incomplete
    | Transcoding | Transcoded | Uploaded | TranscodeFailed
    | Deleting | Deleted

  datatype FinState = NotFinalized | Pending | FinComplete | FinIncomplete

  datatype IncompleteReason = RecorderLost | OperatorIncomplete | GraceExpired | MissingChunks

  /** The finalize declaration of the browser. `lost` is `reason == "recorder_lost"`. */
  datatype Payload = Payload(finalSeq: int, totalChunks: int, durationMs: int, lost: bool)

  datatype Row = Row(
    state: RecState,
    fin: FinState,
    finalSeq: Option<int>,
    totalChunks: Option<int>,
    durationMs: Option<int>,
    declaredLost: bool,
    incompleteReason: Option<IncompleteReason>,
    needsOperator: bool,
    missing: seq<nat>,
    manifest: Option<map<nat, Digest>>,
    takeId: Option<nat>)

  datatype FinalizeResult = Accepted | DeletedConflict | BelowStored | FinalizeConflict

  const FreshRow := Row(Recording, NotFinalized, None, None, None, false, None, false, [], None, None)

  predicate Tombstoned(state: RecState) {
    state in {Deleting, Deleted}
  }

  predicate Terminal(state: RecState) {
    state in {Transcoding, Transcoded, Uploaded, TranscodeFailed, Deleting, Deleted}
  }

  /** Complete, or anything the worker turns a complete take into. */
  predicate CompleteOrLater(state: RecState) {
    state in {Complete, Transcoding, Transcoded, Uploaded, TranscodeFailed}
  }

  predicate Open(state: RecState) {
    state in {Recording, Finalizing}
  }

  predicate Protected(row: Row) {
    row.needsOperator || row.incompleteReason in {Some(RecorderLost), Some(OperatorIncomplete)}
  }

  // ------------------------------------------------------------ what is stored, what is missing

  function Received(row: Row, store: SliceStore): set<nat> {
    if row.manifest.Some? && row.fin == FinComplete then row.manifest.value.Keys else store.Keys
  }

  function MissingBelow(received: set<nat>, n: nat): seq<nat> {
    if n == 0 then [] else
    MissingBelow(received, n - 1) + (if n - 1 in received then [] else [n - 1])
  }

  function MissingForFinal(received: set<nat>, finalSeq: int): seq<nat> {
    if finalSeq < 0 then [] else MissingBelow(received, finalSeq + 1)
  }

  lemma {:induction false} MissingBelowExact(received: set<nat>, n: nat)
    ensures forall k: nat :: k in MissingBelow(received, n) <==> k < n && k !in received
    ensures Ascending(MissingBelow(received, n))
  {
    if n > 0 {
      MissingBelowExact(received, n - 1);
      var shorter := MissingBelow(received, n - 1);
      assert forall k :: 0 <= k < |shorter| ==> shorter[k] in shorter;
    }
  }

  predicate Ascending(s: seq<nat>) {
    forall i, j :: 0 <= i < j < |s| ==> s[i] < s[j]
  }

  /** The missing list is exactly the gap set of 0..final, ascending and without repeats. */
  lemma MissingForFinalExact(received: set<nat>, finalSeq: int)
    ensures forall k: nat :: k in MissingForFinal(received, finalSeq) <==> k <= finalSeq && k !in received
    ensures Ascending(MissingForFinal(received, finalSeq))
  {
    if finalSeq >= 0 {
      MissingBelowExact(received, finalSeq + 1);
    }
  }

  /** Every sequence of 0..final is stored. */
  predicate Whole(received: set<nat>, finalSeq: int) {
    Below(finalSeq + 1) <= received
  }

  lemma NothingMissingIsWhole(received: set<nat>, finalSeq: int)
    ensures MissingForFinal(received, finalSeq) == [] <==> Whole(received, finalSeq)
  {
    MissingForFinalExact(received, finalSeq);
    var missing := MissingForFinal(received, finalSeq);
    if missing != [] {
      assert missing[0] in missing;
      assert missing[0] in Below(finalSeq + 1);
    }
    if !Whole(received, finalSeq) {
      var k :| k in Below(finalSeq + 1) && k !in received;
      assert k in missing;
    }
  }

  lemma FirstIsLeast(s: seq<nat>)
    requires s != [] && Ascending(s)
    ensures s[0] in s && forall k :: k in s ==> s[0] <= k
  {
  }

  /** The first sequence the browser still has to send, or None once a declared take has no gap. */
  method NextExpectedSequence(received: set<nat>, finalSeq: Option<int>) returns (next: Option<nat>)
    ensures next.Some? ==> next.value !in received && Below(next.value) <= received
    ensures next.None? <==> finalSeq.Some? && Whole(received, finalSeq.value)
    ensures next.Some? && finalSeq.Some? ==> next.value <= finalSeq.value
  {
    if finalSeq.Some? {
      var missing := MissingForFinal(received, finalSeq.value);
      NothingMissingIsWhole(received, finalSeq.value);
      MissingForFinalExact(received, finalSeq.value);
      if missing == [] {
        return None;
      }
      FirstIsLeast(missing);
      return Some(missing[0]);
    }
    if received == {} {
      return Some(0);
    }
    var upper := MaxOf(received);
    var n := 0;
    while n <= upper
      invariant 0 <= n <= upper + 1
      invariant Below(n) <= received
    {
      if n !in received {
        return Some(n);
      }
      n := n + 1;
    }
    return Some(upper + 1);
  }

  lemma MaxExists(s: set<nat>)
    requires s != {}
    ensures exists m :: m in s && forall k :: k in s ==> k <= m
  {
    var x :| x in s;
    if s - {x} == {} {
      assert s == {x};
    } else {
      MaxExists(s - {x});
      var m :| m in s - {x} && forall k :: k in s - {x} ==> k <= m;
      assert forall k :: k in s ==> k == x || k in s - {x};
      assert x <= m || (x in s && forall k :: k in s ==> k <= x);
    }
  }

  function MaxOf(s: set<nat>): (m: nat)
    requires s != {}
    ensures m in s && forall k :: k in s ==> k <= m
  {
    MaxExists(s);
    var m :| m in s && forall k :: k in s ==> k <= m;
    m
  }

  function HeaderOk(store: SliceStore): bool {
    0 in store && HasEbmlMagic(store[0])
  }

  predicate CompletenessOk(row: Row, store: SliceStore) {
    && row.finalSeq.Some? && row.totalChunks.Some?
    && row.totalChunks.value == row.finalSeq.value + 1
    && |Received(row, store)| == row.totalChunks.value
    && MissingForFinal(Received(row, store), row.finalSeq.value) == []
    && HeaderOk(store)
  }

  /** A complete take holds the slices 0..final and nothing else, and slice 0 opens a WebM stream. */
  lemma CompletenessMeaning(row: Row, store: SliceStore)
    requires row.finalSeq.Some? && row.finalSeq.value >= -1
    requires row.totalChunks == Some(row.finalSeq.value + 1)
    ensures CompletenessOk(row, store)
      <==> Received(row, store) == Below(row.finalSeq.value + 1) && HeaderOk(store)
  {
    var received, final := Received(row, store), row.finalSeq.value;
    NothingMissingIsWhole(received, final);
    BelowSize(final + 1);
    if CompletenessOk(row, store) {
      SubsetOfSameSize(Below(final + 1), received);
    }
  }

  // ------------------------------------------------------------ transitions of the row

  function SyncMissing(row: Row, store: SliceStore): Row {
    row.(missing := if row.finalSeq.None? then []
                    else MissingForFinal(Received(row, store), row.finalSeq.value))
  }

  function MarkComplete(row: Row): Row {
    row.(state := Complete, fin := FinComplete, incompleteReason := None, needsOperator := false, missing := [])
  }

  function ApplyPayload(row: Row, p: Payload, lost: bool): Row {
    row.(finalSeq := Some(p.finalSeq), totalChunks := Some(p.totalChunks), durationMs := Some(p.durationMs),
         declaredLost := lost)
  }

  predicate Matches(row: Row, p: Payload) {
    && row.finalSeq == Some(p.finalSeq)
    && row.totalChunks == Some(p.totalChunks)
    && row.durationMs == Some(p.durationMs)
    && row.declaredLost == p.lost
  }

  /** What a row becomes when a slice lands, and whether a transcode job is enqueued. */
  function AfterRefresh(row: Row, store: SliceStore): (Row, bool) {
    if row.finalSeq.None? then (row, false)
    else if Terminal(row.state) || row.state == Incomplete || Protected(row) then (SyncMissing(row, store), false)
    else if row.state == Complete then (row, false)
    else
      var synced := SyncMissing(row, store);
      if CompletenessOk(synced, store) then (MarkComplete(synced), true) else (synced, false)
  }

  /** Python's `(final or -1)`: a stored final sequence of 0 counts as -1. */
  function OrMinusOne(n: int): int {
    if n == 0 then -1 else n
  }

  /** A different declaration the server still takes on an open row. */
  predicate Redeclares(row: Row, p: Payload)
    requires row.finalSeq.Some?
  {
    || (row.state == Finalizing && p.finalSeq > OrMinusOne(row.finalSeq.value))
    || (p.lost && Open(row.state) && p.finalSeq >= OrMinusOne(row.finalSeq.value))
  }

  /** The decision of a finalize declaration against the row and the disk. */
  function FinalizeDecision(row: Row, store: SliceStore, p: Payload): FinalizeResult {
    if Tombstoned(row.state) then DeletedConflict
    else if exists k :: k in store.Keys && k > p.finalSeq then BelowStored
    else if row.finalSeq.None? || Matches(row, p) then Accepted
    else if Open(row.state) && !Protected(row) && Redeclares(row, p) then Accepted
    else FinalizeConflict
  }

  /** The row after an accepted declaration, and whether a transcode job is enqueued. */
  function AfterAccepted(row: Row, store: SliceStore, p: Payload): (Row, bool) {
    var first := row.finalSeq.None?;
    if Protected(row) then
      var kept := if first then ApplyPayload(row, p, row.declaredLost || p.lost) else row;
      (SyncMissing(kept.(state := Incomplete, fin := FinIncomplete, needsOperator := true), store), false)
    else if row.state == Incomplete then
      (SyncMissing(if first then ApplyPayload(row, p, p.lost) else row, store), false)
    else
      var declared := ApplyPayload(row, p, p.lost);
      if p.lost then
        (SyncMissing(declared.(state := Incomplete, fin := FinIncomplete,
                               incompleteReason := Some(RecorderLost), needsOperator := true), store), false)
      else
        var open := if Open(declared.state) then declared.(state := Finalizing, fin := Pending) else declared;
        var synced := SyncMissing(open, store);
        if !Terminal(synced.state) && CompletenessOk(synced, store) then (MarkComplete(synced), true)
        else (synced, false)
  }

  function AfterFinalize(row: Row, store: SliceStore, p: Payload): (Row, bool) {
    if FinalizeDecision(row, store, p) == Accepted then AfterAccepted(row, store, p) else (row, false)
  }

  function AfterSessionEnd(row: Row): Row {
    if row.state == Recording then row.(state := Finalizing) else row
  }

  /** A sweep decides from the row it read; the write happens later, and does not carry `readFinal`. */
  datatype SweepVerdict = Skip | ToComplete(readFinal: int) | ToIncomplete(reason: IncompleteReason, missing: seq<nat>)

  function SweepDecision(row: Row, store: SliceStore): SweepVerdict {
    if !Open(row.state) || Protected(row) then Skip
    else if row.finalSeq.None? then ToIncomplete(GraceExpired, [])
    else if CompletenessOk(row, store) then ToComplete(row.finalSeq.value)
    else ToIncomplete(MissingChunks, MissingForFinal(store.Keys, row.finalSeq.value))
  }

  /** The guarded UPDATE of `claim_open_recording`: it matches only an open row without an operator flag. */
  function AfterSweepClaim(row: Row, verdict: SweepVerdict): Row {
    if verdict == Skip || !Open(row.state) || row.needsOperator then row
    else if verdict.ToComplete? then MarkComplete(row)
    else row.(state := Incomplete, fin := FinIncomplete, incompleteReason := Some(verdict.reason),
              missing := verdict.missing)
  }

  /** The guarded UPDATE every worker step uses on the row (jobs.py `_set_recording`, `_upload`). */
  predicate WorkerMayWrite(row: Row) {
    !Tombstoned(row.state) && !row.needsOperator && row.fin == FinComplete
  }

  function AfterWorkerWrite(row: Row, state: RecState, manifest: Option<map<nat, Digest>>): Row {
    if !WorkerMayWrite(row) then row
    else row.(state := state, manifest := if manifest.Some? then manifest else row.manifest)
  }

  /** A failed transcode attempt (jobs.py `_finish_once`). */
  function AfterTranscodeError(row: Row): Row {
    if !Tombstoned(row.state) && row.fin == FinComplete then row.(state := TranscodeFailed) else row
  }

  /** A recovered transcode lease that ran out of attempts (jobs.py `recover`). */
  function AfterLeaseRecovered(row: Row): Row {
    if row.state == Transcoding then row.(state := TranscodeFailed) else row
  }

  function AfterDeleteRoute(row: Row): Row {
    if Tombstoned(row.state) then row else row.(state := Deleting)
  }

  function AfterDeleteJob(row: Row): Row {
    if row.state == Deleting then row.(state := Deleted) else row
  }

  function AfterOperatorMark(row: Row, store: SliceStore): Row {
    SyncMissing(row.(state := Incomplete, fin := FinIncomplete,
                     incompleteReason := Some(OperatorIncomplete), needsOperator := true), store)
  }

  // ------------------------------------------------------------ the row object

  /** One ORM row, updated field by field as the routes do. */
  class RecordingRecord {
    var state: RecState
    var fin: FinState
    var finalSeq: Option<int>
    var totalChunks: Option<int>
    var durationMs: Option<int>
    var declaredLost: bool
    var incompleteReason: Option<IncompleteReason>
    var needsOperator: bool
    var missing: seq<nat>
    var manifest: Option<map<nat, Digest>>
    var takeId: Option<nat>

    function View(): Row
      reads this
    {
      Row(state, fin, finalSeq, totalChunks, durationMs, declaredLost, incompleteReason, needsOperator,
          missing, manifest, takeId)
    }

    constructor ()
      ensures View() == FreshRow
    {
      state, fin, finalSeq, totalChunks, durationMs := Recording, NotFinalized, None, None, None;
      declaredLost, incompleteReason, needsOperator := false, None, false;
      missing, manifest, takeId := [], None, None;
    }

    method SyncMissingSequences(store: SliceStore)
      modifies this`missing
      ensures View() == SyncMissing(old(View()), store)
    {
      if finalSeq.None? {
        missing := [];
      } else {
        missing := MissingForFinal(Received(View(), store), finalSeq.value);
      }
    }

    method MarkRowComplete()
      modifies this
      ensures View() == MarkComplete(old(View()))
    {
      state := Complete;
      fin := FinComplete;
      incompleteReason := None;
      needsOperator := false;
      missing := [];
    }

    method StorePayload(p: Payload, lost: bool)
      modifies this
      ensures View() == ApplyPayload(old(View()), p, lost)
    {
      finalSeq := Some(p.finalSeq);
      totalChunks := Some(p.totalChunks);
      durationMs := Some(p.durationMs);
      declaredLost := lost;
    }

    /** `refresh_completeness`: runs after a slice lands. */
    method RefreshCompleteness(store: SliceStore) returns (enqueueTranscode: bool)
      modifies this
      ensures (View(), enqueueTranscode) == AfterRefresh(old(View()), store)
    {
      enqueueTranscode := false;
      if finalSeq.None? {
        return;
      }
      if Terminal(state) {
        SyncMissingSequences(store);
        return;
      }
      if state == Incomplete || Protected(View()) {
        SyncMissingSequences(store);
        return;
      }
      if state == Complete {
        return;
      }
      SyncMissingSequences(store);
      if missing == [] && CompletenessOk(View(), store) {
        MarkRowComplete();
        enqueueTranscode := true;
      }
    }

    /** `apply_finalize` on an existing row. */
    method ApplyFinalize(store: SliceStore, p: Payload) returns (res: FinalizeResult, enqueueTranscode: bool)
      modifies this
      ensures res == FinalizeDecision(old(View()), store, p)
      ensures (View(), enqueueTranscode) == AfterFinalize(old(View()), store, p)
    {
      hide CompletenessOk, MissingForFinal;
      res, enqueueTranscode := Accepted, false;
      if Tombstoned(state) {
        return DeletedConflict, false;
      }
      if exists k :: k in store.Keys && k > p.finalSeq {
        return BelowStored, false;
      }
      var matches := Matches(View(), p);
      var first := finalSeq.None?;
      if Protected(View()) {
        if !first && !matches {
          return FinalizeConflict, false;
        }
        if first {
          StorePayload(p, declaredLost || p.lost);
        }
        state := Incomplete;
        fin := FinIncomplete;
        needsOperator := true;
        SyncMissingSequences(store);
        return;
      }
      if state == Incomplete {
        if !first && !matches {
          return FinalizeConflict, false;
        }
        if first {
          StorePayload(p, p.lost);
        }
        SyncMissingSequences(store);
        return;
      }
      if !matches && !first {
        if Terminal(state) || state == Complete {
          return FinalizeConflict, false;
        }
        var growing := state == Finalizing && p.finalSeq > OrMinusOne(finalSeq.value);
        var lostWhileOpen := p.lost && Open(state) && p.finalSeq >= OrMinusOne(finalSeq.value);
        if !growing && !lostWhileOpen {
          return FinalizeConflict, false;
        }
      }
      if !matches || first {
        StorePayload(p, p.lost);
      }
      if p.lost {
        state := Incomplete;
        fin := FinIncomplete;
        incompleteReason := Some(RecorderLost);
        needsOperator := true;
        SyncMissingSequences(store);
        return;
      }
      if Open(state) {
        state := Finalizing;
        fin := Pending;
      }
      SyncMissingSequences(store);
      if !Protected(View()) && !Terminal(state) && state != Incomplete && CompletenessOk(View(), store) {
        MarkRowComplete();
        enqueueTranscode := true;
      }
    }

    /** `note_session_ended` on an existing row. */
    method NoteSessionEnded()
      modifies this
      ensures View() == AfterSessionEnd(old(View()))
    {
      if state == Recording {
        state := Finalizing;
      }
    }

    /** `claim_open_recording` with the values the sweep chose from its earlier read. */
    method ClaimOpen(verdict: SweepVerdict) returns (changed: bool)
      requires verdict != Skip
      modifies this
      ensures View() == AfterSweepClaim(old(View()), verdict)
      ensures changed == (Open(old(state)) && !old(needsOperator))
    {
      changed := Open(state) && !needsOperator;
      if !changed {
        return;
      }
      if verdict.ToComplete? {
        MarkRowComplete();
      } else {
        state := Incomplete;
        fin := FinIncomplete;
        incompleteReason := Some(verdict.reason);
        missing := verdict.missing;
      }
    }
  }
}

/** Every run of routes, grace sweeps and worker transactions over one recording row. */
module RowLifecycle {
  import opened Common
  import opened RecordingIntegrity

  /** One committed transaction. A sweep is two events: the read and the guarded UPDATE. */
  datatype Event =
    | SliceLanded(store: SliceStore)
    | Finalize(store: SliceStore, payload: Payload)
    | SessionEnd
    | SweepRead(store: SliceStore)
    | SweepClaim(verdict: SweepVerdict)
    | WorkerWrite(state: RecState, manifest: Option<map<nat, Digest>>)
    | TranscodeError
    | LeaseRecovered
    | DeleteRoute
    | DeleteJob
    | OperatorMark(store: SliceStore)

  /** The row, and what sweeps have decided but not yet written. */
  datatype RowState = RowState(row: Row, verdicts: set<SweepVerdict>)

  const Fresh := RowState(FreshRow, {})

  /** The request body is refused with 422 before it reaches the row when this fails. */
  predicate ValidPayload(p: Payload) {
    p.finalSeq >= -1 && p.totalChunks == p.finalSeq + 1 && p.durationMs >= 0
  }

  predicate Possible(s: RowState, e: Event) {
    match e
    case Finalize(_, p) => ValidPayload(p)
    case SweepClaim(v) => v in s.verdicts
    case WorkerWrite(st, _) => st in {Transcoding, Transcoded, Uploaded}
    case OperatorMark(_) => !Tombstoned(s.row.state)
    case _ => true
  }

  function After(s: RowState, e: Event): RowState {
    match e
    case SliceLanded(store) => s.(row := AfterRefresh(s.row, store).0)
    case Finalize(store, p) => s.(row := AfterFinalize(s.row, store, p).0)
    case SessionEnd => s.(row := AfterSessionEnd(s.row))
    case SweepRead(store) => s.(verdicts := s.verdicts + {SweepDecision(s.row, store)})
    case SweepClaim(v) => s.(row := AfterSweepClaim(s.row, v))
    case WorkerWrite(st, m) => s.(row := AfterWorkerWrite(s.row, st, m))
    case TranscodeError => s.(row := AfterTranscodeError(s.row))
    case LeaseRecovered => s.(row := AfterLeaseRecovered(s.row))
    case DeleteRoute => s.(row := AfterDeleteRoute(s.row))
    case DeleteJob => s.(row := AfterDeleteJob(s.row))
    case OperatorMark(store) => s.(row := AfterOperatorMark(s.row, store))
  }

  predicate PossibleRun(s: RowState, es: seq<Event>)
    decreases |es|
  {
    es == [] || (Possible(s, es[0]) && PossibleRun(After(s, es[0]), es[1..]))
  }

  function AfterAll(s: RowState, es: seq<Event>): RowState
    decreases |es|
  {
    if es == [] then s else AfterAll(After(s, es[0]), es[1..])
  }

  // ------------------------------------------------------------ the invariant

  /** What every complete-or-later row carries. */
  predicate Sealed(row: Row) {
    && row.fin == FinComplete
    && !row.needsOperator
    && row.incompleteReason.None?
    && !row.declaredLost
    && row.finalSeq.Some?
    && row.totalChunks == Some(row.finalSeq.value + 1)
  }

  predicate Good(row: Row) {
    && (CompleteOrLater(row.state) ==> Sealed(row))
    && (row.state == Incomplete ==> row.fin == FinIncomplete && row.incompleteReason.Some?)
    && (Open(row.state) ==>
          row.fin in {NotFinalized, Pending} && !row.needsOperator && row.incompleteReason.None? && !row.declaredLost)
    && (row.finalSeq.Some? ==> row.totalChunks == Some(row.finalSeq.value + 1) && row.durationMs.Some?)
  }

  predicate Inv(s: RowState) {
    && Good(s.row)
    && (forall v :: v in s.verdicts && v.ToComplete? ==> s.row.finalSeq.Some?)
  }

  /** What can never be undone between an earlier and a later row. */
  predicate Lasting(before: Row, after: Row) {
    && (before.state == Incomplete ==> after.state == Incomplete || Tombstoned(after.state))
    && (Tombstoned(before.state) ==> Tombstoned(after.state))
    && (before.state == Deleted ==> after.state == Deleted)
    && (CompleteOrLater(before.state) || (before.finalSeq.Some? && !Open(before.state)) ==>
          && !Open(after.state)
          && after.finalSeq == before.finalSeq && after.totalChunks == before.totalChunks
          && after.durationMs == before.durationMs)
    && (before.finalSeq.Some? ==> after.finalSeq.Some?)
  }

  lemma DeclarationKeeps(row: Row, store: SliceStore, p: Payload)
    requires Good(row) && ValidPayload(p)
    ensures Good(AfterFinalize(row, store, p).0) && Lasting(row, AfterFinalize(row, store, p).0)
  {
    hide MissingForFinal, HeaderOk, Received;
  }

  lemma SliceKeeps(row: Row, store: SliceStore)
    requires Good(row)
    ensures Good(AfterRefresh(row, store).0) && Lasting(row, AfterRefresh(row, store).0)
  {
  }

  lemma StepKeeps(s: RowState, e: Event)
    requires Inv(s) && Possible(s, e)
    ensures Inv(After(s, e)) && Lasting(s.row, After(s, e).row)
  {
    match e
    case SliceLanded(store) => SliceKeeps(s.row, store);
    case Finalize(store, p) => DeclarationKeeps(s.row, store, p);
    case _ =>
  }

  /**
   * Every reachable row: `incomplete` is left only by deletion, a tombstone is never left, and a
   * complete-or-later row is sealed and its declaration is frozen, whatever sweeps raced it.
   */
  lemma {:induction false} RowNeverGoesBack(s: RowState, es: seq<Event>)
    requires Inv(s) && PossibleRun(s, es)
    ensures Inv(AfterAll(s, es)) && Lasting(s.row, AfterAll(s, es).row)
    decreases |es|
  {
    if es != [] {
      StepKeeps(s, es[0]);
      RowNeverGoesBack(After(s, es[0]), es[1..]);
    }
  }

  /** The claim is never released and never changes hands. */
  lemma {:induction false} TakeIdIsKept(s: RowState, es: seq<Event>)
    ensures AfterAll(s, es).row.takeId == s.row.takeId
    decreases |es|
  {
    if es != [] {
      TakeIdIsKept(After(s, es[0]), es[1..]);
    }
  }

  lemma EveryReachableRowIsGood(es: seq<Event>)
    requires PossibleRun(Fresh, es)
    ensures Good(AfterAll(Fresh, es).row)
  {
    RowNeverGoesBack(Fresh, es);
  }

  /** Written by `recorder_lost`, and only a deletion or an operator mark says otherwise. */
  predicate LostForGood(row: Row) {
    && row.state == Incomplete && row.fin == FinIncomplete && row.needsOperator
    && row.incompleteReason == Some(RecorderLost)
  }

  lemma LostStays(s: RowState, e: Event)
    requires Inv(s) && Possible(s, e) && !e.OperatorMark?
    requires LostForGood(s.row) || Tombstoned(s.row.state)
    ensures LostForGood(After(s, e).row) || Tombstoned(After(s, e).row.state)
  {
    hide MissingForFinal, CompletenessOk, Received;
  }

  lemma {:induction false} LostStaysInEveryRun(s: RowState, es: seq<Event>)
    requires Inv(s) && PossibleRun(s, es) && (forall n :: 0 <= n < |es| ==> !es[n].OperatorMark?)
    requires LostForGood(s.row) || Tombstoned(s.row.state)
    ensures LostForGood(AfterAll(s, es).row) || Tombstoned(AfterAll(s, es).row.state)
    decreases |es|
  {
    hide LostForGood, Inv, Possible, After;
    if es != [] {
      StepKeeps(s, es[0]);
      LostStays(s, es[0]);
      LostStaysInEveryRun(After(s, es[0]), es[1..]);
    }
  }

  /**
   * Once `recorder_lost` is declared on an open row, no sweep, whenever it read, and no route or worker
   * transaction changes the reason or clears the operator flag: only a deletion ends it.
   */
  lemma SweepNeverReplacesRecorderLost(s: RowState, store: SliceStore, p: Payload, later: seq<Event>)
    requires Inv(s) && Open(s.row.state) && ValidPayload(p) && p.lost
    requires FinalizeDecision(s.row, store, p) == Accepted
    requires PossibleRun(After(s, Finalize(store, p)), later)
    requires forall n :: 0 <= n < |later| ==> !later[n].OperatorMark?
    ensures var row := AfterAll(After(s, Finalize(store, p)), later).row;
      || (row.state == Incomplete && row.incompleteReason == Some(RecorderLost) && row.needsOperator)
      || Tombstoned(row.state)
  {
    StepKeeps(s, Finalize(store, p));
    assert LostForGood(After(s, Finalize(store, p)).row);
    hide Inv, Possible, After;
    LostStaysInEveryRun(After(s, Finalize(store, p)), later);
  }

  // ------------------------------------------------------------ two places where the code is looser than its text

  predicate StoreGrew(before: SliceStore, after: SliceStore) {
    before.Keys <= after.Keys
  }

  /**
   * The sweep's UPDATE does not compare `final_sequence`. It completes a take that is whole exactly when
   * every slice between the declaration it read and the one it finds has landed by the time it writes.
   */
  lemma SweepCompletesSoundlyExactly(read: Row, store: SliceStore, found: Row, met: SliceStore)
    requires Good(read) && Good(found) && Open(found.state)
    requires SweepDecision(read, store).ToComplete? && StoreGrew(store, met)
    requires found.finalSeq.Some? && found.finalSeq.value >= read.finalSeq.value >= -1
    ensures AfterSweepClaim(found, SweepDecision(read, store)).state == Complete
    ensures Whole(met.Keys, found.finalSeq.value)
      <==> forall k: nat :: read.finalSeq.value < k <= found.finalSeq.value ==> k in met
  {
    CompletenessMeaning(read, store);
    assert store.Keys == Below(read.finalSeq.value + 1);
    forall k | k in Below(found.finalSeq.value + 1) && k <= read.finalSeq.value ensures k in met {
      assert k in store.Keys;
    }
    if Whole(met.Keys, found.finalSeq.value) {
      forall k: nat | read.finalSeq.value < k <= found.finalSeq.value ensures k in met {
        assert k in Below(found.finalSeq.value + 1);
      }
    }
  }

  /**
   * An undisturbed grace sweep settles every open row: complete exactly when the declared take is whole
   * and opens with the header, otherwise incomplete for the reason that applies and with the exact gaps.
   */
  lemma SweepSettles(row: Row, store: SliceStore)
    requires Good(row) && (row.finalSeq.Some? ==> row.finalSeq.value >= -1)
    ensures var after, declared := AfterSweepClaim(row, SweepDecision(row, store)), row.finalSeq;
      && (!Open(row.state) <==> after == row)
      && (Open(row.state) ==>
            && (after.state == Complete <==>
                  declared.Some? && store.Keys == Below(declared.value + 1) && HeaderOk(store))
            && (after.state != Complete ==>
                  && after.state == Incomplete
                  && after.incompleteReason == Some(if declared.None? then GraceExpired else MissingChunks)
                  && forall k: nat :: k in after.missing <==> declared.Some? && k <= declared.value && k !in store))
  {
    if Open(row.state) && row.finalSeq.Some? {
      CompletenessMeaning(row, store);
      MissingForFinalExact(store.Keys, row.finalSeq.value);
    }
  }

  /** The rule the documentation gives for taking a different declaration. */
  predicate DocumentedRedeclaration(row: Row, p: Payload)
    requires row.finalSeq.Some?
  {
    || (row.state == Finalizing && p.finalSeq > row.finalSeq.value)
    || (p.lost && Open(row.state) && p.finalSeq >= row.finalSeq.value)
  }

  /** The code follows that rule except when the stored final sequence is 0, which it reads as -1. */
  lemma RedeclarationExact(row: Row, p: Payload)
    requires row.finalSeq.Some? && row.finalSeq.value >= -1 && ValidPayload(p)
    ensures Redeclares(row, p) <==>
      || DocumentedRedeclaration(row, p)
      || (row.finalSeq == Some(0) && row.state == Finalizing && p.finalSeq == 0)
      || (row.finalSeq == Some(0) && Open(row.state) && p.lost && p.finalSeq == -1)
  {
  }

  /** So an open row's declared end can shrink in exactly one case: from 0 to "nothing was recorded". */
  lemma DeclaredEndShrinksExactly(s: RowState, store: SliceStore, p: Payload)
    requires Inv(s) && Open(s.row.state) && ValidPayload(p)
    requires s.row.finalSeq.Some? && s.row.finalSeq.value >= -1
    ensures After(s, Finalize(store, p)).row.finalSeq.value < s.row.finalSeq.value
      <==> s.row.finalSeq == Some(0) && p.lost && p.finalSeq == -1 && store == map[]
  {
    if s.row.finalSeq == Some(0) && p.finalSeq == -1 {
      if store != map[] {
        assert store.Keys != {};
        var k :| k in store.Keys;
        assert k > p.finalSeq;
      }
    }
  }
}

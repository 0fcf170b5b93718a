/** Slices, the declaration and `/end` may reach the server in any order and any number of times. */
module ArrivalOrder {
  import opened Common
  import opened RecordingIntegrity
  import opened RecordingFiles

  datatype Delivery = SliceAt(n: nat) | Declaration | SessionEnded

  /** A finished take: at least one slice, none empty, the first one opening a WebM stream. */
  predicate FinishedTake(recorded: seq<Bytes>) {
    recorded != [] && HasEbmlMagic(recorded[0]) && forall k :: 0 <= k < |recorded| ==> recorded[k] != []
  }

  function Declared(recorded: seq<Bytes>, durationMs: nat): Payload {
    Payload(|recorded| - 1, |recorded|, durationMs, false)
  }

  predicate Belongs(d: Delivery, recorded: seq<Bytes>) {
    d.SliceAt? ==> d.n < |recorded|
  }

  function Deliver(take: Take, d: Delivery, recorded: seq<Bytes>, durationMs: nat): Take
    requires Belongs(d, recorded)
  {
    match d
    case SliceAt(n) => AfterUpload(take, n, recorded[n], Some(Sha256(recorded[n])), true, Saved)
    case Declaration => AfterFinalizeRoute(take, Declared(recorded, durationMs))
    case SessionEnded => AfterEndRoute(take)
  }

  function DeliverAll(ds: seq<Delivery>, recorded: seq<Bytes>, durationMs: nat): Take
    requires forall d :: d in ds ==> Belongs(d, recorded)
  {
    if ds == [] then NoTake
    else
      assert ds[|ds| - 1] in ds;
      Deliver(DeliverAll(ds[..|ds| - 1], recorded, durationMs), ds[|ds| - 1], recorded, durationMs)
  }

  predicate AllArrived(arrived: set<Delivery>, recorded: seq<Bytes>) {
    Declaration in arrived && forall k: nat :: k < |recorded| ==> SliceAt(k) in arrived
  }

  function StoredOf(arrived: set<Delivery>, recorded: seq<Bytes>): SliceStore {
    map k | k in Below(|recorded|) && SliceAt(k) in arrived :: recorded[k]
  }

  /** The row as a function of the set of messages that arrived, whatever their order. */
  function RowOf(arrived: set<Delivery>, recorded: seq<Bytes>, durationMs: nat): Row {
    var stored := StoredOf(arrived, recorded);
    if Declaration !in arrived then
      FreshRow.(state := if SessionEnded in arrived then Finalizing else Recording)
    else
      var p := Declared(recorded, durationMs);
      var whole := AllArrived(arrived, recorded);
      Row(if whole then Complete else Finalizing, if whole then FinComplete else Pending,
          Some(p.finalSeq), Some(p.totalChunks), Some(p.durationMs), false, None, false,
          MissingForFinal(stored.Keys, p.finalSeq), None, None)
  }

  function TakeOf(arrived: set<Delivery>, recorded: seq<Bytes>, durationMs: nat): Take {
    Take(if arrived == {} then None else Some(RowOf(arrived, recorded, durationMs)),
         StoredOf(arrived, recorded), AllArrived(arrived, recorded))
  }

  lemma WholeWhenAllStored(arrived: set<Delivery>, recorded: seq<Bytes>)
    requires FinishedTake(recorded)
    ensures MissingForFinal(StoredOf(arrived, recorded).Keys, |recorded| - 1) == []
      <==> StoredOf(arrived, recorded).Keys == Below(|recorded|)
    ensures StoredOf(arrived, recorded).Keys == Below(|recorded|)
      <==> forall k: nat :: k < |recorded| ==> SliceAt(k) in arrived
    ensures |Below(|recorded|)| == |recorded|
  {
    var keys := StoredOf(arrived, recorded).Keys;
    NothingMissingIsWhole(keys, |recorded| - 1);
    BelowSize(|recorded|);
    if keys == Below(|recorded|) {
      forall k: nat | k < |recorded| ensures SliceAt(k) in arrived {
        assert k in keys;
      }
    }
  }

  /** The completeness check on an open declared row says exactly that everything arrived. */
  lemma OpenCheckExact(row: Row, arrived: set<Delivery>, recorded: seq<Bytes>, durationMs: nat)
    requires FinishedTake(recorded) && Declaration in arrived
    requires row.finalSeq == Some(|recorded| - 1) && row.totalChunks == Some(|recorded|) && row.manifest.None?
    ensures CompletenessOk(row, StoredOf(arrived, recorded)) <==> AllArrived(arrived, recorded)
    ensures AllArrived(arrived, recorded) ==>
      MissingForFinal(StoredOf(arrived, recorded).Keys, |recorded| - 1) == []
  {
    WholeWhenAllStored(arrived, recorded);
    CompletenessMeaning(row, StoredOf(arrived, recorded));
    assert 0 in Below(|recorded|);
  }

  lemma RefreshedRow(arrived: set<Delivery>, n: nat, recorded: seq<Bytes>, durationMs: nat)
    requires FinishedTake(recorded) && n < |recorded|
    ensures var after := arrived + {SliceAt(n)};
      AfterRefresh(if arrived == {} then FreshRow else RowOf(arrived, recorded, durationMs), StoredOf(after, recorded))
      == (RowOf(after, recorded, durationMs), AllArrived(after, recorded) && !AllArrived(arrived, recorded))
  {
    var after := arrived + {SliceAt(n)};
    if Declaration in arrived {
      if AllArrived(arrived, recorded) {
        assert after == arrived;
      } else {
        var synced := SyncMissing(RowOf(arrived, recorded, durationMs), StoredOf(after, recorded));
        OpenCheckExact(synced, after, recorded, durationMs);
      }
    }
  }

  lemma OneMoreSlice(arrived: set<Delivery>, n: nat, recorded: seq<Bytes>, durationMs: nat)
    requires FinishedTake(recorded) && n < |recorded|
    ensures Deliver(TakeOf(arrived, recorded, durationMs), SliceAt(n), recorded, durationMs)
      == TakeOf(arrived + {SliceAt(n)}, recorded, durationMs)
  {
    var take := TakeOf(arrived, recorded, durationMs);
    var store := StoredOf(arrived + {SliceAt(n)}, recorded);
    assert store == if n in take.store then take.store else take.store[n := recorded[n]];
    RefreshedRow(arrived, n, recorded, durationMs);
    assert AfterBookkeeping(take.(store := store), true, Saved)
      == TakeOf(arrived + {SliceAt(n)}, recorded, durationMs);
    assert Acked(UploadDecision(take, n, recorded[n], Some(Sha256(recorded[n]))));
  }

  lemma RepeatedDeclaration(arrived: set<Delivery>, recorded: seq<Bytes>, durationMs: nat)
    requires FinishedTake(recorded) && AllArrived(arrived, recorded)
    ensures AfterFinalizeRoute(TakeOf(arrived, recorded, durationMs), Declared(recorded, durationMs))
      == TakeOf(arrived, recorded, durationMs)
  {
    var row, store := RowOf(arrived, recorded, durationMs), StoredOf(arrived, recorded);
    var p := Declared(recorded, durationMs);
    OpenCheckExact(row, arrived, recorded, durationMs);
    assert FinalizeDecision(row, store, p) == Accepted;
    assert ApplyPayload(row, p, false) == row && SyncMissing(row, store) == row && MarkComplete(row) == row;
  }

  lemma FirstDeclarations(arrived: set<Delivery>, recorded: seq<Bytes>, durationMs: nat)
    requires FinishedTake(recorded) && !AllArrived(arrived, recorded)
    ensures AfterFinalizeRoute(TakeOf(arrived, recorded, durationMs), Declared(recorded, durationMs))
      == TakeOf(arrived + {Declaration}, recorded, durationMs)
  {
    var after := arrived + {Declaration};
    var row := if arrived == {} then FreshRow else RowOf(arrived, recorded, durationMs);
    var store := StoredOf(arrived, recorded);
    assert StoredOf(after, recorded) == store;
    var p := Declared(recorded, durationMs);
    assert FinalizeDecision(row, store, p) == Accepted;
    var synced := SyncMissing(ApplyPayload(row, p, false).(state := Finalizing, fin := Pending), store);
    OpenCheckExact(synced, after, recorded, durationMs);
    assert synced.missing == MissingForFinal(store.Keys, p.finalSeq);
    assert Open(row.state) && !Protected(row);
  }

  lemma OneMoreDeclaration(arrived: set<Delivery>, recorded: seq<Bytes>, durationMs: nat)
    requires FinishedTake(recorded)
    ensures Deliver(TakeOf(arrived, recorded, durationMs), Declaration, recorded, durationMs)
      == TakeOf(arrived + {Declaration}, recorded, durationMs)
  {
    if AllArrived(arrived, recorded) {
      RepeatedDeclaration(arrived, recorded, durationMs);
      assert arrived + {Declaration} == arrived;
    } else {
      FirstDeclarations(arrived, recorded, durationMs);
    }
  }

  lemma OneMoreEnd(arrived: set<Delivery>, recorded: seq<Bytes>, durationMs: nat)
    requires FinishedTake(recorded)
    ensures Deliver(TakeOf(arrived, recorded, durationMs), SessionEnded, recorded, durationMs)
      == TakeOf(arrived + {SessionEnded}, recorded, durationMs)
  {
    assert StoredOf(arrived + {SessionEnded}, recorded) == StoredOf(arrived, recorded);
  }

  function SetOf(ds: seq<Delivery>): set<Delivery> {
    set d | d in ds
  }

  /**
   * Arrival order does not matter: any sequence of deliveries, with any repeats, leaves the server in
   * the state that the set of delivered messages determines. The take is complete, and its transcode
   * queued, exactly when every slice and the declaration have arrived.
   */
  lemma {:induction false} OrderDoesNotMatter(ds: seq<Delivery>, recorded: seq<Bytes>, durationMs: nat)
    requires FinishedTake(recorded)
    requires forall d :: d in ds ==> Belongs(d, recorded)
    ensures DeliverAll(ds, recorded, durationMs) == TakeOf(SetOf(ds), recorded, durationMs)
  {
    if ds == [] {
      assert SetOf(ds) == {};
      assert StoredOf({}, recorded) == map[];
    } else {
      var front, last := ds[..|ds| - 1], ds[|ds| - 1];
      assert last in ds;
      assert SetOf(ds) == SetOf(front) + {last};
      OrderDoesNotMatter(front, recorded, durationMs);
      match last {
        case SliceAt(n) => OneMoreSlice(SetOf(front), n, recorded, durationMs);
        case Declaration => OneMoreDeclaration(SetOf(front), recorded, durationMs);
        case SessionEnded => OneMoreEnd(SetOf(front), recorded, durationMs);
      }
    }
  }

  lemma CompleteExactlyWhenAllArrived(ds: seq<Delivery>, recorded: seq<Bytes>, durationMs: nat)
    requires FinishedTake(recorded)
    requires forall d :: d in ds ==> Belongs(d, recorded)
    ensures var take := DeliverAll(ds, recorded, durationMs);
      (take.row.Some? && take.row.value.state == Complete) <==> AllArrived(SetOf(ds), recorded)
    ensures var take := DeliverAll(ds, recorded, durationMs);
      take.transcodeQueued <==> AllArrived(SetOf(ds), recorded)
  {
    OrderDoesNotMatter(ds, recorded, durationMs);
  }

  lemma AllStored(ds: seq<Delivery>, recorded: seq<Bytes>, durationMs: nat)
    requires FinishedTake(recorded)
    requires forall d :: d in ds ==> Belongs(d, recorded)
    requires AllArrived(SetOf(ds), recorded)
    ensures Holds(DeliverAll(ds, recorded, durationMs).store, recorded)
    ensures HeaderOk(DeliverAll(ds, recorded, durationMs).store)
  {
    OrderDoesNotMatter(ds, recorded, durationMs);
    WholeWhenAllStored(SetOf(ds), recorded);
    assert 0 in Below(|recorded|);
  }

  /** Once complete, merging whatever the directory lists gives the recording itself. */
  method MergeAfterArrival(ds: seq<Delivery>, recorded: seq<Bytes>, durationMs: nat, listing: seq<ChunkFile>)
    returns (merged: MergeResult)
    requires FinishedTake(recorded)
    requires forall d :: d in ds ==> Belongs(d, recorded)
    requires AllArrived(SetOf(ds), recorded)
    requires Lists(listing, DeliverAll(ds, recorded, durationMs).store)
    ensures merged == Merged(Joined(recorded))
  {
    AllStored(ds, recorded, durationMs);
    merged := ConcatChunks(listing, DeliverAll(ds, recorded, durationMs).store, false);
  }
}

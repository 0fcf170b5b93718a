/** Slice ingest and the merge into one stream (server/app/recording.py). */
module RecordingFiles {
  import opened Common
  import opened RecordingIntegrity
  import RowLifecycle

  datatype UploadReply =
    | Stored | Duplicate
    | NegativeSequence | RecordingDeleted | SequencePastFinal | EmptySlice | ChecksumMismatch | SequenceConflict

  predicate Acked(reply: UploadReply) {
    reply in {Stored, Duplicate}
  }

  /** Bookkeeping after the file is durable is best effort: either of its two commits may fail. */
  datatype DbOutcome = Saved | MetadataFailed | RefreshFailed

  datatype Take = Take(row: Option<Row>, store: SliceStore, transcodeQueued: bool)

  const NoTake := Take(None, map[], false)

  function UploadDecision(take: Take, sequence: int, data: Bytes, checksum: Option<Digest>): UploadReply {
    if sequence < 0 then NegativeSequence
    else if take.row.Some? && Tombstoned(take.row.value.state) then RecordingDeleted
    else if take.row.Some? && take.row.value.finalSeq.Some? && sequence > take.row.value.finalSeq.value then
      SequencePastFinal
    else if data == [] then EmptySlice
    else if checksum.Some? && checksum.value != Sha256(data) then ChecksumMismatch
    else if take.row.Some? && take.row.value.manifest.Some? then
      var listed := take.row.value.manifest.value;
      if sequence in listed && listed[sequence] == Sha256(data) then Duplicate else SequenceConflict
    else if sequence in take.store then
      if Sha256(take.store[sequence]) == Sha256(data) then Duplicate else SequenceConflict
    else Stored
  }

  /** The bookkeeping that follows a durable slice. `known` says the session row exists. */
  function AfterBookkeeping(take: Take, known: bool, db: DbOutcome): Take {
    if db == MetadataFailed then take
    else
      var row := if take.row.None? && known then Some(FreshRow) else take.row;
      if db == RefreshFailed || row.None? then take.(row := row)
      else
        var (refreshed, enqueue) := AfterRefresh(row.value, take.store);
        take.(row := Some(refreshed), transcodeQueued := take.transcodeQueued || enqueue)
  }

  function AfterUpload(take: Take, sequence: int, data: Bytes, checksum: Option<Digest>, known: bool, db: DbOutcome)
    : Take
  {
    var reply := UploadDecision(take, sequence, data, checksum);
    if !Acked(reply) || (take.row.Some? && take.row.value.manifest.Some?) then take
    else AfterBookkeeping(take.(store := if sequence in take.store then take.store
                                         else take.store[sequence := data]), known, db)
  }

  /** `claim_take`: a repeat of the same id is good only while the take is untouched. */
  predicate ClaimGranted(take: Take, id: nat) {
    || take.row.None?
    || (var row := take.row.value;
        row.takeId == Some(id) && row.state == Recording && row.fin == NotFinalized
        && Received(row, take.store) == {})
  }

  function AfterClaimRoute(take: Take, id: nat): Take {
    if take.row.None? then take.(row := Some(FreshRow.(takeId := Some(id)))) else take
  }

  /** The chunk directory and the row of one session, as the ingest route updates them. */
  class Ingest {
    var files: SliceStore
    var record: RecordingRecord?
    var transcodeQueued: bool

    function View(): Take
      reads this, record
    {
      Take(if record == null then None else Some(record.View()), files, transcodeQueued)
    }

    constructor ()
      ensures View() == NoTake
    {
      files, record, transcodeQueued := map[], null, false;
    }

    /** `POST /recording/{id}/claim`, past its checks of the session and of the socket */
    method ClaimTake(id: nat) returns (granted: bool)
      modifies this
      ensures granted == ClaimGranted(old(View()), id)
      ensures View() == AfterClaimRoute(old(View()), id)
      ensures old(record) != null ==> record == old(record)
    {
      if record == null {
        record := new RecordingRecord();
        record.takeId := Some(id);
        return true;
      }
      granted := record.takeId == Some(id) && record.state == Recording && record.fin == NotFinalized
        && Received(record.View(), files) == {};
    }

    /** `POST /recording/{id}/chunk` */
    method UploadChunk(sequence: int, data: Bytes, checksum: Option<Digest>, known: bool, db: DbOutcome)
      returns (reply: UploadReply)
      modifies this, record
      ensures reply == UploadDecision(old(View()), sequence, data, checksum)
      ensures View() == AfterUpload(old(View()), sequence, data, checksum, known, db)
      ensures old(record) != null ==> record == old(record)
      ensures old(record) == null && record != null ==> fresh(record)
    {
      hide AfterRefresh, Received;
      if sequence < 0 {
        return NegativeSequence;
      }
      if record != null && Tombstoned(record.state) {
        return RecordingDeleted;
      }
      if record != null && record.finalSeq.Some? && sequence > record.finalSeq.value {
        return SequencePastFinal;
      }
      if data == [] {
        return EmptySlice;
      }
      var digest := Sha256(data);
      if checksum.Some? && checksum.value != digest {
        return ChecksumMismatch;
      }
      if record != null && record.manifest.Some? {
        if sequence in record.manifest.value && record.manifest.value[sequence] == digest {
          return Duplicate;
        }
        return SequenceConflict;
      }
      if sequence in files {
        if Sha256(files[sequence]) != digest {
          return SequenceConflict;
        }
        reply := Duplicate;
      } else {
        files := files[sequence := data];
        reply := Stored;
      }
      if db == MetadataFailed {
        return;
      }
      if record == null && known {
        record := new RecordingRecord();
      }
      if db == RefreshFailed || record == null {
        return;
      }
      var enqueue := record.RefreshCompleteness(files);
      transcodeQueued := transcodeQueued || enqueue;
    }
  }

  /** A granted claim shuts out every other take id, at once and after any transaction on the row. */
  lemma ClaimIsExclusive(take: Take, id: nat, other: nat, events: seq<RowLifecycle.Event>)
    requires ClaimGranted(take, id) && other != id
    ensures var claimed := AfterClaimRoute(take, id);
      && claimed.row.Some? && claimed.row.value.takeId == Some(id)
      && var later := RowLifecycle.AfterAll(RowLifecycle.RowState(claimed.row.value, {}), events);
      forall store: SliceStore :: !ClaimGranted(claimed.(row := Some(later.row), store := store), other)
  {
    RowLifecycle.TakeIdIsKept(RowLifecycle.RowState(AfterClaimRoute(take, id).row.value, {}), events);
  }

  /** The server still has this slice: the file itself, or its digest in the manifest of a transcoded take. */
  predicate HoldsSlice(take: Take, sequence: nat, data: Bytes) {
    || (sequence in take.store && take.store[sequence] == data)
    || (take.row.Some? && take.row.value.manifest.Some? && sequence in take.row.value.manifest.value
        && take.row.value.manifest.value[sequence] == Sha256(data))
  }

  /** A stored slice is never overwritten, and an acknowledged upload is stored or listed, byte for byte. */
  lemma UploadKeepsStoredSlices(take: Take, sequence: int, data: Bytes, checksum: Option<Digest>, known: bool,
                                db: DbOutcome)
    ensures forall k: nat :: k in take.store ==>
      k in AfterUpload(take, sequence, data, checksum, known, db).store
      && AfterUpload(take, sequence, data, checksum, known, db).store[k] == take.store[k]
    ensures Acked(UploadDecision(take, sequence, data, checksum)) ==>
      sequence >= 0 && HoldsSlice(AfterUpload(take, sequence, data, checksum, known, db), sequence, data)
    ensures !Acked(UploadDecision(take, sequence, data, checksum)) ==>
      AfterUpload(take, sequence, data, checksum, known, db) == take
  {
  }

  /** `POST /recording/{id}/finalize` for a known session. */
  function AfterFinalizeRoute(take: Take, p: Payload): Take {
    var row := if take.row.None? then FreshRow else take.row.value;
    if FinalizeDecision(row, take.store, p) != Accepted then take
    else
      var (declared, enqueue) := AfterAccepted(row, take.store, p);
      take.(row := Some(declared), transcodeQueued := take.transcodeQueued || enqueue)
  }

  function FinalizeReply(take: Take, p: Payload): FinalizeResult {
    FinalizeDecision(if take.row.None? then FreshRow else take.row.value, take.store, p)
  }

  /** `POST /sessions/{id}/end` */
  function AfterEndRoute(take: Take): Take {
    take.(row := Some(AfterSessionEnd(if take.row.None? then FreshRow else take.row.value)))
  }

  // ------------------------------------------------------------ merging in sequence order

  /** One file of the chunk directory. `number` is None when the name does not parse as an integer. */
  datatype ChunkFile = ChunkFile(number: Option<nat>, data: Bytes)

  datatype Slice = Slice(sequence: nat, data: Bytes)

  /** The directory listing shows every stored slice once, in any order, among files that are not ours. */
  predicate Lists(listing: seq<ChunkFile>, store: SliceStore) {
    && (forall i :: 0 <= i < |listing| && listing[i].number.Some? ==>
          listing[i].number.value in store && store[listing[i].number.value] == listing[i].data)
    && (forall i, j :: 0 <= i < j < |listing| && listing[i].number.Some? ==> listing[i].number != listing[j].number)
    && (forall k: nat :: k in store ==> exists i :: 0 <= i < |listing| && listing[i].number == Some(k))
  }

  predicate Ordered(s: seq<Slice>) {
    forall i, j :: 0 <= i < j < |s| ==> s[i].sequence < s[j].sequence
  }

  /** `found.append(..)` followed by `found.sort(..)`: the slice goes after every smaller sequence. */
  function InsertSlice(s: seq<Slice>, x: Slice): seq<Slice> {
    if s == [] || x.sequence < s[0].sequence then [x] + s else [s[0]] + InsertSlice(s[1..], x)
  }

  lemma {:induction false} InsertKeepsOrder(s: seq<Slice>, x: Slice)
    requires Ordered(s) && forall y :: y in s ==> y.sequence != x.sequence
    ensures Ordered(InsertSlice(s, x))
    ensures forall y :: y in InsertSlice(s, x) <==> y == x || y in s
  {
    if s != [] && s[0].sequence < x.sequence {
      InsertKeepsOrder(s[1..], x);
      assert forall y :: y in s <==> y == s[0] || y in s[1..];
      var rest := InsertSlice(s[1..], x);
      assert forall i :: 0 <= i < |rest| ==> rest[i] in rest;
      assert forall i :: 0 <= i < |s[1..]| ==> s[1..][i] == s[i + 1];
    }
  }

  /** `stored_chunks` */
  method StoredChunks(listing: seq<ChunkFile>, ghost store: SliceStore) returns (found: seq<Slice>)
    requires Lists(listing, store)
    ensures Ordered(found)
    ensures forall y :: y in found <==> y.sequence in store && store[y.sequence] == y.data
  {
    found := [];
    for i := 0 to |listing|
      invariant Ordered(found)
      invariant forall y :: y in found <==>
        exists j :: 0 <= j < i && listing[j].number == Some(y.sequence) && listing[j].data == y.data
    {
      if listing[i].number.Some? {
        var x := Slice(listing[i].number.value, listing[i].data);
        InsertKeepsOrder(found, x);
        found := InsertSlice(found, x);
      }
    }
  }

  function Joined(s: seq<Bytes>): Bytes {
    if s == [] then [] else Joined(s[..|s| - 1]) + s[|s| - 1]
  }

  /** The stored slices below `n` in recording order, whatever is missing among them. */
  function InOrder(store: SliceStore, n: nat): Bytes {
    if n == 0 then [] else InOrder(store, n - 1) + (if n - 1 in store then store[n - 1] else [])
  }

  lemma {:induction false} NothingBetween(store: SliceStore, m: nat, n: nat)
    requires m <= n && forall k: nat :: m <= k < n ==> k !in store
    ensures InOrder(store, n) == InOrder(store, m)
    decreases n
  {
    if m < n {
      NothingBetween(store, m, n - 1);
    }
  }

  lemma {:induction false} OthersDoNotMatter(store: SliceStore, m: nat, n: nat)
    requires n <= m
    ensures InOrder(store - {m}, n) == InOrder(store, n)
    decreases n
  {
    if n > 0 {
      OthersDoNotMatter(store, m, n - 1);
    }
  }

  /** Every slice of the list is stored, and every stored slice is listed, in ascending order. */
  predicate Orders(chunks: seq<Slice>, store: SliceStore) {
    && Ordered(chunks) && (forall i :: 0 <= i < |chunks| ==> chunks[i].sequence in store)
    && (forall i :: 0 <= i < |chunks| ==> store[chunks[i].sequence] == chunks[i].data)
    && forall k: nat :: k in store ==> exists i :: 0 <= i < |chunks| && chunks[i].sequence == k
  }

  /** The last listed slice has the greatest sequence; the others list the rest. */
  lemma LastIsGreatest(chunks: seq<Slice>, store: SliceStore)
    requires Orders(chunks, store) && chunks != []
    ensures var m := chunks[|chunks| - 1].sequence;
      && m in store && store[m] == chunks[|chunks| - 1].data && (forall k :: k in store ==> k <= m)
      && Orders(chunks[..|chunks| - 1], store - {m})
  {
    var front, m := chunks[..|chunks| - 1], chunks[|chunks| - 1].sequence;
    forall k: nat | k in store ensures k <= m && (k != m ==> exists i :: 0 <= i < |front| && front[i].sequence == k) {
      var i :| 0 <= i < |chunks| && chunks[i].sequence == k;
      if i < |front| {
        assert front[i] == chunks[i];
      }
    }
    forall i | 0 <= i < |front| ensures front[i].sequence in store - {m} {
      assert front[i] == chunks[i];
    }
  }

  lemma NothingListed(store: SliceStore)
    requires Orders([], store)
    ensures store == map[]
  {
  }

  lemma {:induction false} MergeIsInOrder(chunks: seq<Slice>, store: SliceStore, n: nat)
    requires Orders(chunks, store) && forall k :: k in store ==> k < n
    ensures Joined(Contents(chunks)) == InOrder(store, n)
    decreases |chunks|
  {
    if chunks == [] {
      NothingListed(store);
      NothingBetween(store, 0, n);
    } else {
      LastIsGreatest(chunks, store);
      hide Orders;
      var front, m := chunks[..|chunks| - 1], chunks[|chunks| - 1].sequence;
      NothingBetween(store, m + 1, n);
      OthersDoNotMatter(store, m, m);
      MergeIsInOrder(front, store - {m}, m);
      assert Contents(chunks)[..|chunks| - 1] == Contents(front);
    }
  }

  lemma ListingOrders(chunks: seq<Slice>, store: SliceStore)
    requires Ordered(chunks)
    requires forall y :: y in chunks <==> y.sequence in store && store[y.sequence] == y.data
    ensures Orders(chunks, store)
  {
    assert forall i :: 0 <= i < |chunks| ==> chunks[i] in chunks;
    forall k: nat | k in store ensures exists i :: 0 <= i < |chunks| && chunks[i].sequence == k {
      assert Slice(k, store[k]) in chunks;
      var i :| 0 <= i < |chunks| && chunks[i] == Slice(k, store[k]);
      assert chunks[i].sequence == k;
    }
  }

  lemma StreamMeans(chunks: seq<Slice>, store: SliceStore, out: Bytes)
    requires Orders(chunks, store) && out == Joined(Contents(chunks))
    requires forall y :: y in chunks <==> y.sequence in store && store[y.sequence] == y.data
    ensures forall n: nat :: (forall k :: k in store ==> k < n) ==> out == InOrder(store, n)
    ensures forall recorded: seq<Bytes> :: Holds(store, recorded) ==> out == Joined(recorded)
  {
    forall n: nat | forall k :: k in store ==> k < n ensures out == InOrder(store, n) {
      MergeIsInOrder(chunks, store, n);
    }
    forall recorded: seq<Bytes> | Holds(store, recorded) ensures out == Joined(recorded) {
      OrderedIsRecordingOrder(chunks, store, recorded);
    }
  }

  /** Why a merge is refused. */
  datatype MergeResult = Merged(stream: Bytes) | NoChunksStored | MissingHeaderChunk

  /** `concat_chunks`: it merges what is there, gaps or not, in sequence order. */
  method ConcatChunks(listing: seq<ChunkFile>, ghost store: SliceStore, allowMissingHeader: bool)
      returns (res: MergeResult)
    requires Lists(listing, store)
    ensures res.NoChunksStored? <==> store == map[]
    ensures res.MissingHeaderChunk? <==> store != map[] && !HeaderOk(store) && !allowMissingHeader
    ensures res.Merged? ==> forall n: nat :: (forall k :: k in store ==> k < n) ==> res.stream == InOrder(store, n)
    ensures res.Merged? ==> forall recorded: seq<Bytes> :: Holds(store, recorded) ==> res.stream == Joined(recorded)
  {
    hide HeaderOk, Holds, InOrder, Orders;
    var chunks := StoredChunks(listing, store);
    ListingOrders(chunks, store);
    HeaderTest(chunks, store);
    if chunks == [] {
      return NoChunksStored;
    }
    if !(chunks[0].sequence == 0 && HasEbmlMagic(chunks[0].data)) && !allowMissingHeader {
      return MissingHeaderChunk;
    }
    var out: Bytes := [];
    for i := 0 to |chunks|
      invariant out == Joined(Contents(chunks[..i]))
    {
      assert chunks[..i + 1] == chunks[..i] + [chunks[i]];
      assert Contents(chunks[..i + 1])[..i] == Contents(chunks[..i]);
      out := out + chunks[i].data;
    }
    assert chunks[..|chunks|] == chunks;
    StreamMeans(chunks, store, out);
    res := Merged(out);
  }

  /** The disk holds exactly the slices of this recording. */
  predicate Holds(store: SliceStore, recorded: seq<Bytes>) {
    store.Keys == Below(|recorded|) && forall k: nat :: k < |recorded| ==> k in store && store[k] == recorded[k]
  }

  function Contents(s: seq<Slice>): (r: seq<Bytes>)
    ensures |r| == |s| && forall i :: 0 <= i < |s| ==> r[i] == s[i].data
  {
    seq(|s|, i requires 0 <= i < |s| => s[i].data)
  }

  lemma HeaderIsFirst(chunks: seq<Slice>, store: SliceStore)
    requires Ordered(chunks)
    requires forall y :: y in chunks <==> y.sequence in store && store[y.sequence] == y.data
    ensures HeaderOk(store) ==> chunks != [] && chunks[0] == Slice(0, store[0])
  {
    if HeaderOk(store) {
      assert Slice(0, store[0]) in chunks;
      var i :| 0 <= i < |chunks| && chunks[i] == Slice(0, store[0]);
      assert chunks[0].sequence <= chunks[i].sequence;
      assert chunks[0] in chunks;
    }
  }

  /** What the merge looks at first: whether there is anything, and whether slice 0 opens the stream. */
  lemma HeaderTest(chunks: seq<Slice>, store: SliceStore)
    requires Ordered(chunks)
    requires forall y :: y in chunks <==> y.sequence in store && store[y.sequence] == y.data
    ensures chunks == [] <==> store == map[]
    ensures chunks != [] ==> (HeaderOk(store) <==> chunks[0].sequence == 0 && HasEbmlMagic(chunks[0].data))
  {
    HeaderIsFirst(chunks, store);
    if chunks != [] {
      assert chunks[0] in chunks;
    }
    if k :| k in store {
      assert Slice(k, store[k]) in chunks;
    }
  }

  lemma FirstIsMember<T>(s: seq<T>)
    ensures s == [] || s[0] in s
  {
  }

  /** An ascending run of naturals that has exactly the members 0..n-1 is 0, 1, ..., n-1. */
  lemma {:induction false} AscendingIsCounting(keys: seq<nat>, n: nat)
    requires Ascending(keys) && forall k: nat :: k in keys <==> k < n
    ensures |keys| == n && forall i :: 0 <= i < n ==> keys[i] == i
  {
    FirstIsMember(keys);
    if n > 0 {
      assert n - 1 in keys;
      var at :| 0 <= at < |keys| && keys[at] == n - 1;
      var last := keys[|keys| - 1];
      assert last in keys && keys[at] <= last;
      assert at == |keys| - 1;
      var front := keys[..at];
      forall k: nat ensures k in front <==> k < n - 1 {
        if k < n - 1 {
          assert k in keys;
          var j :| 0 <= j < |keys| && keys[j] == k;
          assert front[j] == k;
        }
        if k in front {
          var j :| 0 <= j < |front| && front[j] == k;
          assert keys[j] < keys[at];
        }
      }
      AscendingIsCounting(front, n - 1);
    }
  }

  lemma OrderedIsRecordingOrder(chunks: seq<Slice>, store: SliceStore, recorded: seq<Bytes>)
    requires Ordered(chunks) && Holds(store, recorded)
    requires forall y :: y in chunks <==> y.sequence in store && store[y.sequence] == y.data
    ensures Contents(chunks) == recorded
  {
    var keys: seq<nat> := seq(|chunks|, i requires 0 <= i < |chunks| => chunks[i].sequence);
    forall k: nat ensures k in keys <==> k < |recorded| {
      if k < |recorded| {
        assert Slice(k, store[k]) in chunks;
        var i :| 0 <= i < |chunks| && chunks[i] == Slice(k, store[k]);
        assert keys[i] == k;
      }
      if k in keys {
        var i :| 0 <= i < |keys| && keys[i] == k;
        assert chunks[i] in chunks;
      }
    }
    AscendingIsCounting(keys, |recorded|);
    forall i | 0 <= i < |chunks| ensures chunks[i].data == recorded[i] {
      assert keys[i] == i && chunks[i] in chunks;
    }
  }
}

/** Arrival in any order when the bookkeeping behind a stored slice may fail. */
module ArrivalOutcomes {
  import opened Common
  import opened RecordingIntegrity
  import opened RecordingFiles
  import opened ArrivalOrder

  /** One delivery, and what became of the database work behind a slice. */
  datatype Attempt = Attempt(d: Delivery, db: DbOutcome)

  function Try(take: Take, a: Attempt, recorded: seq<Bytes>, durationMs: nat): Take
    requires Belongs(a.d, recorded)
  {
    match a.d
    case SliceAt(n) => AfterUpload(take, n, recorded[n], Some(Sha256(recorded[n])), true, a.db)
    case _ => Deliver(take, a.d, recorded, durationMs)
  }

  predicate AllBelong(tries: seq<Attempt>, recorded: seq<Bytes>) {
    forall i :: 0 <= i < |tries| ==> Belongs(tries[i].d, recorded)
  }

  function TryAll(tries: seq<Attempt>, recorded: seq<Bytes>, durationMs: nat): Take
    requires AllBelong(tries, recorded)
  {
    if tries == [] then NoTake
    else Try(TryAll(tries[..|tries| - 1], recorded, durationMs), tries[|tries| - 1], recorded, durationMs)
  }

  function Sent(tries: seq<Attempt>): (sent: set<Delivery>)
    ensures forall d :: d in sent <==> exists i :: 0 <= i < |tries| && tries[i].d == d
  {
    set i | 0 <= i < |tries| :: tries[i].d
  }

  /** The transactions that look whether the take is whole: a refresh that did not fail, and a declaration. */
  predicate Looks(a: Attempt) {
    a.d.Declaration? || (a.d.SliceAt? && a.db == Saved)
  }

  /** One of them came when everything had arrived. */
  predicate LookedAtWhole(tries: seq<Attempt>, recorded: seq<Bytes>) {
    exists i: nat :: i < |tries| && LooksAt(tries, i, recorded)
  }

  lemma SentGrows(tries: seq<Attempt>)
    requires tries != []
    ensures Sent(tries) == Sent(tries[..|tries| - 1]) + {tries[|tries| - 1].d}
  {
    var front, last := tries[..|tries| - 1], tries[|tries| - 1];
    forall d ensures d in Sent(tries) <==> d in Sent(front) + {last.d} {
      if d in Sent(front) {
        var i :| 0 <= i < |front| && front[i].d == d;
        assert tries[i].d == d;
      }
      if d in Sent(tries) && d != last.d {
        var i :| 0 <= i < |tries| && tries[i].d == d;
        assert front[i].d == d;
      }
    }
  }

  predicate LooksAt(tries: seq<Attempt>, i: nat, recorded: seq<Bytes>)
    requires i < |tries|
  {
    Looks(tries[i]) && AllArrived(Sent(tries[..i + 1]), recorded)
  }

  lemma OneMoreLook(tries: seq<Attempt>, recorded: seq<Bytes>)
    requires tries != []
    ensures LookedAtWhole(tries, recorded) ==
      (LookedAtWhole(tries[..|tries| - 1], recorded)
       || (Looks(tries[|tries| - 1]) && AllArrived(Sent(tries), recorded)))
  {
    hide Looks, AllArrived, Sent;
    var front := tries[..|tries| - 1];
    assert tries[..|tries|] == tries;
    forall i: nat | i < |front| ensures LooksAt(front, i, recorded) == LooksAt(tries, i, recorded) {
      assert front[..i + 1] == tries[..i + 1];
    }
    assert LooksAt(tries, |front|, recorded) == (Looks(tries[|front|]) && AllArrived(Sent(tries), recorded));
  }

  predicate Undeclared(row: Row) {
    && Open(row.state) && row.finalSeq.None? && row.fin == NotFinalized && !Protected(row) && row.manifest.None?
    && row.incompleteReason.None? && !row.declaredLost
  }

  predicate DeclaredAs(row: Row, recorded: seq<Bytes>, durationMs: nat, complete: bool) {
    && Matches(row, Declared(recorded, durationMs)) && !Protected(row) && row.incompleteReason.None?
    && row.manifest.None?
    && row.state == (if complete then Complete else Finalizing)
    && row.fin == (if complete then FinComplete else Pending)
  }

  /** What a take is after these messages, once or never looked at when whole. */
  predicate Fits(take: Take, sent: set<Delivery>, looked: bool, recorded: seq<Bytes>, durationMs: nat) {
    && take.store == StoredOf(sent, recorded) && take.transcodeQueued == looked
    && (looked ==> AllArrived(sent, recorded))
    && (if Declaration in sent then take.row.Some? && DeclaredAs(take.row.value, recorded, durationMs, looked)
        else !looked && (take.row.Some? ==> Undeclared(take.row.value)))
  }

  lemma RefreshFits(row: Row, sent: set<Delivery>, looked: bool, recorded: seq<Bytes>, durationMs: nat)
    requires FinishedTake(recorded) && Declaration in sent && DeclaredAs(row, recorded, durationMs, looked)
    requires looked ==> AllArrived(sent, recorded)
    ensures var (after, enqueue) := AfterRefresh(row, StoredOf(sent, recorded));
      && DeclaredAs(after, recorded, durationMs, AllArrived(sent, recorded))
      && enqueue == (AllArrived(sent, recorded) && !looked)
  {
    OpenCheckExact(SyncMissing(row, StoredOf(sent, recorded)), sent, recorded, durationMs);
    hide CompletenessOk, MissingForFinal;
  }

  lemma SliceFits(take: Take, sent: set<Delivery>, looked: bool, n: nat, db: DbOutcome, recorded: seq<Bytes>,
                  durationMs: nat)
    requires FinishedTake(recorded) && n < |recorded| && Fits(take, sent, looked, recorded, durationMs)
    ensures var after := sent + {SliceAt(n)};
      Fits(Try(take, Attempt(SliceAt(n), db), recorded, durationMs), after,
           looked || (db == Saved && AllArrived(after, recorded)), recorded, durationMs)
  {
    var after := sent + {SliceAt(n)};
    var store := if n in take.store then take.store else take.store[n := recorded[n]];
    assert store == StoredOf(after, recorded);
    assert Acked(UploadDecision(take, n, recorded[n], Some(Sha256(recorded[n]))));
    assert AllArrived(sent, recorded) ==> after == sent;
    if Declaration in sent {
      RefreshFits(take.row.value, after, looked, recorded, durationMs);
    }
    hide AfterRefresh, UploadDecision;
    if Declaration !in sent {
      UndeclaredRefresh(if take.row.None? then FreshRow else take.row.value, store);
    }
  }

  lemma UndeclaredRefresh(row: Row, store: SliceStore)
    requires row.finalSeq.None?
    ensures AfterRefresh(row, store) == (row, false)
  {
  }

  lemma DeclarationFits(take: Take, sent: set<Delivery>, looked: bool, recorded: seq<Bytes>, durationMs: nat)
    requires FinishedTake(recorded) && Fits(take, sent, looked, recorded, durationMs)
    ensures var after := sent + {Declaration};
      Fits(AfterFinalizeRoute(take, Declared(recorded, durationMs)), after,
           looked || AllArrived(after, recorded), recorded, durationMs)
  {
    var after, p := sent + {Declaration}, Declared(recorded, durationMs);
    var row := if take.row.None? then FreshRow else take.row.value;
    var store := take.store;
    assert StoredOf(after, recorded) == store;
    assert FinalizeDecision(row, store, p) == Accepted;
    var declared := ApplyPayload(row, p, false);
    var open := if Open(declared.state) then declared.(state := Finalizing, fin := Pending) else declared;
    OpenCheckExact(SyncMissing(open, store), after, recorded, durationMs);
    hide CompletenessOk, MissingForFinal, FinalizeDecision;
    var whole := AllArrived(after, recorded);
    assert AfterAccepted(row, store, p).1 == whole;
    assert DeclaredAs(AfterAccepted(row, store, p).0, recorded, durationMs, whole);
  }

  lemma EndFits(take: Take, sent: set<Delivery>, looked: bool, recorded: seq<Bytes>, durationMs: nat)
    requires Fits(take, sent, looked, recorded, durationMs)
    ensures Fits(AfterEndRoute(take), sent + {SessionEnded}, looked, recorded, durationMs)
  {
    assert StoredOf(sent + {SessionEnded}, recorded) == StoredOf(sent, recorded);
  }

  lemma {:induction false} TriesFit(tries: seq<Attempt>, recorded: seq<Bytes>, durationMs: nat)
    requires FinishedTake(recorded) && AllBelong(tries, recorded)
    ensures Fits(TryAll(tries, recorded, durationMs), Sent(tries), LookedAtWhole(tries, recorded), recorded, durationMs)
  {
    if tries == [] {
      assert Sent(tries) == {};
      assert StoredOf({}, recorded) == map[];
    } else {
      var front, last := tries[..|tries| - 1], tries[|tries| - 1];
      assert Belongs(last.d, recorded);
      TriesFit(front, recorded, durationMs);
      SentGrows(tries);
      OneMoreLook(tries, recorded);
      var take, looked := TryAll(front, recorded, durationMs), LookedAtWhole(front, recorded);
      hide Fits, AfterUpload, AfterFinalizeRoute, AfterEndRoute, LookedAtWhole;
      match last.d {
        case SliceAt(n) => SliceFits(take, Sent(front), looked, n, last.db, recorded, durationMs);
        case Declaration => DeclarationFits(take, Sent(front), looked, recorded, durationMs);
        case SessionEnded => EndFits(take, Sent(front), looked, recorded, durationMs);
      }
    }
  }

  /**
   * Whatever bookkeeping fails, in any order and with any repeats: every slice that arrived is stored,
   * and the row is complete, and its transcode queued, exactly when a refresh that did not fail or a
   * declaration came once every slice and the declaration had arrived.
   */
  lemma CompleteExactlyWhenLookedAt(tries: seq<Attempt>, recorded: seq<Bytes>, durationMs: nat)
    requires FinishedTake(recorded) && AllBelong(tries, recorded)
    ensures var take := TryAll(tries, recorded, durationMs);
      && take.store == StoredOf(Sent(tries), recorded)
      && ((take.row.Some? && take.row.value.state == Complete) <==> LookedAtWhole(tries, recorded))
      && (take.transcodeQueued <==> LookedAtWhole(tries, recorded))
  {
    TriesFit(tries, recorded, durationMs);
    hide LookedAtWhole;
  }

  /** And when nothing looked, the grace sweep does: it finds the take whole and completes it. */
  lemma SweepFindsWhole(tries: seq<Attempt>, recorded: seq<Bytes>, durationMs: nat)
    requires FinishedTake(recorded) && AllBelong(tries, recorded)
    requires AllArrived(Sent(tries), recorded) && !LookedAtWhole(tries, recorded)
    ensures var take := TryAll(tries, recorded, durationMs);
      take.row.Some? && AfterSweepClaim(take.row.value, SweepDecision(take.row.value, take.store)).state == Complete
  {
    TriesFit(tries, recorded, durationMs);
    var take := TryAll(tries, recorded, durationMs);
    OpenCheckExact(take.row.value, Sent(tries), recorded, durationMs);
    hide CompletenessOk, LookedAtWhole;
  }
}

/** The grace sweep beside uploads, declarations and the worker: when it completes a whole take. */
module GraceSweep {
  import opened Common
  import opened RecordingIntegrity
  import opened JobQueue
  import opened RecordingWorker
  import Originals = RecordingOriginals
  import RecordingFiles
  import RowLifecycle

  /** Until the manifest is written the source is whole; afterwards it is no longer needed. */
  predicate SourceKept(w: World) {
    RowOf(w).manifest.None? ==> SourceWhole(w.disk, FactsOf(RowOf(w)))
  }

  predicate CompleteIsWhole(w: World) {
    CompleteOrLater(RowOf(w).state) ==> SourceKept(w)
  }

  /** No stored slice lies past the declared end. */
  predicate EndFits(row: Row, store: SliceStore) {
    row.finalSeq.Some? ==> row.finalSeq.value >= -1 && forall k :: k in store ==> k <= row.finalSeq.value
  }

  /** What a sweep saw as whole is still there, and the declared end did not shrink. */
  predicate StillSeen(row: Row, store: SliceStore, v: SweepVerdict) {
    v.ToComplete? && Open(row.state) ==>
      row.finalSeq.Some? && v.readFinal <= row.finalSeq.value && Below(v.readFinal + 1) <= store.Keys && HeaderOk(store)
  }

  predicate Inv(w: World) {
    && Originals.Inv(w)
    && (!Gone(w) ==>
          EndFits(RowOf(w), w.disk.chunks)
          && forall v :: v in w.rows.verdicts ==> StillSeen(RowOf(w), w.disk.chunks, v))
  }

  /**
   * A sweep that completes a take although a slice of the end it finds, past the end it read, has not
   * landed by the time of its UPDATE.
   */
  predicate ShortSweep(w: World, step: Step) {
    && step.RowRoute? && step.event.SweepClaim? && step.event.verdict.ToComplete?
    && Open(RowOf(w).state) && RowOf(w).finalSeq.Some?
    && exists k: nat :: k <= RowOf(w).finalSeq.value && step.event.verdict.readFinal < k && k !in w.disk.chunks
  }

  // ------------------------------------------------------------ steps that leave declaration and slices alone

  /** Verdicts and slices stay, an open row stays as it is, and no row becomes complete. */
  predicate Calm(w: World, after: World) {
    var row, next := RowOf(w), RowOf(after);
    && after.rows.verdicts == w.rows.verdicts && after.disk.chunks == w.disk.chunks && Gone(after) == Gone(w)
    && next.finalSeq == row.finalSeq && next.totalChunks == row.totalChunks
    && (Open(next.state) ==> next == row)
    && (CompleteOrLater(next.state) && next.manifest.None? ==> CompleteOrLater(row.state) && row.manifest.None?)
  }

  lemma CalmKeeps(w: World, after: World)
    requires Inv(w) && Originals.Inv(after) && (Calm(w, after) || Gone(after))
    ensures Inv(after) && (CompleteIsWhole(w) ==> CompleteIsWhole(after))
  {
    hide Originals.Inv, HeaderOk;
  }

  lemma TranscodeIsCalm(w: World)
    requires Originals.Inv(w) && w.pc.InTranscode?
    ensures Calm(w, TranscodeWork(w, w.pc.id, w.pc.t, w.pc.facts))
  {
    hide ValidMp4, MediaGuard, SourceWhole, HeaderOk, ManifestFor, SomeActive;
  }

  lemma UploadIsCalm(w: World)
    requires Originals.Inv(w) && w.pc.InUpload?
    ensures Calm(w, UploadWork(w, w.pc.id, w.pc.u, w.pc.facts, w.pc.file))
  {
    hide ValidMp4, MediaGuard, SomeActive;
  }

  lemma WorkIsCalm(w: World)
    requires Originals.Inv(w) && CanWork(w) && !w.pc.InDelete?
    ensures Calm(w, DoWork(w))
  {
    hide Originals.Inv, MediaGuard, PlainGuard, TranscodeWork, UploadWork;
    if w.pc.InTranscode? {
      TranscodeIsCalm(w);
    } else if w.pc.InUpload? {
      UploadIsCalm(w);
    }
  }

  lemma DeleteWorkIsGone(w: World)
    requires Originals.Inv(w) && CanWork(w) && w.pc.InDelete?
    ensures Gone(w) && Gone(DoWork(w))
  {
  }

  lemma OtherIsCalm(w: World, step: Step)
    requires Originals.Inv(w) && Enabled(w, step)
    requires !step.Work? && !step.UploadSlice? && !step.RowRoute? && !step.DeleteRequest? && !step.WorkRemove?
    ensures Calm(w, Do(w, step))
  {
    hide GivesUp, ValidMp4;
  }

  /** Chunks go only once the manifest is written, or the take is deleted. */
  lemma RemovalKeeps(w: World, step: Step)
    requires Inv(w) && Enabled(w, step) && step.WorkRemove? && Originals.Inv(Do(w, step))
    ensures Inv(Do(w, step)) && (CompleteIsWhole(w) ==> CompleteIsWhole(Do(w, step)))
  {
    hide ValidMp4, HeaderOk;
  }

  // ------------------------------------------------------------ uploads, declarations and sweeps

  /** An open row has no manifest yet, so what it received is what is on disk. */
  lemma OpenReceives(w: World)
    requires Inv(w) && Open(RowOf(w).state)
    ensures RowOf(w).manifest.None? && Received(RowOf(w), w.disk.chunks) == w.disk.chunks.Keys
  {
    hide ValidMp4;
  }

  /** A landed slice completes a row only when the take is whole. */
  lemma RefreshCompletes(row: Row, store: SliceStore)
    requires Open(row.state) && row.manifest.None?
    requires row.finalSeq.Some? ==> row.finalSeq.value >= -1 && row.totalChunks == Some(row.finalSeq.value + 1)
    ensures var after := AfterRefresh(row, store).0;
      && after.finalSeq == row.finalSeq
      && (CompleteOrLater(after.state) ==>
            && after.finalSeq.Some? && after.totalChunks == Some(after.finalSeq.value + 1)
            && store.Keys == Below(after.finalSeq.value + 1) && HeaderOk(store))
  {
    if row.finalSeq.Some? {
      CompletenessMeaning(SyncMissing(row, store), store);
    }
    hide CompletenessOk, HeaderOk, MissingForFinal;
  }

  /** So does a declaration, and an open row's declared end never shrinks. */
  lemma FinalizeCompletes(row: Row, store: SliceStore, p: Payload)
    requires Open(row.state) && row.manifest.None? && RowLifecycle.ValidPayload(p) && RowLifecycle.Good(row)
    ensures var after := AfterFinalize(row, store, p).0;
      && (FinalizeDecision(row, store, p) == Accepted ==> forall k :: k in store ==> k <= p.finalSeq)
      && (Open(after.state) && row.finalSeq.Some? ==>
            after.finalSeq.Some? && row.finalSeq.value <= after.finalSeq.value)
      && after.manifest.None?
      && (after == row || after.finalSeq == Some(p.finalSeq))
      && (CompleteOrLater(after.state) ==>
            after.finalSeq == Some(p.finalSeq) && after.totalChunks == Some(p.finalSeq + 1)
            && store.Keys == Below(p.finalSeq + 1) && HeaderOk(store))
  {
    var declared := ApplyPayload(row, p, p.lost);
    var open := declared.(state := Finalizing, fin := Pending);
    CompletenessMeaning(SyncMissing(open, store), store);
    hide CompletenessOk, HeaderOk, MissingForFinal;
  }

  /** The parts of the invariant that speak of the row and the slices. */
  predicate RowFits(rows: RowLifecycle.RowState, store: SliceStore) {
    EndFits(rows.row, store) && forall v :: v in rows.verdicts ==> StillSeen(rows.row, store, v)
  }

  predicate WholeWhenComplete(row: Row, store: SliceStore) {
    CompleteOrLater(row.state) && row.manifest.None? ==>
      && row.finalSeq.Some? && row.totalChunks == Some(row.finalSeq.value + 1)
      && store.Keys == Below(row.finalSeq.value + 1) && HeaderOk(store)
  }

  lemma WholeMeans(w: World)
    ensures WholeWhenComplete(RowOf(w), w.disk.chunks) <==> CompleteIsWhole(w)
  {
    hide HeaderOk;
  }

  /** A finalize on a row that is neither open nor deleted. */
  lemma FinalizeFits(row: Row, store: SliceStore, p: Payload)
    requires EndFits(row, store) && RowLifecycle.ValidPayload(p)
    ensures EndFits(AfterFinalize(row, store, p).0, store)
    ensures !Open(row.state) && !CompleteOrLater(row.state) ==>
      !Open(AfterFinalize(row, store, p).0.state) && !CompleteOrLater(AfterFinalize(row, store, p).0.state)
    ensures CompleteOrLater(row.state) ==>
      var after := AfterFinalize(row, store, p).0; !Open(after.state) && after.manifest == row.manifest
  {
    hide CompletenessOk, MissingForFinal, HeaderOk;
  }

  lemma FinalizeKeeps(w: World, p: Payload)
    requires Inv(w) && !Gone(w) && RowLifecycle.ValidPayload(p)
    ensures var after := RowLifecycle.After(w.rows, RowLifecycle.Finalize(w.disk.chunks, p));
      && RowFits(after, w.disk.chunks)
      && (WholeWhenComplete(RowOf(w), w.disk.chunks) ==> WholeWhenComplete(after.row, w.disk.chunks))
  {
    FinalizeFits(RowOf(w), w.disk.chunks, p);
    Originals.RoutesFreeze(w, RowLifecycle.Finalize(w.disk.chunks, p));
    if Open(RowOf(w).state) {
      OpenReceives(w);
      FinalizeCompletes(RowOf(w), w.disk.chunks, p);
    }
    hide AfterFinalize, FinalizeDecision, HeaderOk, ValidMp4;
  }

  lemma SweepReadKeeps(w: World)
    requires Inv(w) && !Gone(w)
    ensures RowFits(RowLifecycle.After(w.rows, RowLifecycle.SweepRead(w.disk.chunks)), w.disk.chunks)
  {
    var row := RowOf(w);
    if SweepDecision(row, w.disk.chunks).ToComplete? {
      OpenReceives(w);
      CompletenessMeaning(row, w.disk.chunks);
    }
    hide CompletenessOk, HeaderOk, ValidMp4;
  }

  /** The guarded UPDATE: what it completes is whole exactly when no slice of the growth is missing. */
  lemma SweepClaimExactly(w: World, v: SweepVerdict)
    requires Inv(w) && !Gone(w) && v in w.rows.verdicts && WholeWhenComplete(RowOf(w), w.disk.chunks)
    ensures var after := RowLifecycle.After(w.rows, RowLifecycle.SweepClaim(v));
      && RowFits(after, w.disk.chunks)
      && (WholeWhenComplete(after.row, w.disk.chunks) <==> !ShortSweep(w, RowRoute(RowLifecycle.SweepClaim(v))))
  {
    var row, store := RowOf(w), w.disk.chunks;
    if Open(row.state) && v.ToComplete? {
      OpenReceives(w);
      assert StillSeen(row, store, v);
      var final := row.finalSeq.value;
      if forall k: nat :: k <= final && v.readFinal < k ==> k in store {
        assert store.Keys == Below(final + 1) by {
          forall k: nat | k < final + 1 ensures k in store {
            assert k <= v.readFinal ==> k in Below(v.readFinal + 1);
          }
        }
      } else {
        var k: nat :| k <= final && v.readFinal < k && k !in store;
        assert k in Below(final + 1);
      }
    }
    hide HeaderOk, ValidMp4, Originals.Inv;
  }

  lemma HeaderGrows(store: SliceStore, k: nat, data: Bytes)
    requires k !in store
    ensures HeaderOk(store) ==> HeaderOk(store[k := data])
    ensures (store[k := data]).Keys == store.Keys + {k}
  {
  }

  lemma GoodRow(w: World)
    requires Inv(w)
    ensures RowLifecycle.Good(RowOf(w))
  {
  }

  lemma OpenUploadFits(w: World, k: nat, data: Bytes, db: RecordingFiles.DbOutcome)
    requires Inv(w) && Open(RowOf(w).state)
    ensures var after := AfterUploadSlice(w, k, data, db);
      RowFits(after.rows, after.disk.chunks) && WholeWhenComplete(RowOf(after), after.disk.chunks)
  {
    hide AfterUploadSlice, AfterRefresh, Originals.Inv, HeaderOk, ValidMp4;
    Originals.UploadAdds(w, k, data, db);
    UploadRow(w, k, data, db);
    var after := AfterUploadSlice(w, k, data, db);
    OpenReceives(w);
    GoodRow(w);
    RefreshCompletes(RowOf(w), after.disk.chunks);
    if k !in w.disk.chunks {
      HeaderGrows(w.disk.chunks, k, data);
    }
  }

  lemma UploadFits(w: World, k: nat, data: Bytes, db: RecordingFiles.DbOutcome)
    requires Inv(w) && !Gone(w)
    ensures var after := AfterUploadSlice(w, k, data, db);
      && RowFits(after.rows, after.disk.chunks)
      && (WholeWhenComplete(RowOf(w), w.disk.chunks) ==> WholeWhenComplete(RowOf(after), after.disk.chunks))
  {
    if Open(RowOf(w).state) {
      OpenUploadFits(w, k, data, db);
    } else {
      Originals.UploadAdds(w, k, data, db);
      UploadRow(w, k, data, db);
    }
    hide AfterUploadSlice, AfterRefresh, Originals.Inv, HeaderOk, ValidMp4;
  }

  /** What an upload does to the row. */
  lemma UploadRow(w: World, k: nat, data: Bytes, db: RecordingFiles.DbOutcome)
    requires !Gone(w)
    ensures var after := AfterUploadSlice(w, k, data, db);
      && after.rows.verdicts == w.rows.verdicts
      && (RowOf(after) == RowOf(w) || RowOf(after) == AfterRefresh(RowOf(w), after.disk.chunks).0)
    ensures var next := AfterRefresh(RowOf(w), AfterUploadSlice(w, k, data, db).disk.chunks).0;
      !Open(RowOf(w).state) ==>
        next.state == RowOf(w).state && next.finalSeq == RowOf(w).finalSeq && next.manifest == RowOf(w).manifest
        && next.totalChunks == RowOf(w).totalChunks
  {
    hide CompletenessOk, MissingForFinal;
  }

  // ------------------------------------------------------------ every run

  lemma RouteExactly(w: World, e: RowLifecycle.Event)
    requires Inv(w) && RouteEvent(w, e) && !Gone(w)
    ensures var after := RowLifecycle.After(w.rows, e);
      && RowFits(after, w.disk.chunks)
      && (WholeWhenComplete(RowOf(w), w.disk.chunks) ==>
            (WholeWhenComplete(after.row, w.disk.chunks) <==> !ShortSweep(w, RowRoute(e))))
  {
    match e
    case Finalize(store, p) => FinalizeKeeps(w, p);
    case SweepRead(store) => SweepReadKeeps(w);
    case SweepClaim(v) =>
      if WholeWhenComplete(RowOf(w), w.disk.chunks) {
        SweepClaimExactly(w, v);
      } else {
        SweepClaimFits(w, v);
      }
    case _ =>
  }

  lemma SweepClaimFits(w: World, v: SweepVerdict)
    requires Inv(w) && !Gone(w)
    ensures RowFits(RowLifecycle.After(w.rows, RowLifecycle.SweepClaim(v)), w.disk.chunks)
  {
    hide Originals.Inv, HeaderOk;
  }

  lemma StepKeeps(w: World, step: Step)
    requires Inv(w) && Enabled(w, step)
    ensures Inv(Do(w, step))
    ensures CompleteIsWhole(w) ==> (CompleteIsWhole(Do(w, step)) <==> !ShortSweep(w, step))
  {
    Originals.StepKeeps(w, step);
    WholeMeans(w);
    WholeMeans(Do(w, step));
    if step.RowRoute? || step.UploadSlice? {
      RowStepKeeps(w, step);
    } else if step.WorkRemove? {
      RemovalKeeps(w, step);
    } else if step.DeleteRequest? || (step.Work? && w.pc.InDelete?) {
      DeletionIsGone(w, step);
      CalmKeeps(w, Do(w, step));
    } else {
      if step.Work? {
        WorkIsCalm(w);
      } else {
        OtherIsCalm(w, step);
      }
      hide Calm, DoWork, Inv, CompleteIsWhole;
      CalmKeeps(w, Do(w, step));
    }
  }

  lemma DeletionIsGone(w: World, step: Step)
    requires Originals.Inv(w) && Enabled(w, step) && (step.DeleteRequest? || (step.Work? && w.pc.InDelete?))
    ensures Gone(Do(w, step))
  {
    if step.Work? {
      DeleteWorkIsGone(w);
    }
  }

  lemma RowStepKeeps(w: World, step: Step)
    requires Inv(w) && Enabled(w, step) && (step.RowRoute? || step.UploadSlice?) && Originals.Inv(Do(w, step))
    ensures Inv(Do(w, step))
    ensures WholeWhenComplete(RowOf(w), w.disk.chunks) ==>
      (WholeWhenComplete(RowOf(Do(w, step)), Do(w, step).disk.chunks) <==> !ShortSweep(w, step))
  {
    if Gone(w) {
      TombstonesStay(w, step);
    } else if step.RowRoute? {
      RouteExactly(w, step.event);
    } else {
      UploadFits(w, step.k, step.data, step.db);
    }
    hide RowLifecycle.After, AfterUploadSlice, Originals.Inv, WholeWhenComplete, StillSeen, EndFits, RouteEvent;
  }

  lemma TombstonesStay(w: World, step: Step)
    requires Gone(w) && Enabled(w, step) && (step.RowRoute? || step.UploadSlice?)
    ensures Gone(Do(w, step)) && !ShortSweep(w, step)
    ensures WholeWhenComplete(RowOf(Do(w, step)), Do(w, step).disk.chunks)
  {
  }

  predicate WholeThroughout(w: World, steps: seq<Step>)
    requires RecordingWorker.PossibleRun(w, steps)
    decreases |steps|
  {
    CompleteIsWhole(w) && (steps != [] ==> WholeThroughout(Do(w, steps[0]), steps[1..]))
  }

  predicate NoShortSweep(w: World, steps: seq<Step>)
    requires RecordingWorker.PossibleRun(w, steps)
    decreases |steps|
  {
    steps != [] ==> !ShortSweep(w, steps[0]) && NoShortSweep(Do(w, steps[0]), steps[1..])
  }

  lemma {:induction false} WholeExactly(w: World, steps: seq<Step>)
    requires Inv(w) && CompleteIsWhole(w) && RecordingWorker.PossibleRun(w, steps)
    ensures WholeThroughout(w, steps) <==> NoShortSweep(w, steps)
    ensures NoShortSweep(w, steps) ==> CompleteIsWhole(AfterRun(w, steps))
    decreases |steps|
  {
    hide Inv, CompleteIsWhole, ShortSweep, Do, Enabled;
    if steps != [] {
      StepKeeps(w, steps[0]);
      if !ShortSweep(w, steps[0]) {
        WholeExactly(Do(w, steps[0]), steps[1..]);
      }
    }
  }

  /**
   * Over every run of uploads, declarations, sweeps, deletes, the worker and its crashes: every complete
   * row has its whole source on disk until its manifest is written, in every state of the run, if and
   * only if no sweep completed a take while a slice of the end it found, past the end it had read, was
   * missing at its UPDATE.
   */
  lemma CompleteIsWholeExactly(steps: seq<Step>)
    requires RecordingWorker.PossibleRun(Start, steps)
    ensures WholeThroughout(Start, steps) <==> NoShortSweep(Start, steps)
    ensures NoShortSweep(Start, steps) ==> CompleteIsWhole(AfterRun(Start, steps))
  {
    WholeExactly(Start, steps);
  }

  // ------------------------------------------------------------ a run with a short sweep

  const FirstEnd := Payload(0, 1, 0, false)
  const LaterEnd := Payload(5, 6, 0, false)
  const HEADER: SliceStore := map[0 := EBML_MAGIC]

  /** The session ends with slice 0 declared and stored, its refresh having failed. */
  const Declared := Start.(rows := RowLifecycle.RowState(
    FreshRow.(state := Finalizing, fin := Pending, finalSeq := Some(0), totalChunks := Some(1), durationMs := Some(0),
              missing := [0]), {}))

  const Landed := Declared.(disk := EmptyDisk.(chunks := HEADER), written := HEADER)

  /** The sweep has read it as whole; then a larger end is declared. */
  const Swept := Landed.(rows := Landed.rows.(verdicts := {ToComplete(0)}))

  lemma DeclaresFirst()
    ensures var ended := Do(Start, RowRoute(RowLifecycle.SessionEnd));
      && Enabled(Start, RowRoute(RowLifecycle.SessionEnd))
      && Enabled(ended, RowRoute(RowLifecycle.Finalize(map[], FirstEnd)))
      && Do(ended, RowRoute(RowLifecycle.Finalize(map[], FirstEnd))) == Declared
  {
    var ended := Do(Start, RowRoute(RowLifecycle.SessionEnd));
    var row := RowOf(ended);
    assert row == FreshRow.(state := Finalizing);
    var none: SliceStore := map[];
    assert none.Keys == {};
    assert MissingForFinal({}, 0) == [0];
    assert AfterFinalize(row, none, FirstEnd).0 == Declared.rows.row;
  }

  lemma LandsUnrefreshed()
    ensures Enabled(Declared, UploadSlice(0, EBML_MAGIC, RecordingFiles.RefreshFailed))
    ensures Do(Declared, UploadSlice(0, EBML_MAGIC, RecordingFiles.RefreshFailed)) == Landed
  {
    assert (map j | j in HEADER && j !in Declared.disk.chunks :: HEADER[j]) == HEADER;
  }

  lemma SweepReads()
    ensures Enabled(Landed, RowRoute(RowLifecycle.SweepRead(HEADER)))
    ensures Do(Landed, RowRoute(RowLifecycle.SweepRead(HEADER))) == Swept
  {
    assert HEADER.Keys == {0} == Below(1);
    CompletenessMeaning(RowOf(Landed), HEADER);
    assert SweepDecision(RowOf(Landed), HEADER) == ToComplete(0);
  }

  /** The row with the larger end, five slices missing. */
  function GrownRow(): Row {
    RowOf(Landed).(finalSeq := Some(5), totalChunks := Some(6), missing := MissingForFinal(HEADER.Keys, 5))
  }

  lemma NotWholeYet()
    ensures !CompletenessOk(GrownRow(), HEADER)
  {
    assert HEADER.Keys == {0};
    assert 5 in Below(6) && 5 !in HEADER.Keys;
    assert HEADER.Keys != Below(6);
    CompletenessMeaning(GrownRow(), HEADER);
  }

  lemma EndGrows()
    ensures AfterFinalize(RowOf(Landed), HEADER, LaterEnd).0 == GrownRow()
  {
    hide CompletenessOk, MissingForFinal, HeaderOk;
    assert HEADER.Keys == {0};
    assert FinalizeDecision(RowOf(Landed), HEADER, LaterEnd) == Accepted;
    NotWholeYet();
    hide FinalizeDecision;
  }

  const Grow := RowRoute(RowLifecycle.Finalize(HEADER, LaterEnd))
  const Claim := RowRoute(RowLifecycle.SweepClaim(ToComplete(0)))

  lemma ClaimsTooEarly()
    ensures Enabled(Swept, Grow) && Enabled(Do(Swept, Grow), Claim)
    ensures var w := Do(Do(Swept, Grow), Claim);
      && RowOf(w).state == Complete && RowOf(w).finalSeq == Some(5) && w.disk.chunks.Keys == {0}
      && !CompleteIsWhole(w)
  {
    EndGrows();
    hide AfterFinalize, MissingForFinal, HeaderOk;
    assert HEADER.Keys == {0};
    assert 5 in Below(6) && 5 !in HEADER.Keys;
  }

  lemma BeginsSwept() returns (steps: seq<Step>)
    ensures RecordingWorker.PossibleRun(Start, steps) && AfterRun(Start, steps) == Swept
  {
    DeclaresFirst();
    LandsUnrefreshed();
    SweepReads();
    hide Do, Enabled;
    var ended := Do(Start, RowRoute(RowLifecycle.SessionEnd));
    var land, read := UploadSlice(0, EBML_MAGIC, RecordingFiles.RefreshFailed), RowRoute(RowLifecycle.SweepRead(HEADER));
    var declare := RowRoute(RowLifecycle.Finalize(map[], FirstEnd));
    Prepend(Landed, read, []);
    Prepend(Declared, land, [read] + []);
    Prepend(ended, declare, [land] + ([read] + []));
    Prepend(Start, RowRoute(RowLifecycle.SessionEnd), [declare] + ([land] + ([read] + [])));
    steps := [RowRoute(RowLifecycle.SessionEnd)] + ([declare] + ([land] + ([read] + [])));
  }

  /** One short sweep is enough: a take of six slices is complete with one of them stored. */
  lemma ShortSweepHappens() returns (steps: seq<Step>)
    ensures RecordingWorker.PossibleRun(Start, steps) && !NoShortSweep(Start, steps)
    ensures var w := AfterRun(Start, steps);
      RowOf(w).state == Complete && RowOf(w).finalSeq == Some(5) && w.disk.chunks.Keys == {0}
  {
    var first := BeginsSwept();
    ClaimsTooEarly();
    hide Do, Enabled, CompleteIsWhole, ShortSweep, WholeThroughout, NoShortSweep;
    Prepend(Do(Swept, Grow), Claim, []);
    Prepend(Swept, Grow, [Claim] + []);
    Continue(Start, first, [Grow] + ([Claim] + []));
    steps := first + ([Grow] + ([Claim] + []));
    CompleteIsWholeExactly(steps);
  }

  lemma {:induction false} Continue(w: World, first: seq<Step>, rest: seq<Step>)
    requires RecordingWorker.PossibleRun(w, first) && RecordingWorker.PossibleRun(AfterRun(w, first), rest)
    ensures RecordingWorker.PossibleRun(w, first + rest)
    ensures AfterRun(w, first + rest) == AfterRun(AfterRun(w, first), rest)
    decreases |first|
  {
    hide Do, Enabled;
    if first == [] {
      assert first + rest == rest;
    } else {
      Continue(Do(w, first[0]), first[1..], rest);
      assert (first + rest)[0] == first[0] && (first + rest)[1..] == first[1..] + rest;
    }
  }

  lemma Prepend(w: World, step: Step, rest: seq<Step>)
    requires Enabled(w, step) && RecordingWorker.PossibleRun(Do(w, step), rest)
    ensures RecordingWorker.PossibleRun(w, [step] + rest)
    ensures AfterRun(w, [step] + rest) == AfterRun(Do(w, step), rest)
  {
    hide Do, Enabled;
    assert ([step] + rest)[1..] == rest;
  }

  // ------------------------------------------------------------ what a part of a take can become

  /** The server has stored every slice of the declared take. */
  predicate AllWritten(w: World) {
    CompleteOrLater(RowOf(w).state) && RowOf(w).finalSeq.Some? && Below(RowOf(w).finalSeq.value + 1) <= w.written.Keys
  }

  /** A video, a manifest, or an upload under way. */
  predicate Processed(w: World) {
    || RowOf(w).manifest.Some? || w.disk.mp4.Some? || RowOf(w).state in {Transcoded, Uploaded}
    || (w.pc.InUpload? && w.pc.u != CheckLocal)
  }

  predicate OnlyWholeIsProcessed(w: World) {
    !Gone(w) && Processed(w) ==> AllWritten(w)
  }

  lemma MediaKeepsProcessed(w: World, step: Step)
    requires Originals.Inv(w) && OnlyWholeIsProcessed(w) && Enabled(w, step)
    requires step.WorkPublish? || (step.Work? && (w.pc.InTranscode? || w.pc.InUpload?))
    ensures OnlyWholeIsProcessed(Do(w, step))
  {
    if step.WorkPublish? {
      hide HeaderOk, MediaGuard;
    } else if w.pc.InTranscode? {
      TranscodeKeepsProcessed(w);
    } else {
      hide MediaGuard, SomeActive;
    }
  }

  lemma TranscodeKeepsProcessed(w: World)
    requires Originals.Inv(w) && OnlyWholeIsProcessed(w) && w.pc.InTranscode?
    ensures OnlyWholeIsProcessed(TranscodeWork(w, w.pc.id, w.pc.t, w.pc.facts))
  {
    hide ValidMp4, MediaGuard, SourceWhole, HeaderOk, ManifestFor, SomeActive;
  }

  lemma RowsKeepProcessed(w: World, step: Step)
    requires Originals.Inv(w) && OnlyWholeIsProcessed(w) && Enabled(w, step) && (step.UploadSlice? || step.RowRoute?)
    ensures OnlyWholeIsProcessed(Do(w, step))
  {
    if step.UploadSlice? {
      Originals.UploadAdds(w, step.k, step.data, step.db);
      Originals.UploadFreezes(w, step.k, step.data, step.db);
      UploadStays(w, step.k, step.data, step.db);
    } else {
      Originals.RoutesFreeze(w, step.event);
      RouteStays(w, step.event);
    }
    hide AfterUploadSlice, RowLifecycle.After, Originals.Inv, RouteEvent;
  }

  lemma UploadStays(w: World, k: nat, data: Bytes, db: RecordingFiles.DbOutcome)
    ensures var after := AfterUploadSlice(w, k, data, db);
      && after.disk.mp4 == w.disk.mp4 && after.pc == w.pc
      && (RowOf(after).state in {Transcoded, Uploaded} ==> RowOf(w).state in {Transcoded, Uploaded})
  {
    hide CompletenessOk, MissingForFinal;
  }

  lemma RouteStays(w: World, e: RowLifecycle.Event)
    requires RouteEvent(w, e)
    ensures var after := RowLifecycle.After(w.rows, e).row;
      after.state in {Transcoded, Uploaded} ==> RowOf(w).state in {Transcoded, Uploaded}
  {
    hide CompletenessOk, MissingForFinal, FinalizeDecision;
  }

  /** Slices, video and declaration stay, no upload handler moves on, and a state only fails. */
  predicate Stays(w: World, after: World) {
    && after.written == w.written && after.disk.mp4 == w.disk.mp4
    && (after.pc.InUpload? ==> after.pc == w.pc || after.pc.u == CheckLocal)
    && RowOf(after).manifest == RowOf(w).manifest && RowOf(after).finalSeq == RowOf(w).finalSeq
    && (RowOf(after).state == RowOf(w).state || RowOf(after).state == TranscodeFailed)
    && (CompleteOrLater(RowOf(w).state) ==> CompleteOrLater(RowOf(after).state))
  }

  lemma PlainWorkStays(w: World)
    requires Originals.Inv(w) && CanWork(w) && !w.pc.InTranscode? && !w.pc.InUpload?
    ensures Stays(w, DoWork(w)) || Gone(DoWork(w))
  {
    if w.pc.InDelete? {
      DeleteWorkIsGone(w);
    }
    hide ValidMp4, TranscodeWork, UploadWork, DeleteWork, MediaGuard, PlainGuard;
  }

  lemma OtherStepsStay(w: World, step: Step)
    requires Originals.Inv(w) && Enabled(w, step) && !step.UploadSlice? && !step.RowRoute? && !step.WorkPublish?
    requires step.Work? ==> !w.pc.InTranscode? && !w.pc.InUpload?
    ensures Stays(w, Do(w, step)) || Gone(Do(w, step))
  {
    if step.Work? {
      PlainWorkStays(w);
    }
    hide ValidMp4, DoWork, GivesUp, SomeActive, HoldsLease, Recoverable, Originals.Inv;
  }

  lemma GoneStays(w: World, step: Step)
    requires Enabled(w, step) && Gone(w)
    ensures Gone(Do(w, step))
  {
    hide ValidMp4, MediaGuard, PlainGuard, SourceWhole, HeaderOk, ManifestFor, SomeActive, GivesUp, HoldsLease;
  }

  lemma StepKeepsProcessed(w: World, step: Step)
    requires Originals.Inv(w) && OnlyWholeIsProcessed(w) && Enabled(w, step)
    ensures OnlyWholeIsProcessed(Do(w, step))
  {
    if step.UploadSlice? || step.RowRoute? {
      RowsKeepProcessed(w, step);
    } else if step.WorkPublish? || (step.Work? && (w.pc.InTranscode? || w.pc.InUpload?)) {
      MediaKeepsProcessed(w, step);
    } else {
      OtherStepsStay(w, step);
      hide Do, Enabled, Originals.Inv;
      if Gone(w) {
        GoneStays(w, step);
      }
    }
  }

  lemma {:induction false} EveryRunKeepsProcessed(w: World, steps: seq<Step>)
    requires Originals.Inv(w) && OnlyWholeIsProcessed(w) && RecordingWorker.PossibleRun(w, steps)
    ensures OnlyWholeIsProcessed(AfterRun(w, steps))
    decreases |steps|
  {
    hide Originals.Inv, OnlyWholeIsProcessed, Do, Enabled;
    if steps != [] {
      Originals.StepKeeps(w, steps[0]);
      StepKeepsProcessed(w, steps[0]);
      EveryRunKeepsProcessed(Do(w, steps[0]), steps[1..]);
    }
  }

  /**
   * A part of a take is never processed: whatever sweeps completed it, a take that is not deleted gets
   * a video, a manifest or an object only when every slice 0..final has been stored.
   */
  lemma NothingPartialIsProcessed(steps: seq<Step>)
    requires RecordingWorker.PossibleRun(Start, steps)
    ensures var w := AfterRun(Start, steps);
      !Gone(w) && (RowOf(w).manifest.Some? || w.disk.mp4.Some? || RowOf(w).state in {Transcoded, Uploaded}) ==>
        RowOf(w).finalSeq.Some? && forall k: nat :: k <= RowOf(w).finalSeq.value ==> k in w.written
  {
    EveryRunKeepsProcessed(Start, steps);
    var w := AfterRun(Start, steps);
    if AllWritten(w) {
      forall k: nat | k <= RowOf(w).finalSeq.value ensures k in w.written {
        assert k in Below(RowOf(w).finalSeq.value + 1);
      }
    }
  }
}

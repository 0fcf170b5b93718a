/** Contiguous runs of uploaded chunks, as capture intervals (server/app/main.py `_recording_spans`). */
module CaptureSpans {
  import opened Common

  /** A chunk's metadata row; rows come in sequence order, and a sequence may repeat. */
  datatype Chunk = Chunk(sequence: int, startMs: Option<int>, endMs: Option<int>, sizeBytes: Option<int>)

  datatype Span = Span(first: int, last: int, count: nat, startMs: Option<int>, endMs: Option<int>, sizeBytes: int)

  function SizeOf(c: Chunk): int {
    if c.sizeBytes.None? then 0 else c.sizeBytes.value
  }

  function TotalSize(chunks: seq<Chunk>): int {
    if chunks == [] then 0 else TotalSize(chunks[..|chunks| - 1]) + SizeOf(chunks[|chunks| - 1])
  }

  /** The last end that is known. */
  function LastEnd(chunks: seq<Chunk>): Option<int>
    requires chunks != []
  {
    var c := chunks[|chunks| - 1];
    if c.endMs.Some? || |chunks| == 1 then c.endMs else LastEnd(chunks[..|chunks| - 1])
  }

  /** What a run of chunks looks like as one span. */
  function SpanOf(run: seq<Chunk>): Span
    requires run != []
  {
    Span(run[0].sequence, run[|run| - 1].sequence, |run|, run[0].startMs, LastEnd(run), TotalSize(run))
  }

  /** `next` goes on where `run` stops. */
  predicate Continues(run: seq<Chunk>, next: Chunk)
    requires run != []
  {
    next.sequence == run[|run| - 1].sequence + 1
  }

  /** The maximal runs of consecutive sequence numbers, in order. */
  function Runs(chunks: seq<Chunk>): (runs: seq<seq<Chunk>>)
    ensures chunks == [] <==> runs == []
    ensures forall i :: 0 <= i < |runs| ==> runs[i] != []
  {
    if chunks == [] then []
    else
      var before, c := Runs(chunks[..|chunks| - 1]), chunks[|chunks| - 1];
      if before != [] && Continues(before[|before| - 1], c) then
        before[|before| - 1 := before[|before| - 1] + [c]]
      else before + [[c]]
  }

  function Spans(runs: seq<seq<Chunk>>): (spans: seq<Span>)
    requires forall i :: 0 <= i < |runs| ==> runs[i] != []
    ensures |spans| == |runs| && forall i :: 0 <= i < |runs| ==> spans[i] == SpanOf(runs[i])
  {
    seq(|runs|, i requires 0 <= i < |runs| => SpanOf(runs[i]))
  }

  predicate GoesOn(runs: seq<seq<Chunk>>, c: Chunk)
    requires forall i :: 0 <= i < |runs| ==> runs[i] != []
  {
    runs != [] && Continues(runs[|runs| - 1], c)
  }

  lemma NextRuns(chunks: seq<Chunk>, n: nat)
    requires n < |chunks|
    ensures var before, c := Runs(chunks[..n]), chunks[n];
      Runs(chunks[..n + 1]) ==
        if GoesOn(before, c) then before[|before| - 1 := before[|before| - 1] + [c]] else before + [[c]]
  {
    assert chunks[..n + 1][..n] == chunks[..n] && chunks[..n + 1][n] == chunks[n];
  }

  function Grown(span: Span, c: Chunk): Span {
    span.(last := c.sequence, count := span.count + 1, sizeBytes := span.sizeBytes + SizeOf(c),
          endMs := if c.endMs.Some? then c.endMs else span.endMs)
  }

  /** `_recording_spans` */
  method RecordingSpans(chunks: seq<Chunk>) returns (spans: seq<Span>)
    ensures spans == Spans(Runs(chunks))
  {
    hide Runs, SpanOf;
    spans := [];
    NoRuns();
    for n := 0 to |chunks|
      invariant spans == Spans(Runs(chunks[..n]))
    {
      var chunk := chunks[n];
      ghost var runs := Runs(chunks[..n]);
      NextRuns(chunks, n);
      if spans != [] {
        LastOf(runs[|runs| - 1]);
      }
      if spans != [] && chunk.sequence == spans[|spans| - 1].last + 1 {
        GrownSpan(runs[|runs| - 1], chunk);
        spans := spans[|spans| - 1 := Grown(spans[|spans| - 1], chunk)];
      } else {
        NewSpan(chunk);
        spans := spans + [Span(chunk.sequence, chunk.sequence, 1, chunk.startMs, chunk.endMs, SizeOf(chunk))];
      }
    }
    assert chunks[..|chunks|] == chunks;
  }

  lemma NoRuns()
    ensures Spans(Runs([])) == []
  {
  }

  lemma LastOf(run: seq<Chunk>)
    requires run != []
    ensures SpanOf(run).last == run[|run| - 1].sequence
  {
  }

  lemma GrownSpan(run: seq<Chunk>, c: Chunk)
    requires run != []
    ensures SpanOf(run + [c]) == Grown(SpanOf(run), c)
  {
    assert (run + [c])[..|run|] == run;
  }

  lemma NewSpan(c: Chunk)
    ensures SpanOf([c]) == Span(c.sequence, c.sequence, 1, c.startMs, c.endMs, SizeOf(c))
  {
    assert TotalSize([c]) == TotalSize([]) + SizeOf(c) by { assert [c][..0] == []; }
  }

  // ------------------------------------------------------------ what the runs are

  function Flatten(runs: seq<seq<Chunk>>): seq<Chunk> {
    if runs == [] then [] else Flatten(runs[..|runs| - 1]) + runs[|runs| - 1]
  }

  /** The runs put together are the chunk list, in its order. */
  lemma {:induction false} RunsFlattenBack(chunks: seq<Chunk>)
    ensures Flatten(Runs(chunks)) == chunks
  {
    if chunks != [] {
      var front, c := chunks[..|chunks| - 1], chunks[|chunks| - 1];
      RunsFlattenBack(front);
      var before, runs := Runs(front), Runs(chunks);
      assert runs[..|runs| - 1] == if |runs| == |before| then before[..|before| - 1] else before;
      assert chunks == front + [c];
    }
  }

  predicate Consecutive(run: seq<Chunk>) {
    forall i, j :: 0 <= i < |run| && 0 <= j < |run| && j == i + 1 ==> run[j].sequence == run[i].sequence + 1
  }

  /** No run goes on where the one before it stops. */
  predicate Broken(runs: seq<seq<Chunk>>)
    requires forall i :: 0 <= i < |runs| ==> runs[i] != []
  {
    forall i, j :: 0 <= i < |runs| && 0 <= j < |runs| && j == i + 1 ==> !Continues(runs[i], runs[j][0])
  }

  /** Every run is consecutive and as long as it can be. */
  lemma {:induction false} RunsAreMaximal(chunks: seq<Chunk>)
    ensures forall i :: 0 <= i < |Runs(chunks)| ==> Consecutive(Runs(chunks)[i])
    ensures Broken(Runs(chunks))
  {
    hide Runs;
    if chunks != [] {
      var n := |chunks| - 1;
      RunsAreMaximal(chunks[..n]);
      NextRuns(chunks, n);
      assert chunks[..n + 1] == chunks;
    }
  }

  function SumCounts(spans: seq<Span>): nat {
    if spans == [] then 0 else SumCounts(spans[..|spans| - 1]) + spans[|spans| - 1].count
  }

  function SumSizes(spans: seq<Span>): int {
    if spans == [] then 0 else SumSizes(spans[..|spans| - 1]) + spans[|spans| - 1].sizeBytes
  }

  /** No chunk and no byte is lost or counted twice. */
  lemma {:induction false} CountsAndSizesConserved(chunks: seq<Chunk>)
    ensures SumCounts(Spans(Runs(chunks))) == |chunks|
    ensures SumSizes(Spans(Runs(chunks))) == TotalSize(chunks)
  {
    if chunks != [] {
      var front, c := chunks[..|chunks| - 1], chunks[|chunks| - 1];
      CountsAndSizesConserved(front);
      var before, runs := Spans(Runs(front)), Spans(Runs(chunks));
      if |runs| == |before| {
        GrownSpan(Runs(front)[|before| - 1], c);
        assert runs[..|runs| - 1] == before[..|before| - 1];
      } else {
        NewSpan(c);
        assert runs[..|runs| - 1] == before;
      }
    }
  }
}

/** The review timeline: clip spans paired from the event log, and capture spans (server/app/main.py). */
module Timeline {
  import opened Common
  import opened Sorting

  datatype EventKind = ClipStarted | ClipEnded | ClipInterrupted | WizardAction | Sync | Lifecycle

  datatype Source = Server | Student | Wizard

  /** A stored event. An empty clip id is no clip id. */
  datatype Event = Event(kind: EventKind, clip: string, at: Option<int>, sequence: int, source: Source,
                         played: Option<int>, reason: Option<string>)

  /** `event` is the entry's own place in the log. */
  datatype Entry = Entry(event: nat, kind: EventKind, clip: string, tMs: Option<int>, sequence: int, source: Source,
                         started: bool, endMs: Option<int>, endKind: Option<EventKind>, durationMs: Option<int>,
                         played: Option<int>, interruptReason: Option<string>)

  predicate Starts(e: Event) {
    e.kind == ClipStarted
  }

  predicate Ends(e: Event) {
    e.kind in {ClipEnded, ClipInterrupted}
  }

  predicate IsClipEvent(e: Event, clip: string) {
    (Starts(e) || Ends(e)) && e.clip == clip
  }

  function RelativeMs(e: Event, origin: Option<int>): Option<int> {
    if origin.None? || e.at.None? then None else Some(e.at.value - origin.value)
  }

  // ------------------------------------------------------------ which end closes which start

  /** The last start or end of this clip among the first `n` events. */
  function LastClipEvent(events: seq<Event>, n: nat, clip: string): (r: Option<nat>)
    requires n <= |events|
    ensures r.Some? ==> r.value < n && IsClipEvent(events[r.value], clip)
    ensures forall k :: (if r.Some? then r.value + 1 else 0) <= k < n ==> !IsClipEvent(events[k], clip)
  {
    if n == 0 then None
    else if IsClipEvent(events[n - 1], clip) then Some(n - 1)
    else LastClipEvent(events, n - 1, clip)
  }

  /** Event `i` ends a clip whose previous start or end is a start. */
  predicate Closes(events: seq<Event>, i: nat)
    requires i < |events|
  {
    Ends(events[i]) && events[i].clip != "" && OpenAt(events, i, events[i].clip)
  }

  predicate OpenAt(events: seq<Event>, n: nat, clip: string)
    requires n <= |events|
  {
    var last := LastClipEvent(events, n, clip);
    last.Some? && Starts(events[last.value])
  }

  /** The start that event `i` closes. */
  function ClosedBy(events: seq<Event>, i: nat): (j: nat)
    requires i < |events| && Closes(events, i)
    ensures j < i && Starts(events[j]) && events[j].clip == events[i].clip
  {
    LastClipEvent(events, i, events[i].clip).value
  }

  /** The event among the first `n` that closes start `j`. */
  function Closer(events: seq<Event>, n: nat, j: nat): (r: Option<nat>)
    requires n <= |events|
    ensures r.Some? ==> j < r.value < n && Closes(events, r.value) && ClosedBy(events, r.value) == j
  {
    if n == 0 then None
    else if Closes(events, n - 1) && ClosedBy(events, n - 1) == j then Some(n - 1)
    else Closer(events, n - 1, j)
  }

  /** A start has one closer at most. */
  lemma OneCloser(events: seq<Event>, i: nat, k: nat)
    requires i < |events| && k < |events| && Closes(events, i) && Closes(events, k)
    requires ClosedBy(events, i) == ClosedBy(events, k)
    ensures i == k
  {
    if i < k {
      assert IsClipEvent(events[i], events[k].clip);
    } else if k < i {
      assert IsClipEvent(events[k], events[i].clip);
    }
  }

  /** `Closer` finds it. */
  lemma {:induction false} CloserIsFound(events: seq<Event>, n: nat, i: nat)
    requires i < n <= |events| && Closes(events, i)
    ensures Closer(events, n, ClosedBy(events, i)) == Some(i)
  {
    if Closes(events, n - 1) && ClosedBy(events, n - 1) == ClosedBy(events, i) {
      OneCloser(events, n - 1, i);
    } else {
      CloserIsFound(events, n - 1, i);
    }
  }

  /** An open start has not been closed yet. */
  lemma OpenMeansUnclosed(events: seq<Event>, n: nat, clip: string)
    requires n <= |events| && OpenAt(events, n, clip)
    ensures Closer(events, n, LastClipEvent(events, n, clip).value) == None
  {
    var j := LastClipEvent(events, n, clip).value;
    if Closer(events, n, j).Some? {
      var i := Closer(events, n, j).value;
      assert IsClipEvent(events[i], clip);
    }
  }

  // ------------------------------------------------------------ the entries

  function EntryOf(events: seq<Event>, origin: Option<int>, j: nat, closer: Option<nat>): (e: Entry)
    requires j < |events| && (closer.Some? ==> closer.value < |events|)
    ensures e.event == j
  {
    var event := events[j];
    var t := RelativeMs(event, origin);
    var plain := Entry(j, event.kind, event.clip, t, event.sequence, event.source, false, None, None, None, None, None);
    if Starts(event) then
      if closer.None? then plain.(started := true)
      else
        var end := events[closer.value];
        var endMs := RelativeMs(end, origin);
        plain.(started := true, endMs := endMs, endKind := Some(end.kind), played := end.played,
               durationMs := if t.Some? && endMs.Some? then Some(endMs.value - t.value) else None,
               interruptReason := if end.kind == ClipInterrupted then end.reason else None)
    else if Ends(event) then plain.(endMs := t, endKind := Some(event.kind), played := event.played)
    else plain
  }

  /** The events among the first `n` that get an entry of their own. */
  function Own(events: seq<Event>, n: nat): (r: seq<nat>)
    requires n <= |events|
    ensures forall a :: 0 <= a < |r| ==> r[a] < n && !Closes(events, r[a])
  {
    if n == 0 then [] else Own(events, n - 1) + if Closes(events, n - 1) then [] else [n - 1]
  }

  lemma {:induction false} OwnIsComplete(events: seq<Event>, n: nat, i: nat)
    requires i < n <= |events|
    ensures !Closes(events, i) <==> exists a :: 0 <= a < |Own(events, n)| && Own(events, n)[a] == i
  {
    if i < n - 1 {
      OwnIsComplete(events, n - 1, i);
      if !Closes(events, i) {
        var a :| 0 <= a < |Own(events, n - 1)| && Own(events, n - 1)[a] == i;
        assert Own(events, n)[a] == i;
      }
    } else if !Closes(events, i) {
      assert Own(events, n)[|Own(events, n)| - 1] == i;
    }
  }

  lemma {:induction false} OwnAscends(events: seq<Event>, n: nat)
    requires n <= |events|
    ensures forall a, b :: 0 <= a < b < |Own(events, n)| ==> Own(events, n)[a] < Own(events, n)[b]
  {
    if n > 0 {
      OwnAscends(events, n - 1);
    }
  }

  function Entries(events: seq<Event>, origin: Option<int>, n: nat): (r: seq<Entry>)
    requires n <= |events|
    ensures |r| == |Own(events, n)|
    ensures forall a :: 0 <= a < |r| ==> r[a] == EntryAt(events, origin, n, Own(events, n)[a])
  {
    seq(|Own(events, n)|, a requires 0 <= a < |Own(events, n)| => EntryAt(events, origin, n, Own(events, n)[a]))
  }

  /** The entry of event `j` once `n` events were read. */
  function EntryAt(events: seq<Event>, origin: Option<int>, n: nat, j: nat): Entry
    requires n <= |events| && j < |events|
  {
    EntryOf(events, origin, j, Closer(events, n, j))
  }

  /** The fields an end writes into the open span of its clip. */
  function CloseSpan(span: Entry, end: Event, origin: Option<int>): Entry {
    var endMs := RelativeMs(end, origin);
    span.(endMs := endMs, endKind := Some(end.kind), played := end.played,
          durationMs := if span.tMs.Some? && endMs.Some? then Some(endMs.value - span.tMs.value) else span.durationMs,
          interruptReason := if end.kind == ClipInterrupted then end.reason else span.interruptReason)
  }

  lemma NextEntries(events: seq<Event>, origin: Option<int>, n: nat)
    requires n < |events| && !Closes(events, n)
    ensures Entries(events, origin, n + 1) == Entries(events, origin, n) + [EntryOf(events, origin, n, None)]
  {
    hide Closes, EntryOf;
    var own := Own(events, n);
    assert Own(events, n + 1) == own + [n];
    forall a | 0 <= a < |own| ensures EntryAt(events, origin, n + 1, own[a]) == EntryAt(events, origin, n, own[a]) {
    }
    assert Closer(events, n + 1, n) == None;
  }

  lemma ClosedEntries(events: seq<Event>, origin: Option<int>, n: nat, at: nat)
    requires n < |events| && Closes(events, n)
    requires at < |Own(events, n)| && Own(events, n)[at] == ClosedBy(events, n)
    ensures var before := Entries(events, origin, n);
      Entries(events, origin, n + 1) == before[at := CloseSpan(before[at], events[n], origin)]
  {
    var own := Own(events, n);
    OwnAscends(events, n);
    ClosedEntry(events, origin, n);
    hide Closes, EntryOf, CloseSpan, ClosedBy;
    assert Own(events, n + 1) == own;
    forall a | 0 <= a < |own| && a != at
      ensures EntryAt(events, origin, n + 1, own[a]) == EntryAt(events, origin, n, own[a])
    {
      assert own[a] != own[at];
    }
  }

  lemma ClosedEntry(events: seq<Event>, origin: Option<int>, n: nat)
    requires n < |events| && Closes(events, n)
    ensures var j := ClosedBy(events, n);
      EntryAt(events, origin, n + 1, j) == CloseSpan(EntryAt(events, origin, n, j), events[n], origin)
  {
    OpenMeansUnclosed(events, n, events[n].clip);
  }

  /** One clip's open span: its place in the entries is the place of its last start. */
  predicate SpanFits(events: seq<Event>, n: nat, open: map<string, nat>, clip: string)
    requires n <= |events|
  {
    && (clip in open <==> clip != "" && OpenAt(events, n, clip))
    && (clip in open ==>
          open[clip] < |Own(events, n)| && Some(Own(events, n)[open[clip]]) == LastClipEvent(events, n, clip))
  }

  ghost predicate SpansFit(events: seq<Event>, n: nat, open: map<string, nat>)
    requires n <= |events|
  {
    forall clip: string :: SpanFits(events, n, open, clip)
  }

  lemma SpanMoves(events: seq<Event>, n: nat, before: map<string, nat>, after: map<string, nat>, clip: string)
    requires n < |events| && SpanFits(events, n, before, clip)
    requires after ==
      if Starts(events[n]) && events[n].clip != "" then before[events[n].clip := |Own(events, n)|]
      else if Ends(events[n]) then before - {events[n].clip}
      else before
    ensures SpanFits(events, n + 1, after, clip)
  {
    assert Own(events, n) <= Own(events, n + 1);
  }

  lemma OpenMeansCloses(events: seq<Event>, n: nat, open: map<string, nat>)
    requires n < |events| && SpanFits(events, n, open, events[n].clip) && Ends(events[n])
    ensures Closes(events, n) <==> events[n].clip in open
    ensures Closes(events, n) ==>
      open[events[n].clip] < |Own(events, n)| && Own(events, n)[open[events[n].clip]] == ClosedBy(events, n)
  {
  }

  /** The body of the loop of `_build_entries`. */
  method FoldEvent(events: seq<Event>, origin: Option<int>, n: nat, entries: seq<Entry>, open: map<string, nat>)
    returns (after: seq<Entry>, stillOpen: map<string, nat>)
    requires n < |events| && entries == Entries(events, origin, n) && SpansFit(events, n, open)
    ensures after == Entries(events, origin, n + 1) && SpansFit(events, n + 1, stillOpen)
  {
    var event := events[n];
    var t := RelativeMs(event, origin);
    var entry := Entry(n, event.kind, event.clip, t, event.sequence, event.source, false, None, None, None, None, None);
    stillOpen := open;
    assert SpanFits(events, n, open, event.clip);
    if Ends(event) {
      OpenMeansCloses(events, n, open);
    }
    if Ends(event) && event.clip != "" && event.clip in open {
      var at := open[event.clip];
      ClosedEntries(events, origin, n, at);
      after := entries[at := CloseSpan(entries[at], event, origin)];
      stillOpen := open - {event.clip};
    } else {
      NextEntries(events, origin, n);
      if Starts(event) {
        after := entries + [entry.(started := true)];
        if event.clip != "" {
          stillOpen := open[event.clip := |entries|];
        }
      } else if Ends(event) {
        after := entries + [entry.(endMs := t, endKind := Some(event.kind), played := event.played)];
        stillOpen := open - {event.clip};
      } else {
        after := entries + [entry];
      }
    }
    var next := n + 1;
    forall clip: string ensures SpanFits(events, next, stillOpen, clip) {
      assert SpanFits(events, n, open, clip);
      SpanMoves(events, n, open, stillOpen, clip);
    }
  }

  /** The loop of `_build_entries`. */
  method FoldEvents(events: seq<Event>, origin: Option<int>) returns (entries: seq<Entry>)
    ensures entries == Entries(events, origin, |events|)
  {
    entries := [];
    var open: map<string, nat> := map[];
    for n := 0 to |events|
      invariant entries == Entries(events, origin, n)
      invariant SpansFit(events, n, open)
    {
      entries, open := FoldEvent(events, origin, n, entries, open);
    }
  }

  // ------------------------------------------------------------ the order of the result

  function SourceRank(s: Source): int {
    match s
    case Server => 0
    case Student => 1
    case Wizard => 2
  }

  /** The sort key `(t_ms is None, t_ms or 0, sequence, source)`. */
  predicate Before(a: Entry, b: Entry) {
    if a.tMs.None? != b.tMs.None? then b.tMs.None?
    else if a.tMs.Some? && a.tMs.value != b.tMs.value then a.tMs.value < b.tMs.value
    else if a.sequence != b.sequence then a.sequence < b.sequence
    else SourceRank(a.source) < SourceRank(b.source)
  }

  /** `_build_entries` */
  method BuildEntries(events: seq<Event>, origin: Option<int>) returns (entries: seq<Entry>)
    ensures multiset(entries) == multiset(Entries(events, origin, |events|))
    ensures Ascending(entries, Before)
  {
    entries := FoldEvents(events, origin);
    SortedSorts(entries, Before);
    SortedContents(entries, Before);
    entries := Sorted(entries, Before);
  }

  predicate HasEntry(entries: seq<Entry>, i: nat) {
    exists a :: 0 <= a < |entries| && entries[a].event == i
  }

  /** The span of start `j` carries the end `end`. */
  predicate SpanEndsWith(entries: seq<Entry>, j: nat, end: Event, origin: Option<int>) {
    exists a :: 0 <= a < |entries| && entries[a].event == j && ShowsEnd(entries[a], end, origin)
  }

  predicate ShowsEnd(entry: Entry, end: Event, origin: Option<int>) {
    && entry.started && entry.endMs == RelativeMs(end, origin) && entry.endKind == Some(end.kind)
    && entry.played == end.played
    && (entry.tMs.Some? && entry.endMs.Some? ==> entry.durationMs == Some(entry.endMs.value - entry.tMs.value))
  }

  /** Every event yields its own entry, or closes exactly one earlier start, whose entry then carries its end. */
  lemma EveryEventIsShown(events: seq<Event>, origin: Option<int>, i: nat)
    requires i < |events|
    ensures var entries := Entries(events, origin, |events|);
      && (HasEntry(entries, i) <==> !Closes(events, i))
      && (Closes(events, i) ==> SpanEndsWith(entries, ClosedBy(events, i), events[i], origin))
  {
    var entries, own := Entries(events, origin, |events|), Own(events, |events|);
    OwnIsComplete(events, |events|, i);
    if Closes(events, i) {
      ClosedSpanIsShown(events, origin, i);
    } else {
      var a :| 0 <= a < |own| && own[a] == i;
      assert entries[a].event == i;
    }
  }

  lemma ClosedSpanIsShown(events: seq<Event>, origin: Option<int>, i: nat)
    requires i < |events| && Closes(events, i)
    ensures SpanEndsWith(Entries(events, origin, |events|), ClosedBy(events, i), events[i], origin)
  {
    var entries, own, j := Entries(events, origin, |events|), Own(events, |events|), ClosedBy(events, i);
    StartsHaveEntries(events, j);
    var a :| 0 <= a < |own| && own[a] == j;
    CloserIsFound(events, |events|, i);
    assert entries[a] == EntryOf(events, origin, j, Some(i));
    assert ShowsEnd(entries[a], events[i], origin);
  }

  lemma StartsHaveEntries(events: seq<Event>, j: nat)
    requires j < |events| && Starts(events[j])
    ensures exists a :: 0 <= a < |Own(events, |events|)| && Own(events, |events|)[a] == j
  {
    OwnIsComplete(events, |events|, j);
  }

  predicate LastIsStart(events: seq<Event>, i: nat, j: nat)
    requires j < i < |events|
  {
    && Starts(events[j]) && events[j].clip == events[i].clip
    && forall k :: j < k < i ==> !IsClipEvent(events[k], events[i].clip)
  }

  /** An end closes a span exactly when the last start or end of its clip before it is a start. */
  lemma ClosesExactly(events: seq<Event>, i: nat)
    requires i < |events|
    ensures Closes(events, i) <==>
      Ends(events[i]) && events[i].clip != "" && exists j: nat :: j < i && LastIsStart(events, i, j)
  {
    if Closes(events, i) {
      assert LastIsStart(events, i, ClosedBy(events, i));
    }
    if exists j: nat :: j < i && LastIsStart(events, i, j) {
      var j: nat :| j < i && LastIsStart(events, i, j);
      assert IsClipEvent(events[j], events[i].clip);
      assert LastClipEvent(events, i, events[i].clip) == Some(j);
    }
  }
}

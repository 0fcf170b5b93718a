/** The clock offset filter (server/app/websocket.py), with the formulas of section 8 of RFC 5905. */
module ClockOffset {
  import opened Common
  import opened Sorting

  /** Client send, server receive, server send, client receive, in milliseconds of the side that read them. */
  datatype Sample = Sample(t0: int, s1: int, s2: int, t3: int)

  datatype Scored = Scored(rtt: int, offset: real)

  function Score(s: Sample): Scored {
    Scored((s.t3 - s.t0) - (s.s2 - s.s1), ((s.s1 - s.t0) + (s.s2 - s.t3)) as real / 2.0)
  }

  function Scores(samples: seq<Sample>): (r: seq<Scored>)
    ensures |r| == |samples| && forall i :: 0 <= i < |r| ==> r[i] == Score(samples[i])
  {
    seq(|samples|, i requires 0 <= i < |samples| => Score(samples[i]))
  }

  predicate Faster(a: Scored, b: Scored) {
    a.rtt < b.rtt
  }

  predicate Smaller(a: real, b: real) {
    a < b
  }

  // ------------------------------------------------------------ the filter

  function Offsets(s: seq<Scored>): (r: seq<real>)
    ensures |r| == |s| && forall i :: 0 <= i < |r| ==> r[i] == s[i].offset
  {
    seq(|s|, i requires 0 <= i < |s| => s[i].offset)
  }

  function Least(a: nat, b: nat): nat {
    if a < b then a else b
  }

  /** The offsets of the samples with the lowest round trips. */
  function Kept(samples: seq<Sample>, keep: nat): (r: seq<real>)
    ensures |r| == Least(keep, |samples|)
  {
    SortedSorts(Scores(samples), Faster);
    SortedContents(Scores(samples), Faster);
    Offsets(Sorted(Scores(samples), Faster)[..Least(keep, |samples|)])
  }

  function Median(offsets: seq<real>): real
    requires offsets != []
  {
    SortedSorts(offsets, Smaller);
    SortedContents(offsets, Smaller);
    var s := Sorted(offsets, Smaller);
    var mid := |s| / 2;
    if |s| % 2 == 1 then s[mid] else (s[mid - 1] + s[mid]) / 2.0
  }

  /** The loop that scores the samples. */
  method ScoreAll(samples: seq<Sample>) returns (scored: seq<Scored>)
    ensures scored == Scores(samples)
  {
    scored := [];
    for i := 0 to |samples|
      invariant scored == Scores(samples[..i])
    {
      assert samples[..i + 1][..i] == samples[..i];
      var sample := samples[i];
      var rtt := (sample.t3 - sample.t0) - (sample.s2 - sample.s1);
      var offset := ((sample.s1 - sample.t0) + (sample.s2 - sample.t3)) as real / 2.0;
      scored := scored + [Scored(rtt, offset)];
    }
    assert samples[..|samples|] == samples;
  }

  /** `compute_offset_median`. Without a sample to keep there is no median. */
  method ComputeOffsetMedian(samples: seq<Sample>, keep: nat) returns (offset: Option<real>)
    ensures offset.None? <==> samples == [] || keep == 0
    ensures offset.Some? ==> offset.value == Median(Kept(samples, keep))
  {
    hide Sorted, Scores, Score;
    var scored := ScoreAll(samples);
    SortedContents(scored, Faster);
    var byRtt := Sorted(scored, Faster);
    var kept := Offsets(byRtt[..Least(keep, |byRtt|)]);
    SortedContents(kept, Smaller);
    var offsets := Sorted(kept, Smaller);
    if offsets == [] {
      return None;
    }
    var mid := |offsets| / 2;
    offset := Some(if |offsets| % 2 == 1 then offsets[mid] else (offsets[mid - 1] + offsets[mid]) / 2.0);
  }

  // ------------------------------------------------------------ the error bound

  function Distance(a: real, b: real): (d: real)
    ensures d >= 0.0
  {
    if a < b then b - a else a - b
  }

  /** The server's clock is ahead by `theta`, and neither one-way delay is negative. */
  predicate DelaysFit(s: Sample, theta: real) {
    (s.s1 - s.t0) as real - theta >= 0.0 && (s.t3 - s.s2) as real + theta >= 0.0
  }

  ghost predicate ClocksDifferBy(samples: seq<Sample>, theta: real) {
    forall i :: 0 <= i < |samples| ==> DelaysFit(samples[i], theta)
  }

  /** One sample is off by half its round trip at most. */
  lemma SampleError(s: Sample, theta: real)
    requires DelaysFit(s, theta)
    ensures Distance(Score(s).offset, theta) <= Score(s).rtt as real / 2.0
  {
  }

  /** The `k`-th smallest round trip. */
  function KthRtt(samples: seq<Sample>, k: nat): int
    requires 1 <= k <= |samples|
  {
    SortedSorts(Scores(samples), Faster);
    SortedContents(Scores(samples), Faster);
    Sorted(Scores(samples), Faster)[k - 1].rtt
  }

  /** That is: the kept samples have it at most, the dropped ones at least, and none is lost. */
  lemma KeptAreLowest(samples: seq<Sample>, k: nat)
    requires 1 <= k <= |samples|
    ensures var s := Sorted(Scores(samples), Faster);
      && |s| == |samples|
      && multiset(s[..k]) + multiset(s[k..]) == multiset(Scores(samples))
      && (forall i :: 0 <= i < k ==> s[i].rtt <= KthRtt(samples, k))
      && (forall i :: k <= i < |s| ==> s[i].rtt >= KthRtt(samples, k))
  {
    hide Sorted, Scores, Score;
    SortedSorts(Scores(samples), Faster);
    SortedContents(Scores(samples), Faster);
    var s := Sorted(Scores(samples), Faster);
    assert s == s[..k] + s[k..];
    PrefixIsLowest(s, k);
  }

  lemma PrefixIsLowest(s: seq<Scored>, k: nat)
    requires Ascending(s, Faster) && 1 <= k <= |s|
    ensures forall i :: 0 <= i < k ==> s[i].rtt <= s[k - 1].rtt
    ensures forall i :: k <= i < |s| ==> s[i].rtt >= s[k - 1].rtt
  {
    forall i | 0 <= i < k - 1 ensures s[i].rtt <= s[k - 1].rtt {
      assert !Faster(s[k - 1], s[i]);
    }
    forall i | k <= i < |s| ensures s[i].rtt >= s[k - 1].rtt {
      assert !Faster(s[i], s[k - 1]);
    }
  }

  predicate Within(x: real, theta: real, e: real) {
    Distance(x, theta) <= e
  }

  /** If every offset is within `e` of `theta`, so is their median. */
  lemma MedianStaysWithin(offsets: seq<real>, theta: real, e: real)
    requires offsets != [] && forall i :: 0 <= i < |offsets| ==> Within(offsets[i], theta, e)
    ensures Within(Median(offsets), theta, e)
  {
    SortedSorts(offsets, Smaller);
    SortedContents(offsets, Smaller);
    var s := Sorted(offsets, Smaller);
    forall i | 0 <= i < |s| ensures Within(s[i], theta, e) {
      SortedMembers(offsets, Smaller, i);
    }
    var mid := |s| / 2;
    assert Within(s[mid], theta, e);
    if |s| % 2 == 0 {
      assert Within(s[mid - 1], theta, e);
    }
  }

  lemma KeptIsWithin(samples: seq<Sample>, keep: nat, theta: real, i: nat)
    requires samples != [] && keep >= 1 && ClocksDifferBy(samples, theta) && i < Least(keep, |samples|)
    ensures Within(Kept(samples, keep)[i], theta, KthRtt(samples, Least(keep, |samples|)) as real / 2.0)
  {
    var scored := Scores(samples);
    SortedSorts(scored, Faster);
    SortedContents(scored, Faster);
    var byRtt := Sorted(scored, Faster);
    SortedMembers(scored, Faster, i);
    var j :| 0 <= j < |scored| && scored[j] == byRtt[i];
    SampleError(samples[j], theta);
    var last := Least(keep, |samples|) - 1;
    assert i == last || !Faster(byRtt[last], byRtt[i]);
  }

  /** With non-negative one-way delays the result is off by half the k-th smallest round trip at most. */
  lemma ErrorBound(samples: seq<Sample>, keep: nat, theta: real)
    requires samples != [] && keep >= 1 && ClocksDifferBy(samples, theta)
    ensures Distance(Median(Kept(samples, keep)), theta)
      <= KthRtt(samples, Least(keep, |samples|)) as real / 2.0
  {
    var bound := KthRtt(samples, Least(keep, |samples|)) as real / 2.0;
    var kept := Kept(samples, keep);
    forall i | 0 <= i < |kept| ensures Within(kept[i], theta, bound) {
      KeptIsWithin(samples, keep, theta, i);
    }
    hide Kept, KthRtt, Median;
    MedianStaysWithin(kept, theta, bound);
  }

  /** No smaller bound holds: when all the delay is on one leg the error is exactly half the round trip. */
  lemma BoundIsTight(t0: int, rtt: nat, theta: int)
    ensures var s := Sample(t0, t0 + rtt + theta, t0 + rtt + theta, t0 + rtt);
      && ClocksDifferBy([s], theta as real)
      && Distance(Median(Kept([s], 1)), theta as real) == KthRtt([s], 1) as real / 2.0
      && KthRtt([s], 1) == rtt
  {
    var s := Sample(t0, t0 + rtt + theta, t0 + rtt + theta, t0 + rtt);
    assert Scores([s]) == [Score(s)];
    assert Sorted([Score(s)], Faster) == [Score(s)] by {
      assert [Score(s)][..0] == [];
    }
    var off := Score(s).offset;
    assert Kept([s], 1) == [off];
    assert Sorted([off], Smaller) == [off] by {
      assert [off][..0] == [];
    }
  }

  // ------------------------------------------------------------ what `k`-th smallest and median mean

  /** How many values lie in the closed range. */
  function CountIn(s: seq<real>, lo: real, hi: real): (n: nat)
    ensures n <= |s|
  {
    if s == [] then 0
    else CountIn(s[..|s| - 1], lo, hi) + if lo <= s[|s| - 1] <= hi then 1 else 0
  }

  lemma {:induction false} CountSplits(a: seq<real>, b: seq<real>, lo: real, hi: real)
    ensures CountIn(a + b, lo, hi) == CountIn(a, lo, hi) + CountIn(b, lo, hi)
  {
    if b == [] {
      assert a + b == a;
    } else {
      CountSplits(a, b[..|b| - 1], lo, hi);
      assert (a + b)[..|a + b| - 1] == a + b[..|b| - 1];
    }
  }

  lemma {:induction false} CountInsert(s: seq<real>, x: real, lo: real, hi: real)
    ensures CountIn(Insert(s, x, Smaller), lo, hi) == CountIn(s, lo, hi) + if lo <= x <= hi then 1 else 0
  {
    CountSplits([x], s, lo, hi);
    if s != [] && !Smaller(x, s[0]) {
      CountInsert(s[1..], x, lo, hi);
      CountSplits([s[0]], s[1..], lo, hi);
      CountSplits([s[0]], Insert(s[1..], x, Smaller), lo, hi);
      assert s == [s[0]] + s[1..];
    }
    assert CountIn([x], lo, hi) == if lo <= x <= hi then 1 else 0 by {
      assert [x][..0] == [];
    }
  }

  lemma {:induction false} CountSorted(s: seq<real>, lo: real, hi: real)
    ensures CountIn(Sorted(s, Smaller), lo, hi) == CountIn(s, lo, hi)
  {
    if s != [] {
      CountSorted(s[..|s| - 1], lo, hi);
      CountInsert(Sorted(s[..|s| - 1], Smaller), s[|s| - 1], lo, hi);
    }
  }

  lemma {:induction false} NoneIn(s: seq<real>, lo: real, hi: real)
    requires forall i :: 0 <= i < |s| ==> !(lo <= s[i] <= hi)
    ensures CountIn(s, lo, hi) == 0
  {
    if s != [] {
      NoneIn(s[..|s| - 1], lo, hi);
    }
  }

  /**
   * Why the median: when more than half of the kept offsets lie within `e` of the true offset, so does
   * the result, however wrong the rest are.
   */
  lemma MajorityBoundsTheMedian(offsets: seq<real>, theta: real, e: real)
    requires offsets != [] && 2 * CountIn(offsets, theta - e, theta + e) > |offsets|
    ensures Distance(Median(offsets), theta) <= e
  {
    hide CountIn, Sorted;
    SortedSorts(offsets, Smaller);
    SortedContents(offsets, Smaller);
    var lo, hi := theta - e, theta + e;
    var s := Sorted(offsets, Smaller);
    CountSorted(offsets, lo, hi);
    var mid := |s| / 2;
    MiddleIn(s, mid, lo, hi);
    if |s| % 2 == 0 {
      MiddleIn(s, mid - 1, lo, hi);
    }
  }

  predicate AllOutside(s: seq<real>, lo: real, hi: real) {
    forall i :: 0 <= i < |s| ==> s[i] < lo || hi < s[i]
  }

  /** A place with half of an ascending run on either side is inside any range that holds most of the run. */
  lemma MiddleIn(s: seq<real>, m: nat, lo: real, hi: real)
    requires Ascending(s, Smaller) && m < |s| && 2 * CountIn(s, lo, hi) > |s|
    requires 2 * m <= |s| <= 2 * m + 2
    ensures lo <= s[m] <= hi
  {
    if s[m] > hi {
      assert AllOutside(s[m..], lo, hi) by {
        var right := s[m..];
        forall i | 0 <= i < |right| ensures hi < right[i] {
          InOrder(s, m, m + i);
        }
      }
      Outsiders(s, m, lo, hi);
    } else if s[m] < lo {
      assert AllOutside(s[..m + 1], lo, hi) by {
        var left := s[..m + 1];
        forall i | 0 <= i < |left| ensures left[i] < lo {
          InOrder(s, i, m);
        }
      }
      Outsiders(s, m + 1, lo, hi);
    }
  }

  lemma InOrder(s: seq<real>, i: nat, j: nat)
    requires Ascending(s, Smaller) && i <= j < |s|
    ensures s[i] <= s[j]
  {
    assert i == j || !Smaller(s[j], s[i]);
  }

  /** When one side of a cut lies outside the range, the other side is at least as long as the count. */
  lemma Outsiders(s: seq<real>, cut: nat, lo: real, hi: real)
    requires cut <= |s|
    ensures AllOutside(s[cut..], lo, hi) ==> CountIn(s, lo, hi) <= cut
    ensures AllOutside(s[..cut], lo, hi) ==> CountIn(s, lo, hi) <= |s| - cut
  {
    assert s == s[..cut] + s[cut..];
    CountSplits(s[..cut], s[cut..], lo, hi);
    if AllOutside(s[cut..], lo, hi) {
      NoneIn(s[cut..], lo, hi);
    }
    if AllOutside(s[..cut], lo, hi) {
      NoneIn(s[..cut], lo, hi);
    }
  }
}

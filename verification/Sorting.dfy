/** Stable insertion sort, standing for Python's `sorted` and `list.sort`. */
module Sorting {
  /** A strict weak order. */
  ghost predicate IsOrder<T(!new)>(less: (T, T) -> bool) {
    && (forall a, b :: less(a, b) ==> !less(b, a))
    && (forall a, b, c :: !less(b, a) && !less(c, b) ==> !less(c, a))
  }

  predicate Ascending<T>(s: seq<T>, less: (T, T) -> bool) {
    forall i, j :: 0 <= i < j < |s| ==> !less(s[j], s[i])
  }

  /** An element goes after every earlier one it ties with. */
  function Insert<T>(s: seq<T>, x: T, less: (T, T) -> bool): seq<T> {
    if s == [] || less(x, s[0]) then [x] + s else [s[0]] + Insert(s[1..], x, less)
  }

  function Sorted<T>(s: seq<T>, less: (T, T) -> bool): seq<T> {
    if s == [] then [] else Insert(Sorted(s[..|s| - 1], less), s[|s| - 1], less)
  }

  lemma {:induction false} InsertContents<T>(s: seq<T>, x: T, less: (T, T) -> bool)
    ensures multiset(Insert(s, x, less)) == multiset(s) + multiset{x}
  {
    if s != [] {
      InsertContents(s[1..], x, less);
      assert s == [s[0]] + s[1..];
    }
  }

  predicate NoneLess<T>(s: seq<T>, bound: T, less: (T, T) -> bool) {
    forall i :: 0 <= i < |s| ==> !less(s[i], bound)
  }

  lemma {:induction false} InsertNoneLess<T>(s: seq<T>, x: T, bound: T, less: (T, T) -> bool)
    requires NoneLess(s, bound, less) && !less(x, bound)
    ensures NoneLess(Insert(s, x, less), bound, less)
  {
    if s != [] && !less(x, s[0]) {
      InsertNoneLess(s[1..], x, bound, less);
    }
  }

  lemma {:induction false} InsertSorts<T(!new)>(s: seq<T>, x: T, less: (T, T) -> bool)
    requires IsOrder(less) && Ascending(s, less)
    ensures Ascending(Insert(s, x, less), less)
  {
    if s != [] && !less(x, s[0]) {
      InsertSorts(s[1..], x, less);
      InsertNoneLess(s[1..], x, s[0], less);
    }
  }

  lemma {:induction false} SortedSorts<T(!new)>(s: seq<T>, less: (T, T) -> bool)
    requires IsOrder(less)
    ensures Ascending(Sorted(s, less), less)
  {
    if s != [] {
      SortedSorts(s[..|s| - 1], less);
      InsertSorts(Sorted(s[..|s| - 1], less), s[|s| - 1], less);
    }
  }

  lemma {:induction false} SortedContents<T>(s: seq<T>, less: (T, T) -> bool)
    ensures multiset(Sorted(s, less)) == multiset(s)
    ensures |Sorted(s, less)| == |s|
  {
    if s != [] {
      var front, last := s[..|s| - 1], s[|s| - 1];
      SortedContents(front, less);
      InsertContents(Sorted(front, less), last, less);
      assert s == front + [last];
      assert |multiset(Sorted(s, less))| == |multiset(s)|;
    }
  }

  /** Sorting loses and invents nothing. */
  lemma SortedMembers<T>(s: seq<T>, less: (T, T) -> bool, i: nat)
    requires i < |Sorted(s, less)|
    ensures Sorted(s, less)[i] in s
  {
    SortedContents(s, less);
    assert Sorted(s, less)[i] in multiset(Sorted(s, less));
  }
}

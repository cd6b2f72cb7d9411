/** `[...rows].sort(compare)`: the engine's sort is stable, and for a comparator that obeys
    the laws below every stable sort returns the same sequence.  The model computes it by
    stable insertion: each element, taken left to right, goes in front of the first element
    it compares strictly below. */
module Sorting {

  /** The laws a consistent comparator obeys: swapping the arguments negates the result,
      and "not after" (a result of at most 0) is transitive. */
  ghost predicate IsComparator<T(!new)>(cmp: (T, T) -> real)
  {
    && (forall a, b :: cmp(a, b) == -cmp(b, a))
    && (forall a, b, c :: cmp(a, b) <= 0.0 && cmp(b, c) <= 0.0 ==> cmp(a, c) <= 0.0)
  }

  /** No element is placed after one that should follow it. */
  ghost predicate Sorted<T>(s: seq<T>, cmp: (T, T) -> real)
  {
    forall i, j :: 0 <= i < j < |s| ==> cmp(s[i], s[j]) <= 0.0
  }

  function Insert<T>(s: seq<T>, x: T, cmp: (T, T) -> real): (r: seq<T>)
    ensures |r| == |s| + 1
    ensures multiset(r) == multiset(s) + multiset{x}
  {
    if s == [] then [x]
    else if cmp(x, s[0]) < 0.0 then [x] + s
    else
      assert s == [s[0]] + s[1..];
      [s[0]] + Insert(s[1..], x, cmp)
  }

  /** The rows in the order the sort leaves them; always a permutation of the input. */
  function SortBy<T>(s: seq<T>, cmp: (T, T) -> real): (r: seq<T>)
    ensures |r| == |s|
    ensures multiset(r) == multiset(s)
  {
    if s == [] then []
    else
      assert s == s[..|s| - 1] + [s[|s| - 1]];
      Insert(SortBy(s[..|s| - 1], cmp), s[|s| - 1], cmp)
  }

  /** `a` may precede every element of `s`. */
  ghost predicate NotAfterAll<T>(a: T, s: seq<T>, cmp: (T, T) -> real)
  {
    forall j :: 0 <= j < |s| ==> cmp(a, s[j]) <= 0.0
  }

  lemma {:induction false} InsertNotAfterAll<T>(a: T, s: seq<T>, x: T, cmp: (T, T) -> real)
    requires NotAfterAll(a, s, cmp) && cmp(a, x) <= 0.0
    ensures NotAfterAll(a, Insert(s, x, cmp), cmp)
  {
    if s != [] && cmp(x, s[0]) >= 0.0 {
      assert NotAfterAll(a, s[1..], cmp) by {
        forall j | 0 <= j < |s[1..]| ensures cmp(a, s[1..][j]) <= 0.0 {
          assert s[1..][j] == s[j + 1];
        }
      }
      InsertNotAfterAll(a, s[1..], x, cmp);
    }
  }

  lemma ConsSorted<T>(a: T, s: seq<T>, cmp: (T, T) -> real)
    requires NotAfterAll(a, s, cmp) && Sorted(s, cmp)
    ensures Sorted([a] + s, cmp)
  {
    var r := [a] + s;
    forall i, j | 0 <= i < j < |r| ensures cmp(r[i], r[j]) <= 0.0 {
      if i == 0 {
        assert r[j] == s[j - 1];
      } else {
        assert r[i] == s[i - 1] && r[j] == s[j - 1];
      }
    }
  }

  lemma {:induction false} InsertSorted<T(!new)>(s: seq<T>, x: T, cmp: (T, T) -> real)
    requires IsComparator(cmp)
    requires Sorted(s, cmp)
    ensures Sorted(Insert(s, x, cmp), cmp)
  {
    if s == [] {
    } else if cmp(x, s[0]) < 0.0 {
      assert NotAfterAll(x, s, cmp) by {
        forall j | 0 <= j < |s| ensures cmp(x, s[j]) <= 0.0 {
          if j > 0 {
            assert cmp(s[0], s[j]) <= 0.0;
          }
        }
      }
      ConsSorted(x, s, cmp);
    } else {
      assert Sorted(s[1..], cmp) by {
        forall i, j | 0 <= i < j < |s[1..]| ensures cmp(s[1..][i], s[1..][j]) <= 0.0 {
          assert s[1..][i] == s[i + 1] && s[1..][j] == s[j + 1];
        }
      }
      assert NotAfterAll(s[0], s[1..], cmp) by {
        forall j | 0 <= j < |s[1..]| ensures cmp(s[0], s[1..][j]) <= 0.0 {
          assert s[1..][j] == s[j + 1];
        }
      }
      assert cmp(s[0], x) <= 0.0 by {
        assert cmp(s[0], x) == -cmp(x, s[0]);
      }
      InsertSorted(s[1..], x, cmp);
      InsertNotAfterAll(s[0], s[1..], x, cmp);
      ConsSorted(s[0], Insert(s[1..], x, cmp), cmp);
    }
  }

  /** For a consistent comparator the result is sorted. */
  lemma {:induction false} SortBySorted<T(!new)>(s: seq<T>, cmp: (T, T) -> real)
    requires IsComparator(cmp)
    ensures Sorted(SortBy(s, cmp), cmp)
  {
    if s != [] {
      SortBySorted(s[..|s| - 1], cmp);
      InsertSorted(SortBy(s[..|s| - 1], cmp), s[|s| - 1], cmp);
    }
  }

  lemma {:induction false} InsertAllEqual<T>(s: seq<T>, x: T, cmp: (T, T) -> real)
    requires forall a, b :: cmp(a, b) == 0.0
    ensures Insert(s, x, cmp) == s + [x]
  {
    if s != [] {
      InsertAllEqual(s[1..], x, cmp);
      assert s == [s[0]] + s[1..];
    }
  }

  /** A comparator that calls every pair equal leaves the order as it was. */
  lemma {:induction false} SortByAllEqual<T>(s: seq<T>, cmp: (T, T) -> real)
    requires forall a, b :: cmp(a, b) == 0.0
    ensures SortBy(s, cmp) == s
  {
    if s != [] {
      SortByAllEqual(s[..|s| - 1], cmp);
      InsertAllEqual(s[..|s| - 1], s[|s| - 1], cmp);
      assert s == s[..|s| - 1] + [s[|s| - 1]];
    }
  }
}

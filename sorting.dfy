// Python's `sorted(...)` of a set under a strict total order, as a function.
module Sorting {
  /** `less` is a strict total order on the elements of `s`. */
  ghost predicate StrictTotalOn<T>(s: set<T>, less: (T, T) -> bool)
  {
    (forall a | a in s :: !less(a, a)) &&
    (forall a, b, c | a in s && b in s && c in s :: less(a, b) && less(b, c) ==> less(a, c)) &&
    (forall a, b | a in s && b in s :: a != b ==> less(a, b) || less(b, a))
  }

  /** Every element is smaller than every element after it (so there are no repeats). */
  ghost predicate SortedBy<T>(r: seq<T>, less: (T, T) -> bool)
  {
    forall i, j :: 0 <= i < j < |r| ==> less(r[i], r[j])
  }

  predicate IsLeast<T(==)>(m: T, s: set<T>, less: (T, T) -> bool)
  {
    m in s && forall y | y in s :: y == m || less(m, y)
  }

  lemma {:induction false} LeastExists<T>(s: set<T>, less: (T, T) -> bool)
    requires s != {} && StrictTotalOn(s, less)
    ensures exists m :: IsLeast(m, s, less)
    decreases |s|
  {
    var x :| x in s;
    if s != {x} {
      LeastExists(s - {x}, less);
      var m :| IsLeast(m, s - {x}, less);
      if less(x, m) {
        assert IsLeast(x, s, less);
      } else {
        assert IsLeast(m, s, less);
      }
    } else {
      assert IsLeast(x, s, less);
    }
  }

  lemma LeastUnique<T>(s: set<T>, less: (T, T) -> bool)
    requires StrictTotalOn(s, less)
    ensures forall m1, m2 :: IsLeast(m1, s, less) && IsLeast(m2, s, less) ==> m1 == m2
  {
  }

  /** The elements of `s` in increasing order. */
  function SortSet<T(==,!new)>(s: set<T>, less: (T, T) -> bool): (r: seq<T>)
    requires StrictTotalOn(s, less)
    ensures |r| == |s|
    ensures forall x :: x in r <==> x in s
    decreases |s|
  {
    if s == {} then []
    else
      LeastExists(s, less);
      LeastUnique(s, less);
      var m :| IsLeast(m, s, less);
      [m] + SortSet(s - {m}, less)
  }

  lemma StrictTotalSub<T>(s: set<T>, t: set<T>, less: (T, T) -> bool)
    requires t <= s && StrictTotalOn(s, less)
    ensures StrictTotalOn(t, less)
  {
  }

  /** An element below everything in an increasing listing can go in front of it. */
  lemma ConsSorted<T>(m: T, rest: seq<T>, less: (T, T) -> bool)
    requires SortedBy(rest, less)
    requires forall k | 0 <= k < |rest| :: less(m, rest[k])
    ensures SortedBy([m] + rest, less)
  {
    forall i, j | 0 <= i < j < |[m] + rest| ensures less(([m] + rest)[i], ([m] + rest)[j]) {
      assert ([m] + rest)[j] == rest[j - 1];
      if i > 0 {
        assert ([m] + rest)[i] == rest[i - 1];
      }
    }
  }

  /** The listing `SortSet` produces is increasing. */
  lemma {:induction false} SortSetSorted<T(!new)>(s: set<T>, less: (T, T) -> bool)
    requires StrictTotalOn(s, less)
    ensures SortedBy(SortSet(s, less), less)
    decreases |s|
  {
    if s != {} {
      LeastExists(s, less);
      LeastUnique(s, less);
      var m :| IsLeast(m, s, less);
      StrictTotalSub(s, s - {m}, less);
      var rest := SortSet(s - {m}, less);
      assert SortSet(s, less) == [m] + rest;
      SortSetSorted(s - {m}, less);
      forall k | 0 <= k < |rest| ensures less(m, rest[k]) {
        assert rest[k] in s - {m};
      }
      ConsSorted(m, rest, less);
    }
  }

  /** `r` lists exactly the elements of `s`, in increasing order. */
  ghost predicate SortedListing<T(!new)>(r: seq<T>, s: set<T>, less: (T, T) -> bool)
  {
    (forall x :: x in r <==> x in s) && SortedBy(r, less)
  }

  lemma ListingHead<T(!new)>(r: seq<T>, s: set<T>, less: (T, T) -> bool)
    requires StrictTotalOn(s, less) && SortedListing(r, s, less) && s != {}
    ensures r != [] && IsLeast(r[0], s, less)
    ensures SortedListing(r[1..], s - {r[0]}, less)
  {
    assert r != [] by { var x :| x in s; assert x in r; }
    forall y | y in s ensures y == r[0] || less(r[0], y) {
      var j :| 0 <= j < |r| && r[j] == y;
      if j > 0 { assert less(r[0], r[j]); }
    }
    forall x ensures x in r[1..] <==> x in s - {r[0]} {
      if x in r[1..] {
        var j :| 1 <= j < |r| && r[j] == x;
        assert less(r[0], r[j]);
      }
      if x in s - {r[0]} {
        var j :| 0 <= j < |r| && r[j] == x;
        assert r[1..][j - 1] == x;
      }
    }
    forall i, j | 0 <= i < j < |r[1..]| ensures less(r[1..][i], r[1..][j]) {
      assert less(r[i + 1], r[j + 1]);
    }
  }

  lemma HeadIsMember<T>(r: seq<T>)
    ensures |r| > 0 ==> r[0] in r
  {
  }

  /** A sorted listing of a set is unique: any other one equals `SortSet`. */
  lemma {:induction false} SortedListingUnique<T(!new)>(s: set<T>, less: (T, T) -> bool, r: seq<T>)
    requires StrictTotalOn(s, less) && SortedListing(r, s, less)
    ensures r == SortSet(s, less)
    decreases |s|
  {
    var q := SortSet(s, less);
    SortSetSorted(s, less);
    HeadIsMember(r);
    if s != {} {
      ListingHead(r, s, less);
      ListingHead(q, s, less);
      LeastUnique(s, less);
      assert q[0] == r[0];
      SortedListingUnique(s - {r[0]}, less, r[1..]);
      SortedListingUnique(s - {r[0]}, less, q[1..]);
      assert r == [r[0]] + r[1..];
      assert q == [q[0]] + q[1..];
    }
  }
}

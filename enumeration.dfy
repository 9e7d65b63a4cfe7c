// The mixed-radix counter behind candidate enumeration: index vectors over a list of domain
// sizes, their successor (the rightmost position moves fastest, with carry), their rank as a
// mixed-radix number, and the run of vectors a counter passes through.
module Enumeration {
  import opened Wrappers

  /** Product of the domain sizes: the number of index vectors. */
  function Prod(sizes: seq<nat>): nat
  {
    if |sizes| == 0 then 1 else sizes[0] * Prod(sizes[1..])
  }

  /** `v` picks a position inside every domain. */
  predicate InRange(sizes: seq<nat>, v: seq<int>)
  {
    |v| == |sizes| && forall i | 0 <= i < |v| :: 0 <= v[i] < sizes[i]
  }

  function Zeros(n: nat): (r: seq<int>)
    ensures |r| == n && forall i | 0 <= i < n :: r[i] == 0
  {
    seq(n, i => 0)
  }

  /**
   * The next index vector: the rightmost position is incremented, and a position that reaches
   * its domain size is reset to zero and carries into the position on its left. `None` when every
   * position overflows.
   */
  function Succ(sizes: seq<nat>, v: seq<int>): Option<seq<int>>
    requires |v| == |sizes|
  {
    if |v| == 0 then None
    else
      match Succ(sizes[1..], v[1..])
      case Some(w) => Some([v[0]] + w)
      case None => if v[0] + 1 < sizes[0] then Some([v[0] + 1] + Zeros(|v| - 1)) else None
  }

  /** The value of `v` as a mixed-radix number, most significant position first. */
  function Rank(sizes: seq<nat>, v: seq<int>): int
    requires |v| == |sizes|
  {
    if |v| == 0 then 0 else v[0] * Prod(sizes[1..]) + Rank(sizes[1..], v[1..])
  }

  lemma {:induction false} TailInRange(sizes: seq<nat>, v: seq<int>)
    requires InRange(sizes, v) && |v| > 0
    ensures InRange(sizes[1..], v[1..]) && 0 <= v[0] < sizes[0]
  {
    assert 0 <= v[0 + 0] < sizes[0 + 0];
    forall i | 0 <= i < |v| - 1 ensures 0 <= v[1..][i] < sizes[1..][i] {
      assert v[1..][i] == v[i + 1] && sizes[1..][i] == sizes[i + 1];
    }
  }

  lemma ConsInRange(sizes: seq<nat>, d: int, w: seq<int>)
    requires |sizes| > 0 && 0 <= d < sizes[0] && InRange(sizes[1..], w)
    ensures InRange(sizes, [d] + w)
  {
    forall i | 0 < i < |sizes| ensures 0 <= ([d] + w)[i] < sizes[i] {
      assert ([d] + w)[i] == w[i - 1] && sizes[i] == sizes[1..][i - 1];
    }
  }

  /** A vector in range ranks below the number of vectors. */
  lemma {:induction false} RankBounds(sizes: seq<nat>, v: seq<int>)
    requires InRange(sizes, v)
    ensures 0 <= Rank(sizes, v) < Prod(sizes)
    decreases |v|
  {
    if |v| > 0 {
      TailInRange(sizes, v);
      RankBounds(sizes[1..], v[1..]);
      var p := Prod(sizes[1..]);
      assert v[0] * p + p <= sizes[0] * p by {
        assert (v[0] + 1) * p <= sizes[0] * p;
      }
    }
  }

  lemma {:induction false} ZerosRank(sizes: seq<nat>)
    ensures Rank(sizes, Zeros(|sizes|)) == 0
    decreases |sizes|
  {
    if |sizes| > 0 {
      assert Zeros(|sizes|)[1..] == Zeros(|sizes| - 1);
      ZerosRank(sizes[1..]);
    }
  }

  lemma ZerosInRange(sizes: seq<nat>)
    requires forall i | 0 <= i < |sizes| :: sizes[i] > 0
    ensures InRange(sizes, Zeros(|sizes|))
  {
  }

  lemma MulStep(a: int, p: int)
    ensures (a + 1) * p == a * p + p
  {
  }

  lemma MulMonotone(a: int, b: int, p: nat)
    requires a <= b
    ensures a * p <= b * p
  {
  }

  /** No successor exactly when the vector is the last one: every position at its maximum. */
  lemma {:induction false} SuccNoneIsLast(sizes: seq<nat>, v: seq<int>)
    requires InRange(sizes, v)
    ensures Succ(sizes, v).None? <==> Rank(sizes, v) == Prod(sizes) - 1
    decreases |v|
  {
    if |v| > 0 {
      TailInRange(sizes, v);
      SuccNoneIsLast(sizes[1..], v[1..]);
      RankBounds(sizes[1..], v[1..]);
      var p := Prod(sizes[1..]);
      var r := Rank(sizes[1..], v[1..]);
      assert Rank(sizes, v) == v[0] * p + r;
      assert Prod(sizes) == sizes[0] * p;
      MulStep(v[0], p);
      MulMonotone(v[0] + 1, sizes[0], p);
      if Succ(sizes[1..], v[1..]).None? && v[0] + 1 < sizes[0] {
        MulStep(v[0] + 1, p);
        MulMonotone(v[0] + 2, sizes[0], p);
      }
    }
  }

  /** The successor stays in range and ranks one higher. */
  lemma {:induction false} SuccRank(sizes: seq<nat>, v: seq<int>)
    requires InRange(sizes, v) && Succ(sizes, v).Some?
    ensures InRange(sizes, Succ(sizes, v).value)
    ensures Rank(sizes, Succ(sizes, v).value) == Rank(sizes, v) + 1
    decreases |v|
  {
    TailInRange(sizes, v);
    var p := Prod(sizes[1..]);
    match Succ(sizes[1..], v[1..])
    case Some(w) => {
      SuccRank(sizes[1..], v[1..]);
      ConsInRange(sizes, v[0], w);
      assert ([v[0]] + w)[1..] == w;
    }
    case None => {
      SuccNoneIsLast(sizes[1..], v[1..]);
      var z := Zeros(|v| - 1);
      ZerosRank(sizes[1..]);
      assert ([v[0] + 1] + z)[1..] == z;
      ConsInRange(sizes, v[0] + 1, z);
      assert (v[0] + 1) * p == v[0] * p + p;
    }
  }

  /** Two vectors in range with the same rank are the same vector. */
  lemma {:induction false} RankInjective(sizes: seq<nat>, v: seq<int>, w: seq<int>)
    requires InRange(sizes, v) && InRange(sizes, w) && Rank(sizes, v) == Rank(sizes, w)
    ensures v == w
    decreases |v|
  {
    if |v| > 0 {
      TailInRange(sizes, v);
      TailInRange(sizes, w);
      RankBounds(sizes[1..], v[1..]);
      RankBounds(sizes[1..], w[1..]);
      var p := Prod(sizes[1..]);
      assert Rank(sizes, v) == v[0] * p + Rank(sizes[1..], v[1..]);
      assert Rank(sizes, w) == w[0] * p + Rank(sizes[1..], w[1..]);
      if v[0] < w[0] {
        MulStep(v[0], p);
        MulMonotone(v[0] + 1, w[0], p);
      } else if w[0] < v[0] {
        MulStep(w[0], p);
        MulMonotone(w[0] + 1, v[0], p);
      } else {
        RankInjective(sizes[1..], v[1..], w[1..]);
        assert v == [v[0]] + v[1..] && w == [w[0]] + w[1..];
      }
    }
  }

  /** The vectors a counter standing at `v` passes through, `v` first, until it overflows. */
  function Orbit(sizes: seq<nat>, v: seq<int>): (r: seq<seq<int>>)
    requires InRange(sizes, v)
    ensures |r| > 0 && r[0] == v && forall k | 0 <= k < |r| :: InRange(sizes, r[k])
    decreases Prod(sizes) - Rank(sizes, v)
  {
    RankBounds(sizes, v);
    match Succ(sizes, v)
    case None => [v]
    case Some(w) =>
      SuccRank(sizes, v);
      RankBounds(sizes, w);
      [v] + Orbit(sizes, w)
  }

  /**
   * The run from `v` holds every following vector exactly once, in increasing rank: its k-th
   * vector is the one of rank `Rank(v) + k`, and it ends with the last vector.
   */
  lemma {:induction false} OrbitRanks(sizes: seq<nat>, v: seq<int>)
    requires InRange(sizes, v)
    ensures |Orbit(sizes, v)| == Prod(sizes) - Rank(sizes, v)
    ensures forall k | 0 <= k < |Orbit(sizes, v)| ::
      InRange(sizes, Orbit(sizes, v)[k]) && Rank(sizes, Orbit(sizes, v)[k]) == Rank(sizes, v) + k
    decreases Prod(sizes) - Rank(sizes, v)
  {
    RankBounds(sizes, v);
    SuccNoneIsLast(sizes, v);
    match Succ(sizes, v)
    case None => {}
    case Some(w) => {
      SuccRank(sizes, v);
      RankBounds(sizes, w);
      OrbitRanks(sizes, w);
      var o := Orbit(sizes, v);
      assert o == [v] + Orbit(sizes, w);
      forall k | 0 < k < |o| ensures InRange(sizes, o[k]) && Rank(sizes, o[k]) == Rank(sizes, v) + k {
        assert o[k] == Orbit(sizes, w)[k - 1];
      }
    }
  }

  /** Every vector in range at or after `v` lies on the run from `v`. */
  lemma OrbitComplete(sizes: seq<nat>, v: seq<int>, w: seq<int>)
    requires InRange(sizes, v) && InRange(sizes, w) && Rank(sizes, v) <= Rank(sizes, w)
    ensures w in Orbit(sizes, v)
  {
    OrbitRanks(sizes, v);
    RankBounds(sizes, w);
    var k := Rank(sizes, w) - Rank(sizes, v);
    RankInjective(sizes, Orbit(sizes, v)[k], w);
  }

  /** The vectors on a run are pairwise distinct. */
  lemma OrbitDistinct(sizes: seq<nat>, v: seq<int>)
    requires InRange(sizes, v)
    ensures forall j, k | 0 <= j < k < |Orbit(sizes, v)| :: Orbit(sizes, v)[j] != Orbit(sizes, v)[k]
  {
    OrbitRanks(sizes, v);
  }
}

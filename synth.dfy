// Learned constraints and the candidate generator that enumerates a hole space while skipping
// every candidate a constraint forbids.
module Synth {
  import opened Wrappers
  import opened Values
  import opened Template
  import opened Enumeration
  import opened Strings

  /**
   * A learned restriction: its `type` tag and its data dictionary. The tags the generator
   * understands are "forbidden_value" (data `hole`, `value`) and "forbidden_tuple" (data
   * `holes`, `values`); a constraint with any other tag forbids nothing.
   */
  datatype Constraint = Constraint(kind: string, data: map<string, Json>)

  function ForbidValue(hole: Json, value: Json): Constraint
  {
    Constraint("forbidden_value", map["hole" := hole, "value" := value])
  }

  function ForbidTuple(holes: Json, values: Json): Constraint
  {
    Constraint("forbidden_tuple", map["holes" := holes, "values" := values])
  }

  /** `Constraint.to_dict`. */
  function ConstraintToDict(c: Constraint): Json
  {
    JObj(map["type" := JStr(c.kind), "data" := JObj(c.data)])
  }

  /** `Constraint.from_dict`; `None` where Python would raise on a missing or mistyped key. */
  function ConstraintFromDict(d: Json): Option<Constraint>
  {
    if d.JObj? && "type" in d.fields && "data" in d.fields && d.fields["type"].JStr? && d.fields["data"].JObj? then
      Some(Constraint(d.fields["type"].s, d.fields["data"].fields))
    else None
  }

  lemma ConstraintDictRoundTrip(c: Constraint)
    ensures ConstraintFromDict(ConstraintToDict(c)) == Some(c)
  {
    var d := ConstraintToDict(c);
    assert d.fields["type"] == JStr(c.kind);
    assert d.fields["data"] == JObj(c.data);
  }

  /** Python's `d.get(key, default)` on a data dictionary. */
  function Field(d: map<string, Json>, key: string, default: Json): Json
  {
    if key in d then d[key] else default
  }

  /** `candidate.get(hole)`: a hole the candidate does not assign reads as `None`. */
  function HoleValue(cand: Assignment, hole: Json): Json
  {
    if hole.JStr? && hole.s in cand then ToJson(cand[hole.s]) else JNull
  }

  /**
   * The elements `zip` draws from a hint operand: a list gives its items and a string gives its
   * characters, each a one-character string. Other operands (see README, "Left out") give none.
   */
  function Items(j: Json): (r: seq<Json>)
    ensures j.JList? ==> r == j.items
    ensures j.JStr? ==> |r| == |j.s| && forall i | 0 <= i < |j.s| :: r[i] == JStr([j.s[i]])
  {
    match j
    case JList(items) => items
    case JStr(s) => seq(|s|, i requires 0 <= i < |s| => JStr([s[i]]))
    case _ => []
  }

  /** Every pair `zip(holes, values)` produces is matched by the candidate. */
  predicate TupleMatches(cand: Assignment, holes: seq<Json>, values: seq<Json>)
  {
    forall i | 0 <= i < |holes| && i < |values| :: HoleValue(cand, holes[i]) == values[i]
  }

  /** The candidate is one the constraint forbids. */
  predicate Matches(c: Constraint, cand: Assignment)
  {
    if c.kind == "forbidden_value" then
      HoleValue(cand, Field(c.data, "hole", JNull)) == Field(c.data, "value", JNull)
    else if c.kind == "forbidden_tuple" then
      TupleMatches(cand, Items(Field(c.data, "holes", JList([]))), Items(Field(c.data, "values", JList([]))))
    else false
  }

  /**
   * `zip` pairs the characters of string operands, so `holes: "env", values: "prod"` compares the
   * holes "e", "n", "v" with "p", "r", "o"; a candidate without a hole "e" is not forbidden.
   */
  lemma StringTupleZipsCharacters(cand: Assignment)
    requires "e" !in cand
    ensures !Matches(ForbidTuple(JStr("env"), JStr("prod")), cand)
  {
    var c := ForbidTuple(JStr("env"), JStr("prod"));
    var holes := Items(JStr("env"));
    var values := Items(JStr("prod"));
    assert Field(c.data, "holes", JList([])) == JStr("env");
    assert Field(c.data, "values", JList([])) == JStr("prod");
    assert holes[0] == JStr("e") && values[0] == JStr("p");
    assert HoleValue(cand, holes[0]) == JNull;
  }

  predicate Violates(cs: seq<Constraint>, cand: Assignment)
  {
    exists i | 0 <= i < |cs| :: Matches(cs[i], cand)
  }

  /** The candidates of `xs` that no constraint forbids, in their order. */
  function Filter(cs: seq<Constraint>, xs: seq<Assignment>): seq<Assignment>
  {
    if xs == [] then []
    else (if Violates(cs, xs[0]) then [] else [xs[0]]) + Filter(cs, xs[1..])
  }

  /** `Filter` keeps exactly the unforbidden candidates and preserves their order. */
  lemma {:induction false} FilterSpec(cs: seq<Constraint>, xs: seq<Assignment>)
    ensures forall x :: x in Filter(cs, xs) <==> x in xs && !Violates(cs, x)
    ensures |Filter(cs, xs)| <= |xs|
    ensures cs == [] ==> Filter(cs, xs) == xs
  {
    if xs != [] {
      FilterSpec(cs, xs[1..]);
      assert xs == [xs[0]] + xs[1..];
    }
  }

  lemma FilterCons(cs: seq<Constraint>, x: Assignment, xs: seq<Assignment>)
    ensures Filter(cs, [x] + xs) == (if Violates(cs, x) then [] else [x]) + Filter(cs, xs)
  {
    assert ([x] + xs)[1..] == xs;
  }

  /** The holes in enumeration order: sorted by name. */
  function HolesOf(hs: HoleSpace): seq<string>
  {
    SortStrings(hs.Keys)
  }

  /** Each hole's values in enumeration order: sorted by `str`. */
  function DomainsOf(hs: HoleSpace, holes: seq<string>): (ds: seq<seq<Value>>)
    requires forall h | h in holes :: h in hs
    ensures |ds| == |holes|
  {
    seq(|holes|, i requires 0 <= i < |holes| => SortValues(hs[holes[i]]))
  }

  function Sizes(domains: seq<seq<Value>>): (r: seq<nat>)
    ensures |r| == |domains| && forall i | 0 <= i < |domains| :: r[i] == |domains[i]|
  {
    seq(|domains|, i requires 0 <= i < |domains| => |domains[i]|)
  }

  /** The candidate an index vector denotes: `{hole: domains[i][indices[i]] for i, hole in ...}`. */
  function Build(holes: seq<string>, domains: seq<seq<Value>>, v: seq<int>, n: nat): Assignment
    requires |holes| == |domains| && InRange(Sizes(domains), v) && n <= |holes|
  {
    if n == 0 then map[]
    else Build(holes, domains, v, n - 1)[holes[n - 1] := domains[n - 1][v[n - 1]]]
  }

  /** Candidates built from a list of index vectors. */
  function Cands(holes: seq<string>, domains: seq<seq<Value>>, vs: seq<seq<int>>): (r: seq<Assignment>)
    requires |holes| == |domains| && forall k | 0 <= k < |vs| :: InRange(Sizes(domains), vs[k])
    ensures |r| == |vs|
  {
    seq(|vs|, k requires 0 <= k < |vs| => Build(holes, domains, vs[k], |holes|))
  }

  /** Some domain is empty, so there is no index vector. */
  predicate SomeEmpty(domains: seq<seq<Value>>)
  {
    exists i | 0 <= i < |domains| :: |domains[i]| == 0
  }

  /**
   * Everything a fresh generator over `hs` yields before constraint pruning: nothing for an
   * empty hole space or an empty domain, otherwise the run of the counter from all zeros.
   */
  function AllCandidates(hs: HoleSpace): seq<Assignment>
  {
    var holes := HolesOf(hs);
    var domains := DomainsOf(hs, holes);
    if |holes| == 0 || SomeEmpty(domains) then []
    else
      ZerosInRange(Sizes(domains));
      Cands(holes, domains, Orbit(Sizes(domains), Zeros(|holes|)))
  }

  /** The iterator over a hole space: sorted holes and domains, a mixed-radix index vector. */
  class CandidateGenerator {
    const holeSpace: HoleSpace
    var constraints: seq<Constraint>
    var holes: seq<string>
    var domains: seq<seq<Value>>
    var indices: array<int>
    var exhausted: bool

    /**
     * One domain per hole and one index per hole, each inside its domain while the generator
     * is not exhausted. (That `holes` and `domains` are the sorted hole space is established by
     * `InitState` and kept, unchanged, by every other method.)
     */
    ghost predicate Valid()
      reads this, indices
    {
      |domains| == |holes| &&
      indices.Length == |holes| &&
      (!exhausted ==> InRange(Sizes(domains), indices[..]))
    }

    /** The candidates the generator will still yield, in order. */
    ghost function Remaining(): seq<Assignment>
      reads this, indices
      requires Valid()
    {
      if exhausted then []
      else Filter(constraints, Cands(holes, domains, Orbit(Sizes(domains), indices[..])))
    }

    constructor (hs: HoleSpace, cs: seq<Constraint>)
      ensures fresh(indices)
      ensures Valid() && holeSpace == hs && constraints == cs
      ensures holes == HolesOf(hs) && domains == DomainsOf(hs, holes)
      ensures Remaining() == Filter(cs, AllCandidates(hs))
    {
      holeSpace := hs;
      constraints := cs;
      new;
      InitState();
    }

    /** `_init_state`: sorted holes and domains, indices at zero. */
    method InitState()
      modifies this
      ensures fresh(indices)
      ensures Valid() && constraints == old(constraints)
      ensures holes == HolesOf(holeSpace) && domains == DomainsOf(holeSpace, holes)
      ensures Remaining() == Filter(constraints, AllCandidates(holeSpace))
    {
      var hs := HolesOf(holeSpace);
      assert forall h | h in hs :: h in holeSpace;
      var ds := DomainsOf(holeSpace, hs);
      var ix := new int[|hs|](_ => 0);
      assert ix[..] == Zeros(|hs|);
      var ex := |hs| == 0 || SomeEmpty(ds);
      StartRemaining(holeSpace, constraints, hs, ds, ex);
      holes, domains, indices, exhausted := hs, ds, ix, ex;
    }

    /** `update_constraints`: replaces the constraints and restarts the enumeration. */
    method UpdateConstraints(cs: seq<Constraint>)
      requires Valid()
      modifies this
      ensures fresh(indices)
      ensures Valid() && constraints == cs
      ensures holes == HolesOf(holeSpace) && domains == DomainsOf(holeSpace, holes)
      ensures Remaining() == Filter(cs, AllCandidates(holeSpace))
    {
      constraints := cs;
      InitState();
    }

    /** `_violates_constraints`. */
    method ViolatesConstraints(cand: Assignment) returns (b: bool)
      ensures b <==> Violates(constraints, cand)
    {
      for i := 0 to |constraints|
        invariant forall j | 0 <= j < i :: !Matches(constraints[j], cand)
      {
        var c := constraints[i];
        if c.kind == "forbidden_value" {
          if HoleValue(cand, Field(c.data, "hole", JNull)) == Field(c.data, "value", JNull) {
            return true;
          }
        } else if c.kind == "forbidden_tuple" {
          var all := AllPairsMatch(cand, Items(Field(c.data, "holes", JList([]))), Items(Field(c.data, "values", JList([]))));
          if all {
            return true;
          }
        }
      }
      return false;
    }

    /** `_advance`: the carry loop over `indices`, rightmost position first. */
    method Advance()
      requires Valid() && !exhausted
      modifies this, indices
      ensures Valid() && indices == old(indices)
      ensures constraints == old(constraints) && holes == old(holes) && domains == old(domains)
      ensures Succ(Sizes(domains), old(indices[..])).None? ==> exhausted
      ensures Succ(Sizes(domains), old(indices[..])).Some? ==>
        !exhausted && indices[..] == Succ(Sizes(domains), old(indices[..])).value
    {
      ghost var sizes := Sizes(domains);
      ghost var v := indices[..];
      var i := indices.Length;
      while i > 0
        modifies indices
        invariant 0 <= i <= indices.Length
        invariant forall j | 0 <= j < i :: indices[j] == v[j]
        invariant forall j | i <= j < indices.Length :: indices[j] == 0
        invariant Succ(sizes[i..], v[i..]).None?
        decreases i
      {
        i := i - 1;
        indices[i] := indices[i] + 1;
        if indices[i] < |domains[i]| {
          CarryStops(sizes, v, indices[..], i);
          return;
        }
        indices[i] := 0;
        SuccOverflowAt(sizes, v, i);
      }
      assert sizes[0..] == sizes && v[0..] == v;
      exhausted := true;
    }

    /** `__next__`: the next candidate no constraint forbids, or `None` (StopIteration). */
    method Next() returns (r: Option<Assignment>)
      requires Valid()
      modifies this, indices
      ensures Valid() && indices == old(indices)
      ensures constraints == old(constraints) && holes == old(holes) && domains == old(domains)
      ensures old(Remaining()) == [] ==> r == None && Remaining() == []
      ensures old(Remaining()) != [] ==> r == Some(old(Remaining())[0]) && Remaining() == old(Remaining())[1..]
    {
      if exhausted {
        return None;
      }
      while !exhausted
        invariant Valid() && indices == old(indices)
        invariant constraints == old(constraints) && holes == old(holes) && domains == old(domains)
        invariant Remaining() == old(Remaining())
        decreases if exhausted then 0 else Prod(Sizes(domains)) - Rank(Sizes(domains), indices[..]) + 1
      {
        ghost var v := indices[..];
        RankBounds(Sizes(domains), v);
        var cand := Build(holes, domains, indices[..], |holes|);
        UnfoldRemaining(constraints, holes, domains, v);
        Advance();
        if !exhausted {
          SuccRank(Sizes(domains), v);
        }
        var bad := ViolatesConstraints(cand);
        if !bad {
          return Some(cand);
        }
      }
      return None;
    }

    /** `estimate_size`: the product of the domain sizes, whatever the constraints. */
    method EstimateSize() returns (size: int)
      requires Valid()
      ensures size == Prod(Sizes(domains))
    {
      size := 1;
      for j := 0 to |domains|
        invariant size == Prod(Sizes(domains)[..j])
      {
        ProdSnoc(Sizes(domains), j);
        size := size * |domains[j]|;
      }
      assert Sizes(domains)[..|domains|] == Sizes(domains);
    }
  }

  /** `all(candidate.get(h) == v for h, v in zip(holes, values))`. */
  method AllPairsMatch(cand: Assignment, holes: seq<Json>, values: seq<Json>) returns (b: bool)
    ensures b <==> TupleMatches(cand, holes, values)
  {
    var i := 0;
    while i < |holes| && i < |values|
      invariant 0 <= i
      invariant i <= |holes| && i <= |values|
      invariant forall j | 0 <= j < i :: HoleValue(cand, holes[j]) == values[j]
    {
      if HoleValue(cand, holes[i]) != values[i] {
        return false;
      }
      i := i + 1;
    }
    return true;
  }

  lemma ProdSnoc(s: seq<nat>, j: nat)
    requires j < |s|
    ensures Prod(s[..j + 1]) == Prod(s[..j]) * s[j]
  {
    ProdAppend(s[..j], [s[j]]);
    assert s[..j + 1] == s[..j] + [s[j]];
  }

  lemma {:induction false} ProdAppend(a: seq<nat>, b: seq<nat>)
    ensures Prod(a + b) == Prod(a) * Prod(b)
    decreases |a|
  {
    if |a| > 0 {
      ProdAppend(a[1..], b);
      assert (a + b)[1..] == a[1..] + b;
    } else {
      assert a + b == b;
    }
  }

  /** A successful increment at position `i`, every position right of it at its maximum. */
  lemma {:induction false} SuccAt(sizes: seq<nat>, v: seq<int>, i: nat)
    requires |v| == |sizes| && i < |v|
    requires Succ(sizes[i + 1..], v[i + 1..]).None? && v[i] + 1 < sizes[i]
    ensures Succ(sizes, v) == Some(v[..i] + [v[i] + 1] + Zeros(|v| - i - 1))
  {
    assert sizes[i..][1..] == sizes[i + 1..] && v[i..][1..] == v[i + 1..];
    SuccSuffix(sizes, v, i, [v[i] + 1] + Zeros(|v| - i - 1));
    assert v[..i] + [v[i] + 1] + Zeros(|v| - i - 1) == v[..i] + ([v[i] + 1] + Zeros(|v| - i - 1));
  }

  /**
   * The carry loop stops at position `i` with index vector `a`: the vector is the successor of
   * `v`, still in range.
   */
  lemma CarryStops(sizes: seq<nat>, v: seq<int>, a: seq<int>, i: nat)
    requires |v| == |sizes| && |a| == |v| && i < |v| && InRange(sizes, v)
    requires Succ(sizes[i + 1..], v[i + 1..]).None?
    requires a[i] == v[i] + 1 && a[i] < sizes[i]
    requires forall j | 0 <= j < i :: a[j] == v[j]
    requires forall j | i < j < |a| :: a[j] == 0
    ensures Succ(sizes, v) == Some(a) && InRange(sizes, a)
  {
    SuccAt(sizes, v, i);
    assert a == v[..i] + [v[i] + 1] + Zeros(|v| - i - 1);
    SuccRank(sizes, v);
  }

  /** An overflow at position `i` extends the run of maximal positions to `i`. */
  lemma SuccOverflowAt(sizes: seq<nat>, v: seq<int>, i: nat)
    requires |v| == |sizes| && i < |v|
    requires Succ(sizes[i + 1..], v[i + 1..]).None? && v[i] + 1 >= sizes[i]
    ensures Succ(sizes[i..], v[i..]).None?
  {
    assert sizes[i..][1..] == sizes[i + 1..] && v[i..][1..] == v[i + 1..];
  }

  /** A successor of a suffix is a successor of the whole vector, with the prefix kept. */
  lemma {:induction false} SuccSuffix(sizes: seq<nat>, v: seq<int>, i: nat, w: seq<int>)
    requires |v| == |sizes| && i <= |v|
    requires Succ(sizes[i..], v[i..]) == Some(w)
    ensures Succ(sizes, v) == Some(v[..i] + w)
    decreases i
  {
    if i > 0 {
      assert sizes[1..][i - 1..] == sizes[i..] && v[1..][i - 1..] == v[i..];
      SuccSuffix(sizes[1..], v[1..], i - 1, w);
      var u := v[1..][..i - 1] + w;
      assert Succ(sizes[1..], v[1..]) == Some(u);
      assert Succ(sizes, v) == Some([v[0]] + u);
      assert [v[0]] + u == v[..i] + w;
    } else {
      assert sizes[0..] == sizes && v[0..] == v;
      assert v[..0] + w == w;
    }
  }

  /** The run from `v`, pruned, is `v`'s candidate (unless forbidden) then the pruned rest. */
  lemma UnfoldRemaining(cs: seq<Constraint>, holes: seq<string>, domains: seq<seq<Value>>, v: seq<int>)
    requires |holes| == |domains| && InRange(Sizes(domains), v)
    ensures Succ(Sizes(domains), v).None? ==>
      Filter(cs, Cands(holes, domains, Orbit(Sizes(domains), v))) ==
      (if Violates(cs, Build(holes, domains, v, |holes|)) then [] else [Build(holes, domains, v, |holes|)])
    ensures Succ(Sizes(domains), v).Some? ==>
      InRange(Sizes(domains), Succ(Sizes(domains), v).value) &&
      Filter(cs, Cands(holes, domains, Orbit(Sizes(domains), v))) ==
      (if Violates(cs, Build(holes, domains, v, |holes|)) then [] else [Build(holes, domains, v, |holes|)]) +
      Filter(cs, Cands(holes, domains, Orbit(Sizes(domains), Succ(Sizes(domains), v).value)))
  {
    var sizes := Sizes(domains);
    var x := Build(holes, domains, v, |holes|);
    OrbitRanks(sizes, v);
    match Succ(sizes, v)
    case None => {
      assert Cands(holes, domains, Orbit(sizes, v)) == [x];
      FilterCons(cs, x, []);
    }
    case Some(w) => {
      SuccRank(sizes, v);
      OrbitRanks(sizes, w);
      assert Orbit(sizes, v) == [v] + Orbit(sizes, w);
      assert Cands(holes, domains, Orbit(sizes, v)) == [x] + Cands(holes, domains, Orbit(sizes, w));
      FilterCons(cs, x, Cands(holes, domains, Orbit(sizes, w)));
    }
  }

  /** `a` assigns exactly the holes of `hs`, each a value of its domain. */
  predicate InSpace(hs: HoleSpace, a: Assignment)
  {
    a.Keys == hs.Keys && forall h | h in a :: a[h] in hs[h]
  }

  predicate DistinctNames(holes: seq<string>)
  {
    forall i, j | 0 <= i < j < |holes| :: holes[i] != holes[j]
  }

  predicate DistinctValues(d: seq<Value>)
  {
    forall i, j | 0 <= i < j < |d| :: d[i] != d[j]
  }

  /** The holes are listed once each, and the domains list each hole's values once each. */
  lemma LayoutDistinct(hs: HoleSpace)
    ensures DistinctNames(HolesOf(hs))
    ensures forall i | 0 <= i < |HolesOf(hs)| ::
      (HolesOf(hs)[i] in hs && DomainsOf(hs, HolesOf(hs))[i] == SortValues(hs[HolesOf(hs)[i]]) &&
       DistinctValues(DomainsOf(hs, HolesOf(hs))[i]))
  {
    var holes := HolesOf(hs);
    SortStringsSorted(hs.Keys);
    forall i, j | 0 <= i < j < |holes| ensures holes[i] != holes[j] {
      StrLessIrreflexive(holes[i]);
    }
    forall i | 0 <= i < |holes| ensures DistinctValues(SortValues(hs[holes[i]])) {
      SortValuesDistinct(hs[holes[i]]);
    }
  }

  lemma {:induction false} BuildKeys(holes: seq<string>, domains: seq<seq<Value>>, v: seq<int>, n: nat)
    requires |holes| == |domains| && InRange(Sizes(domains), v) && n <= |holes|
    ensures Build(holes, domains, v, n).Keys == set i | 0 <= i < n :: holes[i]
    decreases n
  {
    if n > 0 {
      BuildKeys(holes, domains, v, n - 1);
      var prev := set i | 0 <= i < n - 1 :: holes[i];
      assert (set i | 0 <= i < n :: holes[i]) == prev + {holes[n - 1]};
    }
  }

  /** With distinct names, a built candidate gives each hole it assigns its chosen value. */
  lemma {:induction false} BuildAt(holes: seq<string>, domains: seq<seq<Value>>, v: seq<int>, n: nat)
    requires |holes| == |domains| && InRange(Sizes(domains), v) && n <= |holes|
    requires DistinctNames(holes)
    ensures forall i | 0 <= i < n :: holes[i] in Build(holes, domains, v, n) && Build(holes, domains, v, n)[holes[i]] == domains[i][v[i]]
    decreases n
  {
    if n > 0 {
      BuildAt(holes, domains, v, n - 1);
    }
  }

  /** Different index vectors over distinct names and repeat-free domains build different candidates. */
  lemma BuildInjective(holes: seq<string>, domains: seq<seq<Value>>, v: seq<int>, w: seq<int>)
    requires |holes| == |domains| && InRange(Sizes(domains), v) && InRange(Sizes(domains), w)
    requires DistinctNames(holes) && forall i | 0 <= i < |domains| :: DistinctValues(domains[i])
    requires Build(holes, domains, v, |holes|) == Build(holes, domains, w, |holes|)
    ensures v == w
  {
    BuildAt(holes, domains, v, |holes|);
    BuildAt(holes, domains, w, |holes|);
    forall i | 0 <= i < |v| ensures v[i] == w[i] {
      assert domains[i][v[i]] == domains[i][w[i]];
    }
  }

  /** The position of a value in a domain listing. */
  ghost function PositionIn(d: seq<Value>, x: Value): (j: nat)
    requires x in d
    ensures j < |d| && d[j] == x
  {
    var j :| 0 <= j < |d| && d[j] == x; j
  }

  /** An assignment of every listed hole to a value of its domain is built from some index vector. */
  lemma Unbuild(holes: seq<string>, domains: seq<seq<Value>>, a: Assignment) returns (v: seq<int>)
    requires |holes| == |domains| && DistinctNames(holes)
    requires a.Keys == set i | 0 <= i < |holes| :: holes[i]
    requires forall i | 0 <= i < |holes| :: a[holes[i]] in domains[i]
    ensures InRange(Sizes(domains), v) && Build(holes, domains, v, |holes|) == a
  {
    v := seq(|holes|, i requires 0 <= i < |holes| => PositionIn(domains[i], a[holes[i]]));
    BuildKeys(holes, domains, v, |holes|);
    BuildAt(holes, domains, v, |holes|);
    var b := Build(holes, domains, v, |holes|);
    forall h | h in a ensures b[h] == a[h] {
      var i :| 0 <= i < |holes| && holes[i] == h;
    }
  }

  lemma {:induction false} ProdZero(sizes: seq<nat>, i: nat)
    requires i < |sizes| && sizes[i] == 0
    ensures Prod(sizes) == 0
    decreases i
  {
    if i > 0 {
      ProdZero(sizes[1..], i - 1);
    }
  }

  /** The holes of `hs`, as the positions of its sorted listing. */
  lemma HoleSet(hs: HoleSpace)
    ensures hs.Keys == set i | 0 <= i < |HolesOf(hs)| :: HolesOf(hs)[i]
  {
    var holes := HolesOf(hs);
    forall h | h in hs ensures h in set i | 0 <= i < |holes| :: holes[i] {
      var i :| 0 <= i < |holes| && holes[i] == h;
    }
  }

  /** `InSpace`, read position by position along the sorted layout. */
  lemma InSpaceByPosition(hs: HoleSpace, a: Assignment)
    ensures InSpace(hs, a) <==>
      a.Keys == (set i | 0 <= i < |HolesOf(hs)| :: HolesOf(hs)[i]) &&
      forall i | 0 <= i < |HolesOf(hs)| :: a[HolesOf(hs)[i]] in DomainsOf(hs, HolesOf(hs))[i]
  {
    HoleSet(hs);
    LayoutDistinct(hs);
    if a.Keys == hs.Keys {
      PositionsOfSpace(hs, a);
    }
  }

  lemma PositionsOfSpace(hs: HoleSpace, a: Assignment)
    requires a.Keys == hs.Keys
    ensures (forall h | h in a :: a[h] in hs[h]) <==>
      forall i | 0 <= i < |HolesOf(hs)| :: a[HolesOf(hs)[i]] in DomainsOf(hs, HolesOf(hs))[i]
  {
    var holes := HolesOf(hs);
    var domains := DomainsOf(hs, holes);
    HoleSet(hs);
    forall i | 0 <= i < |holes| ensures holes[i] in hs && forall x :: x in domains[i] <==> x in hs[holes[i]] {
      assert domains[i] == SortValues(hs[holes[i]]);
    }
    PositionsOf(hs, holes, domains, a);
  }

  lemma PositionsOf(hs: HoleSpace, holes: seq<string>, domains: seq<seq<Value>>, a: Assignment)
    requires |holes| == |domains| && a.Keys == hs.Keys && hs.Keys == set i | 0 <= i < |holes| :: holes[i]
    requires forall i | 0 <= i < |holes| :: holes[i] in hs && forall x :: x in domains[i] <==> x in hs[holes[i]]
    ensures (forall h | h in a :: a[h] in hs[h]) <==> forall i | 0 <= i < |holes| :: a[holes[i]] in domains[i]
  {
    if forall i | 0 <= i < |holes| :: a[holes[i]] in domains[i] {
      forall h | h in a ensures a[h] in hs[h] {
        var i :| 0 <= i < |holes| && holes[i] == h;
      }
    }
  }

  /** A candidate built from in-range vectors assigns every listed hole a value of its domain. */
  lemma CandsByPosition(holes: seq<string>, domains: seq<seq<Value>>, vs: seq<seq<int>>)
    requires |holes| == |domains| && DistinctNames(holes)
    requires forall k | 0 <= k < |vs| :: InRange(Sizes(domains), vs[k])
    ensures forall a | a in Cands(holes, domains, vs) ::
      (a.Keys == (set i | 0 <= i < |holes| :: holes[i]) && forall i | 0 <= i < |holes| :: a[holes[i]] in domains[i])
  {
    forall a | a in Cands(holes, domains, vs)
      ensures a.Keys == (set i | 0 <= i < |holes| :: holes[i]) && forall i | 0 <= i < |holes| :: a[holes[i]] in domains[i]
    {
      var k :| 0 <= k < |vs| && Cands(holes, domains, vs)[k] == a;
      BuildKeys(holes, domains, vs[k], |holes|);
      BuildAt(holes, domains, vs[k], |holes|);
    }
  }

  /** The candidates built from in-range vectors all lie in the space. */
  lemma CandsInSpace(hs: HoleSpace, vs: seq<seq<int>>)
    requires forall k | 0 <= k < |vs| :: InRange(Sizes(DomainsOf(hs, HolesOf(hs))), vs[k])
    ensures forall a | a in Cands(HolesOf(hs), DomainsOf(hs, HolesOf(hs)), vs) :: InSpace(hs, a)
  {
    LayoutDistinct(hs);
    CandsByPosition(HolesOf(hs), DomainsOf(hs, HolesOf(hs)), vs);
    forall a | a in Cands(HolesOf(hs), DomainsOf(hs, HolesOf(hs)), vs) ensures InSpace(hs, a) {
      InSpaceByPosition(hs, a);
    }
  }

  /** The run of the counter from zero reaches every assignment of the listed holes. */
  lemma OrbitCandsComplete(holes: seq<string>, domains: seq<seq<Value>>, a: Assignment)
    requires |holes| == |domains| && DistinctNames(holes)
    requires forall i | 0 <= i < |domains| :: |domains[i]| > 0
    requires a.Keys == set i | 0 <= i < |holes| :: holes[i]
    requires forall i | 0 <= i < |holes| :: a[holes[i]] in domains[i]
    ensures InRange(Sizes(domains), Zeros(|holes|))
    ensures a in Cands(holes, domains, Orbit(Sizes(domains), Zeros(|holes|)))
  {
    var sizes := Sizes(domains);
    var v := Unbuild(holes, domains, a);
    ZerosInRange(sizes);
    ZerosRank(sizes);
    RankBounds(sizes, v);
    OrbitComplete(sizes, Zeros(|holes|), v);
    var o := Orbit(sizes, Zeros(|holes|));
    var k :| 0 <= k < |o| && o[k] == v;
    assert Cands(holes, domains, o)[k] == a;
  }

  /** Every assignment of a non-empty space is a candidate. */
  lemma SpaceInCands(hs: HoleSpace, a: Assignment)
    requires InSpace(hs, a) && |HolesOf(hs)| > 0 && !SomeEmpty(DomainsOf(hs, HolesOf(hs)))
    ensures a in AllCandidates(hs)
  {
    LayoutDistinct(hs);
    InSpaceByPosition(hs, a);
    OrbitCandsComplete(HolesOf(hs), DomainsOf(hs, HolesOf(hs)), a);
  }

  /** An empty domain leaves the space without assignments. */
  lemma EmptyDomainEmptySpace(hs: HoleSpace, i: nat)
    requires i < |HolesOf(hs)| && |DomainsOf(hs, HolesOf(hs))[i]| == 0
    ensures forall a :: !InSpace(hs, a)
  {
    forall a ensures !InSpace(hs, a) {
      InSpaceByPosition(hs, a);
    }
  }

  /** The candidates of a non-empty layout are pairwise distinct. */
  lemma CandsDistinct(hs: HoleSpace)
    requires |HolesOf(hs)| > 0 && !SomeEmpty(DomainsOf(hs, HolesOf(hs)))
    ensures NoRepeats(AllCandidates(hs))
  {
    var holes := HolesOf(hs);
    var domains := DomainsOf(hs, holes);
    LayoutDistinct(hs);
    AllCandidatesRun(hs, holes, domains);
    OrbitCandsDistinct(holes, domains);
  }

  lemma AllCandidatesRun(hs: HoleSpace, holes: seq<string>, domains: seq<seq<Value>>)
    requires holes == HolesOf(hs) && domains == DomainsOf(hs, holes)
    requires |holes| > 0 && !SomeEmpty(domains)
    ensures InRange(Sizes(domains), Zeros(|holes|))
    ensures AllCandidates(hs) == Cands(holes, domains, Orbit(Sizes(domains), Zeros(|holes|)))
  {
    ZerosInRange(Sizes(domains));
  }

  /** A generator just reset over `hs` will yield the unforbidden candidates of `hs`. */
  lemma StartRemaining(hs: HoleSpace, cs: seq<Constraint>, holes: seq<string>, domains: seq<seq<Value>>, exhausted: bool)
    requires holes == HolesOf(hs) && (forall h | h in holes :: h in hs) && domains == DomainsOf(hs, holes)
    requires exhausted == (|holes| == 0 || SomeEmpty(domains))
    ensures !exhausted ==> InRange(Sizes(domains), Zeros(|holes|))
    ensures !exhausted ==> Filter(cs, Cands(holes, domains, Orbit(Sizes(domains), Zeros(|holes|)))) == Filter(cs, AllCandidates(hs))
    ensures exhausted ==> Filter(cs, AllCandidates(hs)) == []
  {
    if !exhausted {
      AllCandidatesRun(hs, holes, domains);
    }
  }

  /** No candidate is listed twice. */
  predicate NoRepeats(cs: seq<Assignment>)
  {
    forall j, k | 0 <= j < k < |cs| :: cs[j] != cs[k]
  }

  /** Distinct names and distinct values give distinct candidates along the counter's run. */
  lemma OrbitCandsDistinct(holes: seq<string>, domains: seq<seq<Value>>)
    requires |holes| == |domains| && !SomeEmpty(domains)
    requires DistinctNames(holes) && forall i | 0 <= i < |domains| :: DistinctValues(domains[i])
    ensures InRange(Sizes(domains), Zeros(|holes|))
    ensures NoRepeats(Cands(holes, domains, Orbit(Sizes(domains), Zeros(|holes|))))
  {
    var sizes := Sizes(domains);
    ZerosInRange(sizes);
    var o := Orbit(sizes, Zeros(|holes|));
    OrbitDistinct(sizes, Zeros(|holes|));
    var cs := Cands(holes, domains, o);
    forall j, k | 0 <= j < k < |cs| ensures cs[j] != cs[k] {
      if cs[j] == cs[k] {
        BuildInjective(holes, domains, o[j], o[k]);
      }
    }
  }

  /**
   * A fresh, unconstrained enumeration: nothing for an empty hole space; otherwise exactly the
   * product of the domain sizes many candidates, pairwise distinct, and precisely the
   * assignments of the space.
   */
  lemma AllCandidatesSpec(hs: HoleSpace)
    ensures |hs| == 0 ==> AllCandidates(hs) == []
    ensures |hs| > 0 ==> |AllCandidates(hs)| == Prod(Sizes(DomainsOf(hs, HolesOf(hs))))
    ensures forall a :: a in AllCandidates(hs) <==> |hs| > 0 && InSpace(hs, a)
    ensures NoRepeats(AllCandidates(hs))
  {
    AllCandidatesSize(hs);
    AllCandidatesMembers(hs);
    if |HolesOf(hs)| > 0 && !SomeEmpty(DomainsOf(hs, HolesOf(hs))) {
      CandsDistinct(hs);
    }
  }

  /** There is one candidate per index vector in range. */
  lemma AllCandidatesSize(hs: HoleSpace)
    ensures |hs| == 0 ==> AllCandidates(hs) == []
    ensures |hs| > 0 ==> |AllCandidates(hs)| == Prod(Sizes(DomainsOf(hs, HolesOf(hs))))
  {
    var holes := HolesOf(hs);
    var domains := DomainsOf(hs, holes);
    var sizes := Sizes(domains);
    if |holes| > 0 && SomeEmpty(domains) {
      var i :| 0 <= i < |domains| && |domains[i]| == 0;
      ProdZero(sizes, i);
    } else if |holes| > 0 {
      AllCandidatesRun(hs, holes, domains);
      OrbitRanks(sizes, Zeros(|holes|));
      ZerosRank(sizes);
    }
  }

  /** The candidates are exactly the assignments of the space. */
  lemma AllCandidatesMembers(hs: HoleSpace)
    ensures forall a :: a in AllCandidates(hs) <==> |hs| > 0 && InSpace(hs, a)
  {
    var holes := HolesOf(hs);
    var domains := DomainsOf(hs, holes);
    var sizes := Sizes(domains);
    if |holes| > 0 && SomeEmpty(domains) {
      var i :| 0 <= i < |domains| && |domains[i]| == 0;
      EmptyDomainEmptySpace(hs, i);
    } else if |holes| > 0 {
      AllCandidatesRun(hs, holes, domains);
      CandsInSpace(hs, Orbit(sizes, Zeros(|holes|)));
      forall a | InSpace(hs, a) ensures a in AllCandidates(hs) {
        SpaceInCands(hs, a);
      }
    }
  }

  /**
   * The enumeration order: the k-th candidate is built from the index vector whose mixed-radix
   * value (rightmost position fastest) is k.
   */
  lemma AllCandidatesOrder(hs: HoleSpace, k: nat)
    requires k < |AllCandidates(hs)|
    ensures exists v ::
      (InRange(Sizes(DomainsOf(hs, HolesOf(hs))), v) && Rank(Sizes(DomainsOf(hs, HolesOf(hs))), v) == k &&
       AllCandidates(hs)[k] == Build(HolesOf(hs), DomainsOf(hs, HolesOf(hs)), v, |HolesOf(hs)|))
  {
    var holes := HolesOf(hs);
    var sizes := Sizes(DomainsOf(hs, holes));
    ZerosInRange(sizes);
    OrbitRanks(sizes, Zeros(|holes|));
    ZerosRank(sizes);
    var v := Orbit(sizes, Zeros(|holes|))[k];
    assert Rank(sizes, v) == k;
  }

  /** What a generator yields carries no forbidden candidate and loses no allowed one. */
  lemma PrunedSpec(cs: seq<Constraint>, hs: HoleSpace)
    ensures forall a :: a in Filter(cs, AllCandidates(hs)) <==> |hs| > 0 && InSpace(hs, a) && !Violates(cs, a)
  {
    AllCandidatesSpec(hs);
    FilterSpec(cs, AllCandidates(hs));
  }
}

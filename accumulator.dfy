// The counterexample accumulator: every violation seen across iterations, deduplicated by the
// test case it describes, with a flag saying whether the current patch satisfies it.
module Accumulator {
  import opened Wrappers
  import opened Values
  import opened Schema

  /**
   * The content key of a violation: its inputs (an empty list when they are falsy), its expected
   * output, and the first two path entries (file and function, empty strings when missing).
   */
  datatype CexKey = CexKey(inputs: Json, expected: Json, file: Json, func: Json)

  /** `hash_violation`, stated as the key tuple the digest is taken of. */
  function HashViolation(v: Violation): CexKey
  {
    var ev := GetEvidence(v);
    CexKey(if Truthy(ev.inputs) then ev.inputs else JList([]), ev.expected,
           if |v.path| > 0 then v.path[0] else JStr(""),
           if |v.path| > 1 then v.path[1] else JStr(""))
  }

  /** The key ignores the id, the message and the severity. */
  lemma KeyIgnoresMetadata(v: Violation, id: string, message: string, severity: string)
    ensures HashViolation(v.(id := id, message := message, severity := severity)) == HashViolation(v)
  {
  }

  /** Violations whose evidence and path agree on inputs, expected output, file and function share a key. */
  lemma KeyByContent(v: Violation, w: Violation)
    requires GetEvidence(v).inputs == GetEvidence(w).inputs && GetEvidence(v).expected == GetEvidence(w).expected
    requires |v.path| >= 2 && |w.path| >= 2 && v.path[..2] == w.path[..2]
    ensures HashViolation(v) == HashViolation(w)
  {
    assert v.path[0] == v.path[..2][0] && v.path[1] == v.path[..2][1];
    assert w.path[0] == w.path[..2][0] && w.path[1] == w.path[..2][1];
  }

  /** An accumulated counterexample: the violation, the iteration it was first seen in, and the flag. */
  datatype Counterexample = Counterexample(violation: Violation, iteration: int, satisfied: bool)

  function KeysOf(recs: seq<Counterexample>): set<CexKey>
  {
    set i | 0 <= i < |recs| :: HashViolation(recs[i].violation)
  }

  ghost predicate DistinctKeys(recs: seq<Counterexample>)
  {
    forall i, j | 0 <= i < j < |recs| :: HashViolation(recs[i].violation) != HashViolation(recs[j].violation)
  }

  /** The violations of the records not yet satisfied, in insertion order. */
  function Unsatisfied(recs: seq<Counterexample>): seq<Violation>
  {
    if recs == [] then []
    else Unsatisfied(recs[..|recs| - 1]) + (if recs[|recs| - 1].satisfied then [] else [recs[|recs| - 1].violation])
  }

  /** `add` on records `recs`: the new records and whether the violation was new. */
  function Adding(recs: seq<Counterexample>, v: Violation, iteration: int): (seq<Counterexample>, bool)
  {
    if HashViolation(v) in KeysOf(recs) then (recs, false)
    else (recs + [Counterexample(v, iteration, false)], true)
  }

  /** `add_all`: `add` on each violation in turn, and how many of them were new. */
  function AddingAll(recs: seq<Counterexample>, vs: seq<Violation>, iteration: int): (seq<Counterexample>, nat)
  {
    if vs == [] then (recs, 0)
    else
      var (before, n) := AddingAll(recs, vs[..|vs| - 1], iteration);
      var (after, added) := Adding(before, vs[|vs| - 1], iteration);
      (after, if added then n + 1 else n)
  }

  /** `mark_satisfied` for key `k`: the first record with that key is flagged. */
  function Marking(recs: seq<Counterexample>, k: CexKey): (seq<Counterexample>, bool)
  {
    if recs == [] then ([], false)
    else if HashViolation(recs[0].violation) == k then ([recs[0].(satisfied := true)] + recs[1..], true)
    else
      var (rest, found) := Marking(recs[1..], k);
      ([recs[0]] + rest, found)
  }

  /** `mark_all_satisfied`: `mark_satisfied` on each violation in turn, and how many were found. */
  function MarkingAll(recs: seq<Counterexample>, vs: seq<Violation>): (seq<Counterexample>, nat)
  {
    if vs == [] then (recs, 0)
    else
      var (before, n) := MarkingAll(recs, vs[..|vs| - 1]);
      var (after, found) := Marking(before, HashViolation(vs[|vs| - 1]));
      (after, if found then n + 1 else n)
  }

  /** The keys of a list of violations. */
  function ViolationKeys(vs: seq<Violation>): set<CexKey>
  {
    set i | 0 <= i < |vs| :: HashViolation(vs[i])
  }

  class CounterexampleAccumulator {
    var accumulated: seq<Counterexample>
    var seen: set<CexKey>

    /** The seen-key set is exactly the records' keys, and no two records share a key. */
    ghost predicate Valid()
      reads this
    {
      seen == KeysOf(accumulated) && DistinctKeys(accumulated)
    }

    constructor()
      ensures Valid() && accumulated == [] && seen == {}
    {
      accumulated := [];
      seen := {};
    }

    /** `add`: appends an unsatisfied record when the key is new, and says whether it was. */
    method Add(v: Violation, iteration: int) returns (added: bool)
      requires Valid()
      modifies this
      ensures Valid()
      ensures (accumulated, added) == Adding(old(accumulated), v, iteration)
    {
      var key := HashViolation(v);
      AddingSpec(accumulated, v, iteration);
      if key !in seen {
        accumulated := accumulated + [Counterexample(v, iteration, false)];
        seen := seen + {key};
        return true;
      }
      return false;
    }

    /** `add_all`. */
    method AddAll(vs: seq<Violation>, iteration: int) returns (count: nat)
      requires Valid()
      modifies this
      ensures Valid()
      ensures (accumulated, count) == AddingAll(old(accumulated), vs, iteration)
    {
      count := 0;
      for i := 0 to |vs|
        invariant Valid()
        invariant (accumulated, count) == AddingAll(old(accumulated), vs[..i], iteration)
      {
        assert vs[..i + 1][..i] == vs[..i];
        var added := Add(vs[i], iteration);
        if added {
          count := count + 1;
        }
      }
      assert vs[..|vs|] == vs;
    }

    /** `get_all`: the unsatisfied violations, in insertion order. */
    method GetAll() returns (vs: seq<Violation>)
      ensures vs == Unsatisfied(accumulated)
    {
      vs := [];
      for i := 0 to |accumulated|
        invariant vs == Unsatisfied(accumulated[..i])
      {
        assert accumulated[..i + 1][..i] == accumulated[..i];
        if !accumulated[i].satisfied {
          vs := vs + [accumulated[i].violation];
        }
      }
      assert accumulated[..|accumulated|] == accumulated;
    }

    /** `get_all_with_metadata`: every record, satisfied or not. */
    method GetAllWithMetadata() returns (recs: seq<Counterexample>)
      ensures recs == accumulated
    {
      recs := accumulated;
    }

    /** `mark_satisfied`: flags the first record with the violation's key, if there is one. */
    method MarkSatisfied(v: Violation) returns (found: bool)
      requires Valid()
      modifies this
      ensures Valid() && seen == old(seen)
      ensures (accumulated, found) == Marking(old(accumulated), HashViolation(v))
    {
      var key := HashViolation(v);
      MarkingSpec(accumulated, key);
      for i := 0 to |accumulated|
        invariant forall j | 0 <= j < i :: HashViolation(accumulated[j].violation) != key
      {
        if HashViolation(accumulated[i].violation) == key {
          MarkingAt(accumulated, key, i);
          accumulated := accumulated[i := accumulated[i].(satisfied := true)];
          return true;
        }
      }
      MarkingNone(accumulated, key);
      return false;
    }

    /** `mark_all_satisfied`. */
    method MarkAllSatisfied(vs: seq<Violation>) returns (count: nat)
      requires Valid()
      modifies this
      ensures Valid() && seen == old(seen)
      ensures (accumulated, count) == MarkingAll(old(accumulated), vs)
    {
      count := 0;
      for i := 0 to |vs|
        invariant Valid() && seen == old(seen)
        invariant (accumulated, count) == MarkingAll(old(accumulated), vs[..i])
      {
        assert vs[..i + 1][..i] == vs[..i];
        var found := MarkSatisfied(vs[i]);
        if found {
          count := count + 1;
        }
      }
      assert vs[..|vs|] == vs;
    }

    /** `count`: every record, satisfied or not. */
    method Count() returns (n: nat)
      ensures n == |accumulated|
    {
      n := |accumulated|;
    }

    /** `count_unsatisfied`: the length of `get_all`, never more than `count`. */
    method CountUnsatisfied() returns (n: nat)
      ensures n == |Unsatisfied(accumulated)| && n <= |accumulated|
    {
      var vs := GetAll();
      UnsatisfiedSpec(accumulated);
      n := |vs|;
    }

    /** `clear`: empties both the records and the keys. */
    method Clear()
      modifies this
      ensures Valid() && accumulated == [] && seen == {}
    {
      accumulated := [];
      seen := {};
    }
  }

  // ----- Properties -----

  lemma KeysOfAppend(recs: seq<Counterexample>, r: Counterexample)
    ensures KeysOf(recs + [r]) == KeysOf(recs) + {HashViolation(r.violation)}
  {
    var s := recs + [r];
    assert forall i | 0 <= i < |recs| :: s[i] == recs[i];
    assert s[|recs|] == r;
  }

  /**
   * `add` appends exactly when the key is new, never touches the records already there, and
   * keeps the keys distinct; the keys grow by the violation's key.
   */
  lemma AddingSpec(recs: seq<Counterexample>, v: Violation, iteration: int)
    ensures var (after, added) := Adding(recs, v, iteration);
      (added <==> HashViolation(v) !in KeysOf(recs)) &&
      after[..|recs|] == recs &&
      (added ==> after == recs + [Counterexample(v, iteration, false)]) &&
      (!added ==> after == recs) &&
      KeysOf(after) == KeysOf(recs) + {HashViolation(v)} &&
      (DistinctKeys(recs) ==> DistinctKeys(after))
  {
    var r := Counterexample(v, iteration, false);
    KeysOfAppend(recs, r);
    assert (recs + [r])[..|recs|] == recs;
    if HashViolation(v) !in KeysOf(recs) && DistinctKeys(recs) {
      var s := recs + [r];
      forall i, j | 0 <= i < j < |s| ensures HashViolation(s[i].violation) != HashViolation(s[j].violation) {
        if j == |recs| {
          assert s[i] == recs[i];
        } else {
          assert s[i] == recs[i] && s[j] == recs[j];
        }
      }
    }
  }

  /** Distinct keys: one key per record. */
  lemma {:induction false} DistinctKeysCount(recs: seq<Counterexample>)
    requires DistinctKeys(recs)
    ensures |KeysOf(recs)| == |recs|
    decreases |recs|
  {
    if recs != [] {
      var init := recs[..|recs| - 1];
      var last := recs[|recs| - 1];
      assert recs == init + [last];
      KeysOfAppend(init, last);
      assert DistinctKeys(init) by {
        forall i, j | 0 <= i < j < |init| ensures HashViolation(init[i].violation) != HashViolation(init[j].violation) {
          assert init[i] == recs[i] && init[j] == recs[j];
        }
      }
      DistinctKeysCount(init);
      assert HashViolation(last.violation) !in KeysOf(init) by {
        forall i | 0 <= i < |init| ensures HashViolation(init[i].violation) != HashViolation(last.violation) {
          assert init[i] == recs[i];
        }
      }
    }
  }

  /**
   * `add_all` keeps the records already there as a prefix and the keys distinct, adds the
   * violations' keys, and returns how many records it appended.
   */
  lemma {:induction false} AddingAllShape(recs: seq<Counterexample>, vs: seq<Violation>, iteration: int)
    requires DistinctKeys(recs)
    ensures var (after, count) := AddingAll(recs, vs, iteration);
      recs <= after && DistinctKeys(after) &&
      KeysOf(after) == KeysOf(recs) + ViolationKeys(vs) &&
      |after| == |recs| + count
    decreases |vs|
  {
    if vs == [] {
      assert ViolationKeys(vs) == {};
    } else {
      var init := vs[..|vs| - 1];
      var last := vs[|vs| - 1];
      AddingAllShape(recs, init, iteration);
      var (before, n) := AddingAll(recs, init, iteration);
      AddingSpec(before, last, iteration);
      var (after, added) := Adding(before, last, iteration);
      PrefixTrans(recs, before, after);
      ViolationKeysSnoc(vs);
    }
  }

  lemma PrefixTrans<T>(a: seq<T>, b: seq<T>, c: seq<T>)
    requires a <= b && |b| <= |c| && c[..|b|] == b
    ensures a <= c
  {
    assert c[..|a|] == b[..|a|];
  }

  lemma ViolationKeysSnoc(vs: seq<Violation>)
    requires vs != []
    ensures ViolationKeys(vs) == ViolationKeys(vs[..|vs| - 1]) + {HashViolation(vs[|vs| - 1])}
  {
    assert forall i | 0 <= i < |vs| - 1 :: vs[i] == vs[..|vs| - 1][i];
  }

  /** The number `add_all` returns is the number of the violations' keys that were new. */
  lemma AddingAllCount(recs: seq<Counterexample>, vs: seq<Violation>, iteration: int)
    requires DistinctKeys(recs)
    ensures AddingAll(recs, vs, iteration).1 == |ViolationKeys(vs) - KeysOf(recs)|
  {
    AddingAllShape(recs, vs, iteration);
    var (after, count) := AddingAll(recs, vs, iteration);
    DistinctKeysCount(recs);
    DistinctKeysCount(after);
    UnionCount(KeysOf(recs), ViolationKeys(vs));
  }

  lemma UnionCount<T>(a: set<T>, b: set<T>)
    ensures |a + b| == |a| + |b - a|
  {
    assert a + b == a + (b - a);
    assert a !! (b - a);
  }

  /** The unsatisfied violations come from records, one per unsatisfied record. */
  lemma {:induction false} UnsatisfiedSpec(recs: seq<Counterexample>)
    ensures |Unsatisfied(recs)| <= |recs|
    ensures forall i | 0 <= i < |recs| && !recs[i].satisfied :: recs[i].violation in Unsatisfied(recs)
    ensures forall v | v in Unsatisfied(recs) :: exists i :: 0 <= i < |recs| && !recs[i].satisfied && recs[i].violation == v
    ensures (forall i | 0 <= i < |recs| :: !recs[i].satisfied) ==> |Unsatisfied(recs)| == |recs|
    decreases |recs|
  {
    if recs != [] {
      var init := recs[..|recs| - 1];
      UnsatisfiedSpec(init);
      assert forall i | 0 <= i < |init| :: init[i] == recs[i];
    }
  }

  /** With no record before `i` carrying key `k`, marking flags record `i`. */
  lemma {:induction false} MarkingAt(recs: seq<Counterexample>, k: CexKey, i: nat)
    requires i < |recs| && HashViolation(recs[i].violation) == k
    requires forall j | 0 <= j < i :: HashViolation(recs[j].violation) != k
    ensures Marking(recs, k) == (recs[i := recs[i].(satisfied := true)], true)
    decreases i
  {
    if i > 0 {
      assert forall j | 0 <= j < i - 1 :: recs[1..][j] == recs[j + 1];
      MarkingAt(recs[1..], k, i - 1);
      assert [recs[0]] + recs[1..][i - 1 := recs[i].(satisfied := true)] == recs[i := recs[i].(satisfied := true)];
    } else {
      assert [recs[0].(satisfied := true)] + recs[1..] == recs[0 := recs[0].(satisfied := true)];
    }
  }

  /** With no record carrying key `k`, marking changes nothing. */
  lemma {:induction false} MarkingNone(recs: seq<Counterexample>, k: CexKey)
    requires forall j | 0 <= j < |recs| :: HashViolation(recs[j].violation) != k
    ensures Marking(recs, k) == (recs, false)
    decreases |recs|
  {
    if recs != [] {
      assert forall j | 0 <= j < |recs| - 1 :: recs[1..][j] == recs[j + 1];
      MarkingNone(recs[1..], k);
      assert [recs[0]] + recs[1..] == recs;
    }
  }

  /**
   * Marking never removes or reorders a record and never clears a flag: it reports whether the
   * key is present, and then flags exactly the first record with that key.
   */
  lemma MarkingSpec(recs: seq<Counterexample>, k: CexKey)
    ensures var (after, found) := Marking(recs, k);
      |after| == |recs| && KeysOf(after) == KeysOf(recs) &&
      (found <==> k in KeysOf(recs)) &&
      (forall i | 0 <= i < |recs| ::
        after[i].violation == recs[i].violation && after[i].iteration == recs[i].iteration &&
        (recs[i].satisfied ==> after[i].satisfied)) &&
      (!found ==> after == recs) &&
      (DistinctKeys(recs) ==> DistinctKeys(after)) &&
      (found ==> exists i :: (0 <= i < |recs| && HashViolation(recs[i].violation) == k &&
                              after == recs[i := recs[i].(satisfied := true)]))
  {
    if i :| 0 <= i < |recs| && HashViolation(recs[i].violation) == k {
      var first := FirstWithKey(recs, k, i);
      MarkingAt(recs, k, first);
      var after := recs[first := recs[first].(satisfied := true)];
      assert forall j | 0 <= j < |recs| :: after[j].violation == recs[j].violation;
    } else {
      MarkingNone(recs, k);
    }
  }

  /** The first index whose record carries key `k`, given one at `i`. */
  lemma {:induction false} FirstWithKey(recs: seq<Counterexample>, k: CexKey, i: nat) returns (first: nat)
    requires i < |recs| && HashViolation(recs[i].violation) == k
    ensures first <= i && HashViolation(recs[first].violation) == k
    ensures forall j | 0 <= j < first :: HashViolation(recs[j].violation) != k
    decreases i
  {
    if j :| 0 <= j < i && HashViolation(recs[j].violation) == k {
      first := FirstWithKey(recs, k, j);
    } else {
      first := i;
    }
  }

  /** Marking several violations keeps the records, their keys and their order, and finds at most one per violation. */
  lemma {:induction false} MarkingAllSpec(recs: seq<Counterexample>, vs: seq<Violation>)
    ensures var (after, count) := MarkingAll(recs, vs);
      |after| == |recs| && KeysOf(after) == KeysOf(recs) && count <= |vs| &&
      (forall i | 0 <= i < |recs| :: after[i].violation == recs[i].violation && (recs[i].satisfied ==> after[i].satisfied)) &&
      (DistinctKeys(recs) ==> DistinctKeys(after)) &&
      |Unsatisfied(after)| <= |Unsatisfied(recs)|
    decreases |vs|
  {
    if vs != [] {
      var init := vs[..|vs| - 1];
      MarkingAllSpec(recs, init);
      var (before, n) := MarkingAll(recs, init);
      MarkingSpec(before, HashViolation(vs[|vs| - 1]));
      var (after, found) := Marking(before, HashViolation(vs[|vs| - 1]));
      UnsatisfiedShrinks(before, after);
    }
  }

  /** Raising flags can only shrink the unsatisfied list. */
  lemma {:induction false} UnsatisfiedShrinks(recs: seq<Counterexample>, after: seq<Counterexample>)
    requires |after| == |recs|
    requires forall i | 0 <= i < |recs| :: recs[i].satisfied ==> after[i].satisfied
    ensures |Unsatisfied(after)| <= |Unsatisfied(recs)|
    decreases |recs|
  {
    if recs != [] {
      var n := |recs| - 1;
      assert forall i | 0 <= i < n :: recs[..n][i] == recs[i] && after[..n][i] == after[i];
      UnsatisfiedShrinks(recs[..n], after[..n]);
    }
  }
}

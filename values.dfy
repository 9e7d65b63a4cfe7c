// The Python values the engine manipulates: JSON-like trees, hole placeholders and hole values.
module Values {
  import opened Wrappers
  import opened Strings
  import Sorting

  /**
   * Any value a patch argument, an evidence dictionary or a parsed manifest can hold.
   * `JNull` is Python's `None`; `JObj` is a dictionary with string keys; `JHole(name)`
   * is a `HoleRef` placeholder object.
   */
  datatype Json =
    | JNull
    | JBool(b: bool)
    | JInt(i: int)
    | JStr(s: string)
    | JList(items: seq<Json>)
    | JObj(fields: map<string, Json>)
    | JHole(name: string)

  /** A list of strings as JSON strings. */
  function Strs(xs: seq<string>): (r: seq<Json>)
    ensures |r| == |xs| && forall i :: 0 <= i < |xs| ==> r[i] == JStr(xs[i])
  {
    seq(|xs|, i requires 0 <= i < |xs| => JStr(xs[i]))
  }

  /** A value a hole can take: the hashable scalars a hole space is built from. */
  datatype Value = VStr(s: string) | VInt(i: int) | VBool(b: bool) | VNone

  function ToJson(v: Value): Json
  {
    match v
    case VStr(s) => JStr(s)
    case VInt(i) => JInt(i)
    case VBool(b) => JBool(b)
    case VNone => JNull
  }

  /** The hole value a JSON scalar denotes; containers and placeholders denote none. */
  function FromJson(j: Json): (r: Option<Value>)
    ensures r.Some? <==> (j.JNull? || j.JBool? || j.JInt? || j.JStr?)
    ensures r.Some? ==> ToJson(r.value) == j
  {
    match j
    case JNull => Some(VNone)
    case JBool(b) => Some(VBool(b))
    case JInt(i) => Some(VInt(i))
    case JStr(s) => Some(VStr(s))
    case _ => None
  }

  lemma FromJsonToJson(v: Value)
    ensures FromJson(ToJson(v)) == Some(v)
  {
  }

  /** Python's `str(v)`. */
  function PyStr(v: Value): string
  {
    match v
    case VStr(s) => s
    case VInt(i) => IntToStr(i)
    case VBool(b) => if b then "True" else "False"
    case VNone => "None"
  }

  /** Python's `str(j)` for scalars and placeholders; containers get a fixed rendering. */
  function Render(j: Json): string
  {
    match j
    case JList(_) => "[...]"
    case JObj(_) => "{...}"
    case JHole(n) => "HoleRef(name='" + n + "')"
    case _ => PyStr(FromJson(j).value)
  }

  /** Python truthiness. */
  predicate Truthy(j: Json)
  {
    match j
    case JNull => false
    case JBool(b) => b
    case JInt(i) => i != 0
    case JStr(s) => s != ""
    case JList(xs) => xs != []
    case JObj(m) => m != map[]
    case JHole(_) => true
  }

  function TagRank(v: Value): nat
  {
    match v
    case VNone => 0
    case VBool(_) => 1
    case VInt(_) => 2
    case VStr(_) => 3
  }

  /**
   * The order of `sorted(domain, key=str)`: by `str()` first. Python leaves values with the
   * same `str()` in set-iteration order; the model breaks such ties by kind, then numerically.
   */
  predicate ValueLess(a: Value, b: Value)
  {
    StrLess(PyStr(a), PyStr(b)) ||
    (PyStr(a) == PyStr(b) && (TagRank(a) < TagRank(b) || (a.VInt? && b.VInt? && a.i < b.i)))
  }

  lemma ValueLessStrictTotal(s: set<Value>)
    ensures Sorting.StrictTotalOn(s, ValueLess)
  {
    forall a | a in s ensures !ValueLess(a, a) {
      StrLessIrreflexive(PyStr(a));
    }
    forall a, b, c | a in s && b in s && c in s && ValueLess(a, b) && ValueLess(b, c)
      ensures ValueLess(a, c)
    {
      if StrLess(PyStr(a), PyStr(b)) && StrLess(PyStr(b), PyStr(c)) {
        StrLessTransitive(PyStr(a), PyStr(b), PyStr(c));
      }
    }
    forall a, b | a in s && b in s && a != b ensures ValueLess(a, b) || ValueLess(b, a) {
      if PyStr(a) != PyStr(b) {
        StrLessTotal(PyStr(a), PyStr(b));
      }
    }
  }

  lemma StrLessStrictTotal(s: set<string>)
    ensures Sorting.StrictTotalOn(s, StrLess)
  {
    forall a | a in s ensures !StrLess(a, a) {
      StrLessIrreflexive(a);
    }
    forall a, b, c | a in s && b in s && c in s && StrLess(a, b) && StrLess(b, c)
      ensures StrLess(a, c)
    {
      StrLessTransitive(a, b, c);
    }
    forall a, b | a in s && b in s && a != b ensures StrLess(a, b) || StrLess(b, a) {
      StrLessTotal(a, b);
    }
  }

  /** Python's `sorted(names)` on a set of strings. */
  function SortStrings(s: set<string>): (r: seq<string>)
    ensures |r| == |s|
    ensures forall x :: x in r <==> x in s
  {
    StrLessStrictTotal(s);
    Sorting.SortSet(s, StrLess)
  }

  lemma SortStringsSorted(s: set<string>)
    ensures forall i, j :: 0 <= i < j < |SortStrings(s)| ==> StrLess(SortStrings(s)[i], SortStrings(s)[j])
  {
    StrLessStrictTotal(s);
    Sorting.SortSetSorted(s, StrLess);
  }

  /** Python's `sorted(domain, key=str)` on a set of hole values. */
  function SortValues(s: set<Value>): (r: seq<Value>)
    ensures |r| == |s|
    ensures forall x :: x in r <==> x in s
  {
    ValueLessStrictTotal(s);
    Sorting.SortSet(s, ValueLess)
  }

  lemma SortValuesSorted(s: set<Value>)
    ensures forall i, j :: 0 <= i < j < |SortValues(s)| ==> ValueLess(SortValues(s)[i], SortValues(s)[j])
  {
    ValueLessStrictTotal(s);
    Sorting.SortSetSorted(s, ValueLess);
  }

  /** A sorted listing has no repeated element. */
  lemma SortValuesDistinct(s: set<Value>)
    ensures forall i, j :: 0 <= i < |SortValues(s)| && 0 <= j < |SortValues(s)| && i != j ==>
      SortValues(s)[i] != SortValues(s)[j]
  {
    var r := SortValues(s);
    SortValuesSorted(s);
    forall i, j | 0 <= i < |r| && 0 <= j < |r| && i != j ensures r[i] != r[j] {
      ValueLessStrictTotal(s);
      if i < j { assert ValueLess(r[i], r[j]); } else { assert ValueLess(r[j], r[i]); }
      assert r[i] in s && r[j] in s;
    }
  }

  /** Every value within a sorted domain is ordered by its `str()` rendering. */
  lemma SortValuesByStr(s: set<Value>)
    ensures forall i, j :: 0 <= i < j < |SortValues(s)| ==>
      StrLess(PyStr(SortValues(s)[i]), PyStr(SortValues(s)[j])) ||
      PyStr(SortValues(s)[i]) == PyStr(SortValues(s)[j])
  {
    SortValuesSorted(s);
  }

  /** Python's `d.get(key, default)`; `None` when `d` is not a dictionary (AttributeError). */
  function Get(d: Json, key: string, default: Json): (r: Option<Json>)
    ensures r.Some? <==> d.JObj?
    ensures r.Some? && key in d.fields ==> r.value == d.fields[key]
    ensures r.Some? && key !in d.fields ==> r.value == default
  {
    if d.JObj? then Some(if key in d.fields then d.fields[key] else default) else None
  }

  const EmptyObj: Json := JObj(map[])
}

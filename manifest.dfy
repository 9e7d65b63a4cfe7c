// Parsed Kubernetes manifests, and the Python dictionary operations that the patch operations
// and the oracles perform on them: chained `.get` with defaults, `in`, iterating a container
// list, and "create the child dictionary when it is missing".
module Manifest {
  import opened Wrappers
  import opened Strings
  import opened Values
  import opened Schema

  /** One file of a K8s artifact: its path and its parsed YAML document. */
  datatype K8sFile = K8sFile(path: string, manifest: Json)

  /** The files of a K8s artifact, in the order its dictionary lists them. */
  type Files = seq<K8sFile>

  /** The Python exceptions that manifest code raises. Their message texts are not modelled. */
  datatype PyError = KeyError(key: string) | TypeError | AttributeError | ValueError(message: string)

  function ErrorName(e: PyError): string
  {
    match e
    case KeyError(_) => "KeyError"
    case TypeError => "TypeError"
    case AttributeError => "AttributeError"
    case ValueError(_) => "ValueError"
  }

  /** The oracle failure an exception raised inside an oracle becomes. */
  function AsOracleError(e: PyError): (o: OracleError)
    ensures o.typeName == ErrorName(e)
    ensures e.ValueError? ==> o.message == e.message
  {
    match e
    case KeyError(k) => OracleError("KeyError", "'" + k + "'")
    case ValueError(m) => OracleError("ValueError", m)
    case _ => OracleError(ErrorName(e), "")
  }

  /** `d.get(key, default)`: an `AttributeError` when `d` is not a dictionary. */
  function GetOr(d: Json, key: string, default: Json): (r: Result<Json, PyError>)
    ensures r.Ok? <==> d.JObj?
    ensures r.Ok? ==> r.value == (if key in d.fields then d.fields[key] else default)
  {
    if d.JObj? then Ok(if key in d.fields then d.fields[key] else default) else Err(AttributeError)
  }

  /** `d.get(k0, {}).get(k1, {})...` along `keys`. */
  function Dig(d: Json, keys: seq<string>): Result<Json, PyError>
    decreases |keys|
  {
    if keys == [] then Ok(d)
    else
      var child :- GetOr(d, keys[0], EmptyObj);
      Dig(child, keys[1..])
  }

  /** `manifest.get("spec", {}).get("template", {}).get("spec", {}).get("containers", [])`. */
  function ContainersField(m: Json): Result<Json, PyError>
  {
    var pod :- Dig(m, ["spec", "template", "spec"]);
    GetOr(pod, "containers", JList([]))
  }

  /**
   * The pod-template label `key`,
   * `manifest.get("spec", {}).get("template", {}).get("metadata", {}).get("labels", {}).get(key, default)`.
   */
  function PodLabel(m: Json, key: string, default: Json): Result<Json, PyError>
  {
    var labels :- Dig(m, ["spec", "template", "metadata", "labels"]);
    GetOr(labels, key, default)
  }

  /**
   * The elements a `for container in containers` loop handles. A list yields its items, and an
   * empty dictionary or string yields nothing. A non-empty dictionary or string yields strings,
   * which have no `.get`, so every such loop body fails on its first element. Anything else
   * cannot be iterated at all.
   */
  function ContainerItems(cs: Json): (r: Result<seq<Json>, PyError>)
    ensures cs.JList? ==> r == Ok(cs.items)
    ensures r.Ok? ==> cs.JList? || !Truthy(cs)
  {
    match cs
    case JList(items) => Ok(items)
    case JObj(m) => if m == map[] then Ok([]) else Err(AttributeError)
    case JStr(s) => if s == "" then Ok([]) else Err(AttributeError)
    case _ => Err(TypeError)
  }

  /** Python's `needle in hay` for a string needle. */
  function PyIn(needle: string, hay: Json): (r: Result<bool, PyError>)
    ensures hay.JStr? ==> r == Ok(Contains(hay.s, needle))
    ensures hay.JList? ==> r == Ok(JStr(needle) in hay.items)
    ensures hay.JObj? ==> r == Ok(needle in hay.fields)
    ensures r.Err? <==> !(hay.JStr? || hay.JList? || hay.JObj?)
  {
    match hay
    case JStr(s) => Ok(Contains(s, needle))
    case JList(items) => Ok(JStr(needle) in items)
    case JObj(m) => Ok(needle in m)
    case _ => Err(TypeError)
  }

  /** A value a set or a dictionary key can hold. */
  predicate Hashable(j: Json)
  {
    !(j.JList? || j.JObj?)
  }

  /** The string a value must be to serve as a dictionary key of the model. */
  function AsKey(j: Json): (r: Result<string, PyError>)
    ensures r.Ok? <==> j.JStr?
    ensures r.Ok? ==> r.value == j.s
  {
    if j.JStr? then Ok(j.s) else Err(TypeError)
  }

  /** `args[key]`. */
  function Arg(args: map<string, Json>, key: string): (r: Result<Json, PyError>)
    ensures r.Ok? <==> key in args
    ensures r.Ok? ==> r.value == args[key]
    ensures r.Err? ==> r.error == KeyError(key)
  {
    if key in args then Ok(args[key]) else Err(KeyError(key))
  }

  /**
   * `if k not in m: m[k] = {}` followed by an item assignment into `m[k]`: the child dictionary,
   * empty when missing. A child that is not a dictionary makes the assignment fail.
   */
  function ChildObj(m: map<string, Json>, k: string): (r: Result<map<string, Json>, PyError>)
    ensures k !in m ==> r == Ok(map[])
    ensures k in m && m[k].JObj? ==> r == Ok(m[k].fields)
    ensures k in m && !m[k].JObj? ==> r.Err?
  {
    if k !in m then Ok(map[])
    else if m[k].JObj? then Ok(m[k].fields)
    else Err(TypeError)
  }

  /** The value at `path` through nested dictionaries, if every step is a dictionary holding the key. */
  function At(j: Json, path: seq<string>): Option<Json>
    decreases |path|
  {
    if path == [] then Some(j)
    else if j.JObj? && path[0] in j.fields then At(j.fields[path[0]], path[1..])
    else None
  }

  /** Every dictionary along `path` that already exists is a dictionary. */
  predicate PathOpen(m: map<string, Json>, path: seq<string>)
    decreases |path|
  {
    path == [] ||
    (path[0] !in m) ||
    (m[path[0]].JObj? && PathOpen(m[path[0]].fields, path[1..]))
  }

  /**
   * `m[p0][p1]...[key] = v`, creating each missing dictionary along `path` first, as the
   * `if "x" not in d: d["x"] = {}` chains of the patch operations do.
   */
  function SetIn(m: map<string, Json>, path: seq<string>, key: string, v: Json): Result<map<string, Json>, PyError>
    decreases |path|
  {
    if path == [] then Ok(m[key := v])
    else
      var child :- ChildObj(m, path[0]);
      var child' :- SetIn(child, path[1..], key, v);
      Ok(m[path[0] := JObj(child')])
  }

  /**
   * Setting a nested key succeeds exactly when the existing path is made of dictionaries. The key
   * then holds `v`, the first key of the path holds a dictionary, and every other top-level key
   * keeps its value.
   */
  lemma SetInSpec(m: map<string, Json>, path: seq<string>, key: string, v: Json)
    ensures SetIn(m, path, key, v).Ok? <==> PathOpen(m, path)
    ensures SetIn(m, path, key, v).Ok? ==>
      var r := SetIn(m, path, key, v).value;
      At(JObj(r), path + [key]) == Some(v) &&
      r.Keys == m.Keys + {if path == [] then key else path[0]} &&
      (forall k :: k in m && k != (if path == [] then key else path[0]) ==> r[k] == m[k])
  {
    SetInOpen(m, path, key, v);
    if SetIn(m, path, key, v).Ok? {
      SetInValue(m, path, key, v);
    }
  }

  /** Setting a nested key fails exactly on a path through something that is not a dictionary. */
  lemma {:induction false} SetInOpen(m: map<string, Json>, path: seq<string>, key: string, v: Json)
    ensures SetIn(m, path, key, v).Ok? <==> PathOpen(m, path)
    decreases |path|
  {
    if path != [] {
      var c := ChildObj(m, path[0]);
      if c.Ok? {
        SetInOpen(c.value, path[1..], key, v);
        if path[0] !in m {
          assert PathOpen(map[], path[1..]);
        }
      }
    }
  }

  /** A nested key that could be set holds `v`; the other top-level keys are kept. */
  lemma {:induction false} SetInValue(m: map<string, Json>, path: seq<string>, key: string, v: Json)
    requires SetIn(m, path, key, v).Ok?
    ensures var r := SetIn(m, path, key, v).value;
      At(JObj(r), path + [key]) == Some(v) &&
      r.Keys == m.Keys + {if path == [] then key else path[0]} &&
      (forall k :: k in m && k != (if path == [] then key else path[0]) ==> r[k] == m[k])
    decreases |path|
  {
    if path == [] {
      assert At(JObj(m[key := v]), [key]) == At(v, []);
    } else {
      var c := ChildObj(m, path[0]).value;
      SetInValue(c, path[1..], key, v);
      var s := SetIn(c, path[1..], key, v).value;
      var r := m[path[0] := JObj(s)];
      assert (path + [key])[1..] == path[1..] + [key];
      assert At(JObj(r), path + [key]) == At(JObj(s), path[1..] + [key]);
    }
  }

  /** `dict.pop(k, None)` when `k` names a child of `m`: every other key is kept. */
  function Pop(m: map<string, Json>, k: string): (r: map<string, Json>)
    ensures r.Keys == m.Keys - {k}
    ensures forall j :: j in r ==> r[j] == m[j]
  {
    m - {k}
  }

  /** An oracle's outcome once its exceptions are caught as oracle failures. */
  function AsOutcome(r: Result<seq<Violation>, PyError>): (o: OracleOutcome)
    ensures r.Ok? <==> o.Ok?
    ensures r.Ok? ==> o.value == r.value
    ensures r.Err? ==> o.error == AsOracleError(r.error)
  {
    match r
    case Ok(vs) => Ok(vs)
    case Err(e) => Err(AsOracleError(e))
  }

  /**
   * What a `for x in xs: violations.extend(check(x))` loop reports: every report, in order. The
   * first check that raises ends the whole loop with its exception.
   */
  function Joined<T>(xs: seq<T>, check: T -> Result<seq<Violation>, PyError>): Result<seq<Violation>, PyError>
  {
    if xs == [] then Ok([])
    else
      var a :- check(xs[0]);
      var b :- Joined(xs[1..], check);
      Ok(a + b)
  }

  lemma {:induction false} JoinedAppend<T>(xs: seq<T>, ys: seq<T>, check: T -> Result<seq<Violation>, PyError>)
    ensures Joined(xs + ys, check) == (var a :- Joined(xs, check); var b :- Joined(ys, check); Ok(a + b))
  {
    if xs == [] {
      assert xs + ys == ys;
      if Joined(ys, check).Ok? {
        assert [] + Joined(ys, check).value == Joined(ys, check).value;
      }
    } else {
      assert (xs + ys)[0] == xs[0];
      assert (xs + ys)[1..] == xs[1..] + ys;
      JoinedAppend(xs[1..], ys, check);
      var h := check(xs[0]);
      if h.Ok? {
        var a := Joined(xs[1..], check);
        var b := Joined(ys, check);
        if a.Ok? && b.Ok? {
          assert h.value + (a.value + b.value) == (h.value + a.value) + b.value;
        }
      }
    }
  }

  /** One more element in the loop: its report follows the reports so far. */
  lemma JoinedStep<T>(xs: seq<T>, i: nat, check: T -> Result<seq<Violation>, PyError>)
    requires i < |xs|
    ensures Joined(xs[..i + 1], check) ==
      (var a :- Joined(xs[..i], check); var b :- check(xs[i]); Ok(a + b))
  {
    assert xs[..i + 1] == xs[..i] + [xs[i]];
    JoinedAppend(xs[..i], [xs[i]], check);
    assert [xs[i]][0] == xs[i] && [xs[i]][1..] == [];
    if check(xs[i]).Ok? {
      assert check(xs[i]).value + [] == check(xs[i]).value;
    }
  }

  /** A check that raises part-way ends the whole loop with that exception. */
  lemma JoinedPrefixErr<T>(xs: seq<T>, i: nat, check: T -> Result<seq<Violation>, PyError>)
    requires i <= |xs| && Joined(xs[..i], check).Err?
    ensures Joined(xs, check) == Joined(xs[..i], check)
  {
    assert xs == xs[..i] + xs[i..];
    JoinedAppend(xs[..i], xs[i..], check);
  }

  /** The loop itself. */
  method JoinEach<T>(xs: seq<T>, check: T -> Result<seq<Violation>, PyError>) returns (r: Result<seq<Violation>, PyError>)
    ensures r == Joined(xs, check)
  {
    var vs: seq<Violation> := [];
    for i := 0 to |xs|
      invariant Joined(xs[..i], check) == Ok(vs)
    {
      var found := check(xs[i]);
      JoinedStep(xs, i, check);
      if found.Err? {
        JoinedPrefixErr(xs, i + 1, check);
        return Err(found.error);
      }
      vs := vs + found.value;
    }
    assert xs[..|xs|] == xs;
    r := Ok(vs);
  }
}

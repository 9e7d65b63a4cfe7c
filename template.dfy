// Patch templates: patches whose arguments may be hole placeholders, and their instantiation.
module Template {
  import opened Wrappers
  import opened Values
  import opened Schema

  /** A patch whose top-level arguments may be `JHole` placeholders. */
  datatype PatchTemplate = PatchTemplate(ops: seq<PatchOp>)

  /** The values each hole may take. */
  type HoleSpace = map<string, set<Value>>

  /** One point of the search space: a value per hole. */
  type Assignment = map<string, Value>

  /** The `ValueError` raised for a placeholder the assignment does not cover. */
  datatype InstantiateError = HoleNotFound(hole: string, available: set<string>)

  /** Argument `v` is a placeholder the assignment has no value for. */
  predicate Unassigned(v: Json, a: Assignment)
  {
    v.JHole? && v.name !in a
  }

  /** Every top-level placeholder of `op` names a hole of the assignment. */
  predicate OpAssigned(op: PatchOp, a: Assignment)
  {
    forall k | k in op.args :: !Unassigned(op.args[k], a)
  }

  /** Some top-level argument of `op` is the placeholder for hole `h`. */
  ghost predicate Refers(op: PatchOp, h: string)
  {
    exists k :: k in op.args && op.args[k] == JHole(h)
  }

  /** Every top-level placeholder of the template names a hole of the assignment. */
  predicate AllHolesAssigned(t: PatchTemplate, a: Assignment)
  {
    forall i | 0 <= i < |t.ops| :: OpAssigned(t.ops[i], a)
  }

  /** One argument after instantiation: a placeholder becomes its hole's value. */
  function FillArg(v: Json, a: Assignment): Json
  {
    if v.JHole? && v.name in a then ToJson(a[v.name]) else v
  }

  function FillOp(op: PatchOp, a: Assignment): PatchOp
  {
    PatchOp(op.op, map k | k in op.args :: FillArg(op.args[k], a))
  }

  function FillOps(ops: seq<PatchOp>, a: Assignment): (r: seq<PatchOp>)
    ensures |r| == |ops| && forall i | 0 <= i < |ops| :: r[i] == FillOp(ops[i], a)
  {
    seq(|ops|, i requires 0 <= i < |ops| => FillOp(ops[i], a))
  }

  /**
   * `instantiate(template, assignment)`. It succeeds exactly when every placeholder names an
   * assigned hole, and then yields the filled operations. Otherwise it reports, with the holes
   * that are available, an unassigned hole of the first operation that has one; which of that
   * operation's unassigned holes is reported depends on the dictionary's key order, which the
   * model leaves open.
   */
  method Instantiate(t: PatchTemplate, a: Assignment) returns (r: Result<Patch, InstantiateError>)
    ensures r.Ok? <==> AllHolesAssigned(t, a)
    ensures r.Ok? ==> r.value == Patch(FillOps(t.ops, a))
    ensures r.Err? ==> r.error.available == a.Keys && r.error.hole !in a
    ensures r.Err? ==> exists i :: 0 <= i < |t.ops| && Refers(t.ops[i], r.error.hole) &&
                                (forall j | 0 <= j < i :: OpAssigned(t.ops[j], a))
  {
    var concrete: seq<PatchOp> := [];
    for i := 0 to |t.ops|
      invariant forall j | 0 <= j < i :: OpAssigned(t.ops[j], a)
      invariant |concrete| == i && forall n | 0 <= n < i :: concrete[n] == FillOp(t.ops[n], a)
    {
      var op := InstantiateOp(t.ops[i], a);
      if op.Err? {
        return Err(op.error);
      }
      concrete := concrete + [op.value];
    }
    assert concrete == FillOps(t.ops, a);
    return Ok(Patch(concrete));
  }

  /** The argument loop of `instantiate` for one operation, in an unspecified key order. */
  method InstantiateOp(op: PatchOp, a: Assignment) returns (r: Result<PatchOp, InstantiateError>)
    ensures r.Ok? <==> OpAssigned(op, a)
    ensures r.Ok? ==> r.value == FillOp(op, a)
    ensures r.Err? ==> r.error.available == a.Keys && r.error.hole !in a && Refers(op, r.error.hole)
  {
    var rest := op.args.Keys;
    var newArgs: map<string, Json> := map[];
    while rest != {}
      invariant rest <= op.args.Keys
      invariant forall k | k in op.args && k !in rest :: k in newArgs && !Unassigned(op.args[k], a)
      invariant forall k | k in newArgs :: k in op.args && k !in rest && newArgs[k] == FillArg(op.args[k], a)
      decreases |rest|
    {
      var k :| k in rest;
      var v := op.args[k];
      if v.JHole? && v.name !in a {
        assert op.args[k] == JHole(v.name);
        return Err(HoleNotFound(v.name, a.Keys));
      }
      newArgs := newArgs[k := if v.JHole? then ToJson(a[v.name]) else v];
      rest := rest - {k};
    }
    FillOpUnique(op, a, newArgs);
    return Ok(PatchOp(op.op, newArgs));
  }

  /**
   * The filled template keeps every operation name and argument key, replaces each assigned
   * placeholder by its hole's value and keeps every other argument.
   */
  lemma FillOpsShape(t: PatchTemplate, a: Assignment)
    ensures forall i | 0 <= i < |t.ops| ::
      FillOps(t.ops, a)[i].op == t.ops[i].op && FillOps(t.ops, a)[i].args.Keys == t.ops[i].args.Keys
    ensures forall i, k | 0 <= i < |t.ops| && k in t.ops[i].args && t.ops[i].args[k].JHole? && t.ops[i].args[k].name in a ::
      FillOps(t.ops, a)[i].args[k] == ToJson(a[t.ops[i].args[k].name])
    ensures forall i, k | 0 <= i < |t.ops| && k in t.ops[i].args && !t.ops[i].args[k].JHole? ::
      FillOps(t.ops, a)[i].args[k] == t.ops[i].args[k]
  {
  }

  /** Once every placeholder is assigned, no top-level placeholder is left. */
  lemma FilledHasNoHoles(t: PatchTemplate, a: Assignment)
    requires AllHolesAssigned(t, a)
    ensures forall i, k | 0 <= i < |t.ops| && k in FillOps(t.ops, a)[i].args ::
      !FillOps(t.ops, a)[i].args[k].JHole?
  {
    forall i, k | 0 <= i < |t.ops| && k in FillOps(t.ops, a)[i].args
      ensures !FillOps(t.ops, a)[i].args[k].JHole?
    {
      assert OpAssigned(t.ops[i], a);
      assert k in t.ops[i].args && !Unassigned(t.ops[i].args[k], a);
    }
  }

  /** A template without placeholders is instantiated to its own operations. */
  lemma ConcreteFillsToItself(t: PatchTemplate, a: Assignment)
    requires forall i, k | 0 <= i < |t.ops| && k in t.ops[i].args :: !t.ops[i].args[k].JHole?
    ensures FillOps(t.ops, a) == t.ops
  {
    forall i | 0 <= i < |t.ops| ensures FillOps(t.ops, a)[i] == t.ops[i] {
      assert FillOp(t.ops[i], a).args == t.ops[i].args;
    }
  }

  /** Only the values of the holes the template names matter. */
  lemma FillDependsOnReferredHoles(t: PatchTemplate, a: Assignment, b: Assignment)
    requires forall i, h | 0 <= i < |t.ops| && Refers(t.ops[i], h) :: (h in a <==> h in b) && (h in a ==> a[h] == b[h])
    ensures FillOps(t.ops, a) == FillOps(t.ops, b)
    ensures AllHolesAssigned(t, a) <==> AllHolesAssigned(t, b)
  {
    forall i | 0 <= i < |t.ops| ensures FillOp(t.ops[i], a) == FillOp(t.ops[i], b) && (OpAssigned(t.ops[i], a) <==> OpAssigned(t.ops[i], b)) {
      forall k | k in t.ops[i].args ensures FillArg(t.ops[i].args[k], a) == FillArg(t.ops[i].args[k], b) && (Unassigned(t.ops[i].args[k], a) <==> Unassigned(t.ops[i].args[k], b)) {
        if t.ops[i].args[k].JHole? {
          assert Refers(t.ops[i], t.ops[i].args[k].name);
        }
      }
    }
  }

  lemma FillOpUnique(op: PatchOp, a: Assignment, args: map<string, Json>)
    requires args.Keys == op.args.Keys
    requires forall k | k in args :: args[k] == FillArg(op.args[k], a)
    ensures FillOp(op, a) == PatchOp(op.op, args)
  {
  }

  /** A placeholder written out for storage: `{"$hole": name}`. */
  function SerializeValue(v: Json): Json
  {
    if v.JHole? then JObj(map["$hole" := JStr(v.name)]) else v
  }

  /** Reading a stored argument back; a marker whose name is not a string is rejected. */
  function DeserializeValue(v: Json): Option<Json>
  {
    if v.JObj? && "$hole" in v.fields then
      (if v.fields["$hole"].JStr? then Some(JHole(v.fields["$hole"].s)) else None)
    else Some(v)
  }

  function SerializeOp(op: PatchOp): Json
  {
    JObj(map["op" := JStr(op.op),
             "args" := JObj(map k | k in op.args :: SerializeValue(op.args[k]))])
  }

  function SerializeOps(ops: seq<PatchOp>): (r: seq<Json>)
    ensures |r| == |ops|
    ensures forall i | 0 <= i < |ops| :: r[i] == SerializeOp(ops[i])
  {
    seq(|ops|, i requires 0 <= i < |ops| => SerializeOp(ops[i]))
  }

  /** `serialize_template`: `{"ops": [{"op": name, "args": {...}}, ...]}`. */
  function SerializeTemplate(t: PatchTemplate): Json
  {
    JObj(map["ops" := JList(SerializeOps(t.ops))])
  }

  function DeserializeArgs(args: map<string, Json>): Option<map<string, Json>>
  {
    if forall k | k in args :: DeserializeValue(args[k]).Some? then
      Some(map k | k in args :: DeserializeValue(args[k]).value)
    else None
  }

  function DeserializeOp(d: Json): Option<PatchOp>
  {
    if d.JObj? && "op" in d.fields && "args" in d.fields && d.fields["op"].JStr? && d.fields["args"].JObj? then
      match DeserializeArgs(d.fields["args"].fields)
      case None => None
      case Some(args) => Some(PatchOp(d.fields["op"].s, args))
    else None
  }

  function DeserializeOps(ds: seq<Json>): Option<seq<PatchOp>>
    decreases |ds|
  {
    if ds == [] then Some([])
    else
      match DeserializeOp(ds[0])
      case None => None
      case Some(op) =>
        match DeserializeOps(ds[1..])
        case None => None
        case Some(rest) => Some([op] + rest)
  }

  /** `deserialize_template`; `None` where Python would raise on a malformed record. */
  function DeserializeTemplate(d: Json): Option<PatchTemplate>
  {
    if d.JObj? && "ops" in d.fields && d.fields["ops"].JList? then
      match DeserializeOps(d.fields["ops"].items)
      case None => None
      case Some(ops) => Some(PatchTemplate(ops))
    else None
  }

  /** No concrete top-level argument is a dictionary that looks like a stored placeholder. */
  ghost predicate NoMarkerArgs(t: PatchTemplate)
  {
    forall i, k :: 0 <= i < |t.ops| && k in t.ops[i].args ==>
      !(t.ops[i].args[k].JObj? && "$hole" in t.ops[i].args[k].fields)
  }

  lemma ArgsRoundTrip(args: map<string, Json>, sargs: map<string, Json>)
    requires sargs.Keys == args.Keys
    requires forall k | k in sargs :: DeserializeValue(sargs[k]) == Some(args[k])
    ensures DeserializeArgs(sargs) == Some(args)
  {
    var back := map k | k in sargs :: DeserializeValue(sargs[k]).value;
    assert back == args;
  }

  lemma OpRoundTrip(op: PatchOp)
    requires forall k | k in op.args :: !(op.args[k].JObj? && "$hole" in op.args[k].fields)
    ensures DeserializeOp(SerializeOp(op)) == Some(op)
  {
    var sargs := map k | k in op.args :: SerializeValue(op.args[k]);
    forall k | k in sargs ensures DeserializeValue(sargs[k]) == Some(op.args[k]) {
      if op.args[k].JHole? {
        assert sargs[k] == JObj(map["$hole" := JStr(op.args[k].name)]);
      }
    }
    ArgsRoundTrip(op.args, sargs);
  }

  lemma {:induction false} OpsRoundTrip(ops: seq<PatchOp>)
    requires forall i, k :: 0 <= i < |ops| && k in ops[i].args ==>
      !(ops[i].args[k].JObj? && "$hole" in ops[i].args[k].fields)
    ensures DeserializeOps(SerializeOps(ops)) == Some(ops)
    decreases |ops|
  {
    var ds := SerializeOps(ops);
    if ops != [] {
      OpRoundTrip(ops[0]);
      OpsRoundTrip(ops[1..]);
      assert ds[1..] == SerializeOps(ops[1..]);
      assert ops == [ops[0]] + ops[1..];
    }
  }

  /** Storing a template and reading it back gives the same template. */
  lemma TemplateRoundTrip(t: PatchTemplate)
    requires NoMarkerArgs(t)
    ensures DeserializeTemplate(SerializeTemplate(t)) == Some(t)
  {
    OpsRoundTrip(t.ops);
  }

  /** A concrete dictionary argument carrying a "$hole" key comes back as a placeholder. */
  lemma MarkerArgDoesNotRoundTrip()
    ensures var t := PatchTemplate([PatchOp("EnsureLabel", map["value" := JObj(map["$hole" := JStr("env")])])]);
      DeserializeTemplate(SerializeTemplate(t)) == Some(PatchTemplate([PatchOp("EnsureLabel", map["value" := JHole("env")])]))
  {
    var op := PatchOp("EnsureLabel", map["value" := JObj(map["$hole" := JStr("env")])]);
    var sargs := map k | k in op.args :: SerializeValue(op.args[k]);
    assert sargs == op.args;
    ArgsRoundTrip(map["value" := JHole("env")], sargs);
    assert DeserializeOp(SerializeOp(op)) == Some(PatchOp("EnsureLabel", map["value" := JHole("env")]));
    var ds := SerializeOps([op]);
    assert ds == [SerializeOp(op)];
    assert DeserializeOps(ds[1..]) == Some([]);
    var back := PatchOp("EnsureLabel", map["value" := JHole("env")]);
    assert DeserializeOp(ds[0]) == Some(back);
    assert [back] + [] == [back];
    assert DeserializeOps(ds) == Some([back]);
    assert SerializeTemplate(PatchTemplate([op])).fields["ops"] == JList(ds);
  }
}

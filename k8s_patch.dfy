// The K8s patch operations. Each operation edits every Deployment manifest of an artifact and
// keeps every other file as it is; a patch applies its operations one after another.
module K8sPatch {
  import opened Wrappers
  import opened Strings
  import opened Values
  import opened Schema
  import opened Synth
  import opened Manifest

  /** The CPU and memory requests and limits of a named resource profile. */
  datatype Resources = Resources(requestCpu: string, requestMemory: string, limitCpu: string, limitMemory: string)

  /** The resource profiles, in the order the profile dictionary lists them. */
  const ProfileNames: seq<string> := ["small", "medium", "large"]

  function Profile(name: string): (r: Option<Resources>)
    ensures r.Some? <==> name in ProfileNames
  {
    if name == "small" then Some(Resources("100m", "128Mi", "200m", "256Mi"))
    else if name == "medium" then Some(Resources("500m", "512Mi", "1000m", "1Gi"))
    else if name == "large" then Some(Resources("1000m", "1Gi", "2000m", "2Gi"))
    else None
  }

  /** The `resources` dictionary a profile gives a container. */
  function ResourcesJson(p: Resources): Json
  {
    JObj(map["requests" := JObj(map["cpu" := JStr(p.requestCpu), "memory" := JStr(p.requestMemory)]),
             "limits" := JObj(map["cpu" := JStr(p.limitCpu), "memory" := JStr(p.limitMemory)])])
  }

  /** The edit one operation makes to the named containers of a Deployment. */
  datatype ContainerEdit = ImageVersion(version: Json) | SecurityBaseline | ResourceProfile(profile: Resources)

  /** The edit one operation makes to each Deployment manifest. */
  datatype DeploymentEdit =
    | Label(scope: Json, key: string, value: Json)
    | Containers(name: Json, edit: ContainerEdit)
    | Replicas(replicas: Json)
    | PriorityClass(className: Json)

  /** The label scope covers the Deployment's own metadata, or the pod template's. */
  predicate ScopeHasDeployment(scope: Json)
  {
    scope == JStr("deployment") || scope == JStr("both")
  }

  predicate ScopeHasPodTemplate(scope: Json)
  {
    scope == JStr("podTemplate") || scope == JStr("both")
  }

  const DeploymentLabels: seq<string> := ["metadata", "labels"]
  const PodLabels: seq<string> := ["spec", "template", "metadata", "labels"]

  /** EnsureLabel on one Deployment: set `key` in each label dictionary the scope names. */
  function EditLabels(m: map<string, Json>, scope: Json, key: string, value: Json): Result<map<string, Json>, PyError>
  {
    var m1 :- if ScopeHasDeployment(scope) then SetIn(m, DeploymentLabels, key, value) else Ok(m);
    if ScopeHasPodTemplate(scope) then SetIn(m1, PodLabels, key, value) else Ok(m1)
  }

  /** A version that names a whole image: an ECR path or a URL. */
  predicate FullImage(v: string)
  {
    Contains(v, ".dkr.ecr.") || StartsWith(v, "http://") || StartsWith(v, "https://")
  }

  /**
   * The image EnsureImageVersion gives a container whose image is `current`. A full ECR path or
   * URL replaces the image. A bare version replaces the tag of the current image, or is appended
   * to the container name when the container has no image.
   */
  function NewImage(current: Json, name: Json, version: Json): (r: Result<Json, PyError>)
    ensures version.JStr? && FullImage(version.s) ==> r == Ok(version)
    ensures version.JStr? && !FullImage(version.s) && current.JStr? ==>
      r == Ok(JStr((if Contains(current.s, ":") then BeforeFirst(current.s, ':')
                    else if current.s != "" then current.s
                    else Render(name)) + ":" + version.s))
    ensures r.Ok? ==> r.value == version || r.value.JStr?
  {
    var full :- PyIn(".dkr.ecr.", version);
    if full then Ok(version)
    else if !version.JStr? then Err(AttributeError)
    else if StartsWith(version.s, "http://") || StartsWith(version.s, "https://") then Ok(version)
    else
      var tagged :- PyIn(":", current);
      var base :- if tagged then (if current.JStr? then Ok(BeforeFirst(current.s, ':')) else Err(AttributeError))
                  else Ok(Render(if Truthy(current) then current else name));
      Ok(JStr(base + ":" + version.s))
  }

  /** The edit applied to one container the operation names. */
  function EditContainer(c: map<string, Json>, name: Json, e: ContainerEdit): Result<map<string, Json>, PyError>
  {
    match e
    case ImageVersion(version) =>
      var image :- NewImage(Field(c, "image", JStr("")), name, version);
      Ok(c["image" := image])
    case SecurityBaseline =>
      var sc :- ChildObj(c, "securityContext");
      var sc' := sc["runAsNonRoot" := JBool(true)]["allowPrivilegeEscalation" := JBool(false)]
                   ["readOnlyRootFilesystem" := JBool(true)];
      var caps :- ChildObj(sc', "capabilities");
      Ok(c["securityContext" := JObj(sc'["capabilities" := JObj(caps["drop" := JList([JStr("ALL")])])])])
    case ResourceProfile(p) => Ok(c["resources" := ResourcesJson(p)])
  }

  /** One element of the container list: edited when its `name` is the one asked for. */
  function EditOne(c: Json, name: Json, e: ContainerEdit): Result<Json, PyError>
  {
    if !c.JObj? then Err(AttributeError)
    else if Field(c.fields, "name", JNull) != name then Ok(c)
    else
      var c' :- EditContainer(c.fields, name, e);
      Ok(JObj(c'))
  }

  function EditNamed(cs: seq<Json>, name: Json, e: ContainerEdit): Result<seq<Json>, PyError>
  {
    if cs == [] then Ok([])
    else
      var head :- EditOne(cs[0], name, e);
      var tail :- EditNamed(cs[1..], name, e);
      Ok([head] + tail)
  }

  /** The dictionary a value holds, empty for anything else. */
  function Fields(j: Json): map<string, Json>
  {
    if j.JObj? then j.fields else map[]
  }

  const ContainersPath: seq<string> := ["spec", "template", "spec", "containers"]

  /** The manifest with `cs` as its pod template's container list. */
  function WithContainers(m: map<string, Json>, cs: seq<Json>): map<string, Json>
  {
    var spec := Fields(Field(m, "spec", EmptyObj));
    var template := Fields(Field(spec, "template", EmptyObj));
    var pod := Fields(Field(template, "spec", EmptyObj));
    m["spec" := JObj(spec["template" := JObj(template["spec" := JObj(pod["containers" := JList(cs)])])])]
  }

  /**
   * A container operation on one Deployment. The containers are edited in place, so the manifest
   * changes only where an edited container differs; when nothing matched, it is unchanged.
   */
  function EditContainersOf(m: map<string, Json>, name: Json, e: ContainerEdit): Result<map<string, Json>, PyError>
  {
    var cs :- ContainersField(JObj(m));
    var items :- ContainerItems(cs);
    var edited :- EditNamed(items, name, e);
    if edited == items then Ok(m) else Ok(WithContainers(m, edited))
  }

  /** The edit one operation makes to one Deployment manifest. */
  function EditDeployment(m: map<string, Json>, e: DeploymentEdit): Result<map<string, Json>, PyError>
  {
    match e
    case Label(scope, key, value) => EditLabels(m, scope, key, value)
    case Containers(name, ce) => EditContainersOf(m, name, ce)
    case Replicas(n) => SetIn(m, ["spec"], "replicas", n)
    case PriorityClass(n) =>
      if n == JNull then
        var spec :- ChildObj(m, "spec");
        Ok(m["spec" := JObj(Pop(spec, "priorityClassName"))])
      else SetIn(m, ["spec"], "priorityClassName", n)
  }

  predicate IsDeployment(f: K8sFile)
  {
    f.manifest.JObj? && Field(f.manifest.fields, "kind", JNull) == JStr("Deployment")
  }

  /**
   * One file under an operation. A document that is not a dictionary has no `.get`; a Deployment
   * is edited; every other manifest is kept.
   */
  function EditFile(f: K8sFile, e: DeploymentEdit): (r: Result<K8sFile, PyError>)
    ensures !f.manifest.JObj? ==> r == Err(AttributeError)
    ensures f.manifest.JObj? && !IsDeployment(f) ==> r == Ok(f)
    ensures IsDeployment(f) ==>
      (r.Ok? <==> EditDeployment(f.manifest.fields, e).Ok?) &&
      (r.Ok? ==> r.value == K8sFile(f.path, JObj(EditDeployment(f.manifest.fields, e).value)))
  {
    if !f.manifest.JObj? then Err(AttributeError)
    else if !IsDeployment(f) then Ok(f)
    else
      var m :- EditDeployment(f.manifest.fields, e);
      Ok(K8sFile(f.path, JObj(m)))
  }

  /** An operation over all files, in order; the first file that fails ends it. */
  function EditFiles(files: Files, e: DeploymentEdit): Result<Files, PyError>
  {
    if files == [] then Ok([])
    else
      var f :- EditFile(files[0], e);
      var rest :- EditFiles(files[1..], e);
      Ok([f] + rest)
  }

  /** The profile an EnsureResourceProfile argument names; an unknown one is a `ValueError`. */
  function ProfileOf(j: Json): (r: Result<Resources, PyError>)
    ensures r.Ok? <==> j.JStr? && j.s in ProfileNames
    ensures r.Ok? ==> Profile(j.s) == Some(r.value)
  {
    if !Hashable(j) then Err(TypeError)
    else if j.JStr? && Profile(j.s).Some? then Ok(Profile(j.s).value)
    else Err(ValueError("Unknown resource profile: " + Render(j) + ". Valid: ['small', 'medium', 'large']"))
  }

  /** EnsureLabel: `scope` defaults to "both"; `key` and `value` are required. */
  function EnsureLabel(files: Files, args: map<string, Json>): Result<Files, PyError>
  {
    var scope := Field(args, "scope", JStr("both"));
    var key :- Arg(args, "key");
    var value :- Arg(args, "value");
    var k :- AsKey(key);
    EditFiles(files, Label(scope, k, value))
  }

  function EnsureImageVersion(files: Files, args: map<string, Json>): Result<Files, PyError>
  {
    var name :- Arg(args, "container");
    var version :- Arg(args, "version");
    EditFiles(files, Containers(name, ImageVersion(version)))
  }

  function EnsureSecurityBaseline(files: Files, args: map<string, Json>): Result<Files, PyError>
  {
    var name :- Arg(args, "container");
    EditFiles(files, Containers(name, SecurityBaseline))
  }

  /** EnsureResourceProfile rejects an unknown profile before it looks at any file. */
  function EnsureResourceProfile(files: Files, args: map<string, Json>): (r: Result<Files, PyError>)
    ensures "container" in args && "profile" in args && ProfileOf(args["profile"]).Err? ==>
      r == Err(ProfileOf(args["profile"]).error)
  {
    var name :- Arg(args, "container");
    var profile :- Arg(args, "profile");
    var p :- ProfileOf(profile);
    EditFiles(files, Containers(name, ResourceProfile(p)))
  }

  function EnsureReplicas(files: Files, args: map<string, Json>): Result<Files, PyError>
  {
    var n :- Arg(args, "replicas");
    EditFiles(files, Replicas(n))
  }

  function EnsurePriorityClass(files: Files, args: map<string, Json>): Result<Files, PyError>
  {
    var n :- Arg(args, "name");
    EditFiles(files, PriorityClass(n))
  }

  const OpNames: seq<string> :=
    ["EnsureLabel", "EnsureImageVersion", "EnsureSecurityBaseline", "EnsureResourceProfile",
     "EnsureReplicas", "EnsurePriorityClass"]

  /** One operation, dispatched on its name; an unknown name is a `ValueError`. */
  function ApplyOp(files: Files, op: PatchOp): (r: Result<Files, PyError>)
    ensures op.op !in OpNames ==> r == Err(ValueError("Unknown K8s patch operation: " + op.op))
  {
    if op.op == "EnsureLabel" then EnsureLabel(files, op.args)
    else if op.op == "EnsureImageVersion" then EnsureImageVersion(files, op.args)
    else if op.op == "EnsureSecurityBaseline" then EnsureSecurityBaseline(files, op.args)
    else if op.op == "EnsureResourceProfile" then EnsureResourceProfile(files, op.args)
    else if op.op == "EnsureReplicas" then EnsureReplicas(files, op.args)
    else if op.op == "EnsurePriorityClass" then EnsurePriorityClass(files, op.args)
    else Err(ValueError("Unknown K8s patch operation: " + op.op))
  }

  /** A patch: its operations applied left to right, each to the previous one's result. */
  function ApplyOps(files: Files, ops: seq<PatchOp>): Result<Files, PyError>
    decreases |ops|
  {
    if ops == [] then Ok(files)
    else
      var next :- ApplyOp(files, ops[0]);
      ApplyOps(next, ops[1..])
  }

  /** `K8sArtifact.apply_patch` as the repair loop sees it: any exception is a failed application. */
  function ApplyPatch(files: Files, p: Patch): Option<Files>
  {
    match ApplyOps(files, p.ops)
    case Ok(r) => Some(r)
    case Err(_) => None
  }

  // ----- The operations as the source runs them: loops over files and containers -----

  /** The container loop of one container operation. */
  method EditContainerList(cs: seq<Json>, name: Json, e: ContainerEdit) returns (r: Result<seq<Json>, PyError>)
    ensures r == EditNamed(cs, name, e)
  {
    var done: seq<Json> := [];
    for i := 0 to |cs|
      invariant EditNamedAppendAt(cs, i, name, e, done)
    {
      var c := EditOne(cs[i], name, e);
      EditNamedStep(cs, i, name, e);
      if c.Err? {
        EditNamedPrefixErr(cs, i + 1, name, e);
        return Err(c.error);
      }
      done := done + [c.value];
    }
    assert cs[..|cs|] == cs;
    r := Ok(done);
  }

  /** The loop invariant of `EditContainerList`: the first `i` containers are edited into `done`. */
  ghost predicate EditNamedAppendAt(cs: seq<Json>, i: nat, name: Json, e: ContainerEdit, done: seq<Json>)
  {
    i <= |cs| && EditNamed(cs[..i], name, e) == Ok(done)
  }

  /** A container operation on one Deployment manifest. */
  method EditContainersIn(m: map<string, Json>, name: Json, e: ContainerEdit) returns (r: Result<map<string, Json>, PyError>)
    ensures r == EditContainersOf(m, name, e)
  {
    var cs := ContainersField(JObj(m));
    if cs.Err? {
      return Err(cs.error);
    }
    var items := ContainerItems(cs.value);
    if items.Err? {
      return Err(items.error);
    }
    var edited := EditContainerList(items.value, name, e);
    if edited.Err? {
      return Err(edited.error);
    }
    if edited.value == items.value {
      r := Ok(m);
    } else {
      r := Ok(WithContainers(m, edited.value));
    }
  }

  /** The file loop of one operation. */
  method EditEachFile(files: Files, e: DeploymentEdit) returns (r: Result<Files, PyError>)
    ensures r == EditFiles(files, e)
  {
    var result: Files := [];
    for i := 0 to |files|
      invariant EditFiles(files[..i], e) == Ok(result)
    {
      var f := files[i];
      var edited: Result<K8sFile, PyError>;
      if !f.manifest.JObj? {
        edited := Err(AttributeError);
      } else if !IsDeployment(f) {
        edited := Ok(f);
      } else {
        var m: Result<map<string, Json>, PyError>;
        if e.Containers? {
          m := EditContainersIn(f.manifest.fields, e.name, e.edit);
        } else {
          m := EditDeployment(f.manifest.fields, e);
        }
        edited := if m.Ok? then Ok(K8sFile(f.path, JObj(m.value))) else Err(m.error);
      }
      assert edited == EditFile(f, e);
      EditFilesStep(files, i, e);
      if edited.Err? {
        EditFilesPrefixErr(files, i + 1, e);
        return Err(edited.error);
      }
      result := result + [edited.value];
    }
    assert files[..|files|] == files;
    r := Ok(result);
  }

  /** `apply_k8s_op`. */
  method ApplyK8sOp(files: Files, op: PatchOp) returns (r: Result<Files, PyError>)
    ensures r == ApplyOp(files, op)
  {
    var args := op.args;
    if op.op == "EnsureLabel" {
      var scope := Field(args, "scope", JStr("both"));
      if "key" !in args { return Err(KeyError("key")); }
      if "value" !in args { return Err(KeyError("value")); }
      if !args["key"].JStr? { return Err(TypeError); }
      r := EditEachFile(files, Label(scope, args["key"].s, args["value"]));
    } else if op.op == "EnsureImageVersion" {
      if "container" !in args { return Err(KeyError("container")); }
      if "version" !in args { return Err(KeyError("version")); }
      r := EditEachFile(files, Containers(args["container"], ImageVersion(args["version"])));
    } else if op.op == "EnsureSecurityBaseline" {
      if "container" !in args { return Err(KeyError("container")); }
      r := EditEachFile(files, Containers(args["container"], SecurityBaseline));
    } else if op.op == "EnsureResourceProfile" {
      if "container" !in args { return Err(KeyError("container")); }
      if "profile" !in args { return Err(KeyError("profile")); }
      var p := ProfileOf(args["profile"]);
      if p.Err? { return Err(p.error); }
      r := EditEachFile(files, Containers(args["container"], ResourceProfile(p.value)));
    } else if op.op == "EnsureReplicas" {
      if "replicas" !in args { return Err(KeyError("replicas")); }
      r := EditEachFile(files, Replicas(args["replicas"]));
    } else if op.op == "EnsurePriorityClass" {
      if "name" !in args { return Err(KeyError("name")); }
      r := EditEachFile(files, PriorityClass(args["name"]));
    } else {
      r := Err(ValueError("Unknown K8s patch operation: " + op.op));
    }
  }

  /** `apply_k8s_patch`: the operations in order, each on the files the previous one produced. */
  method ApplyK8sPatch(files: Files, patch: Patch) returns (r: Result<Files, PyError>)
    ensures r == ApplyOps(files, patch.ops)
  {
    var current := files;
    var ops := patch.ops;
    for i := 0 to |ops|
      invariant ApplyOps(files, ops) == ApplyOps(current, ops[i..])
    {
      var next := ApplyK8sOp(current, ops[i]);
      assert ops[i..][1..] == ops[i + 1..];
      if next.Err? {
        return Err(next.error);
      }
      current := next.value;
    }
    r := Ok(current);
  }

  // ----- Properties -----

  lemma EditNamedSingle(c: Json, name: Json, e: ContainerEdit)
    ensures EditNamed([c], name, e) == (var h :- EditOne(c, name, e); Ok([h]))
  {
    assert [c][0] == c && [c][1..] == [];
    if EditOne(c, name, e).Ok? {
      assert [EditOne(c, name, e).value] + [] == [EditOne(c, name, e).value];
    }
  }

  /** One more container in the loop: its edit follows the edits so far. */
  lemma EditNamedStep(cs: seq<Json>, i: nat, name: Json, e: ContainerEdit)
    requires i < |cs|
    ensures EditNamed(cs[..i + 1], name, e) ==
      (var a :- EditNamed(cs[..i], name, e); var h :- EditOne(cs[i], name, e); Ok(a + [h]))
  {
    EditNamedSingle(cs[i], name, e);
    EditNamedAppend(cs[..i], [cs[i]], name, e);
    assert cs[..i + 1] == cs[..i] + [cs[i]];
  }

  /** A container whose edit fails ends the whole container loop with that exception. */
  lemma EditNamedPrefixErr(cs: seq<Json>, i: nat, name: Json, e: ContainerEdit)
    requires i <= |cs| && EditNamed(cs[..i], name, e).Err?
    ensures EditNamed(cs, name, e) == EditNamed(cs[..i], name, e)
  {
    assert cs == cs[..i] + cs[i..];
    EditNamedAppend(cs[..i], cs[i..], name, e);
  }

  /** One more file in the loop: its edit follows the edits so far. */
  lemma EditFilesStep(files: Files, i: nat, e: DeploymentEdit)
    requires i < |files|
    ensures EditFiles(files[..i + 1], e) ==
      (var a :- EditFiles(files[..i], e); var h :- EditFile(files[i], e); Ok(a + [h]))
  {
    EditFilesSingle(files[i], e);
    EditFilesAppend(files[..i], [files[i]], e);
    assert files[..i + 1] == files[..i] + [files[i]];
  }

  /** A file whose edit fails part-way ends the whole edit with that exception. */
  lemma EditFilesPrefixErr(files: Files, i: nat, e: DeploymentEdit)
    requires i <= |files| && EditFiles(files[..i], e).Err?
    ensures EditFiles(files, e) == EditFiles(files[..i], e)
  {
    assert files == files[..i] + files[i..];
    EditFilesAppend(files[..i], files[i..], e);
  }

  lemma EditFilesSingle(f: K8sFile, e: DeploymentEdit)
    ensures EditFiles([f], e) == (var h :- EditFile(f, e); Ok([h]))
  {
    assert [f][0] == f && [f][1..] == [];
    if EditFile(f, e).Ok? {
      assert [EditFile(f, e).value] + [] == [EditFile(f, e).value];
    }
  }

  lemma {:induction false} EditNamedAppend(xs: seq<Json>, ys: seq<Json>, name: Json, e: ContainerEdit)
    ensures EditNamed(xs + ys, name, e) ==
      (var a :- EditNamed(xs, name, e); var b :- EditNamed(ys, name, e); Ok(a + b))
  {
    if xs == [] {
      assert xs + ys == ys;
      if EditNamed(ys, name, e).Ok? {
        assert [] + EditNamed(ys, name, e).value == EditNamed(ys, name, e).value;
      }
    } else {
      assert (xs + ys)[0] == xs[0];
      assert (xs + ys)[1..] == xs[1..] + ys;
      EditNamedAppend(xs[1..], ys, name, e);
      var h := EditOne(xs[0], name, e);
      if h.Ok? {
        var a := EditNamed(xs[1..], name, e);
        var b := EditNamed(ys, name, e);
        if a.Ok? && b.Ok? {
          assert [h.value] + (a.value + b.value) == ([h.value] + a.value) + b.value;
        }
      }
    }
  }

  lemma {:induction false} EditFilesAppend(xs: Files, ys: Files, e: DeploymentEdit)
    ensures EditFiles(xs + ys, e) ==
      (var a :- EditFiles(xs, e); var b :- EditFiles(ys, e); Ok(a + b))
  {
    if xs == [] {
      assert xs + ys == ys;
      if EditFiles(ys, e).Ok? {
        assert [] + EditFiles(ys, e).value == EditFiles(ys, e).value;
      }
    } else {
      assert (xs + ys)[0] == xs[0];
      assert (xs + ys)[1..] == xs[1..] + ys;
      EditFilesAppend(xs[1..], ys, e);
      var h := EditFile(xs[0], e);
      if h.Ok? {
        var a := EditFiles(xs[1..], e);
        var b := EditFiles(ys, e);
        if a.Ok? && b.Ok? {
          assert [h.value] + (a.value + b.value) == ([h.value] + a.value) + b.value;
        }
      }
    }
  }

  /**
   * An operation succeeds exactly when it succeeds on every file. It then keeps the number and
   * order of the files and their paths, edits each Deployment, and leaves every other file as it was.
   */
  lemma {:induction false} EditFilesSpec(files: Files, e: DeploymentEdit)
    ensures EditFiles(files, e).Ok? <==> forall i :: 0 <= i < |files| ==> EditFile(files[i], e).Ok?
    ensures EditFiles(files, e).Ok? ==>
      var r := EditFiles(files, e).value;
      |r| == |files| &&
      forall i :: 0 <= i < |files| ==>
        r[i] == EditFile(files[i], e).value && r[i].path == files[i].path &&
        (!IsDeployment(files[i]) ==> r[i] == files[i])
  {
    if files != [] {
      EditFilesSpec(files[1..], e);
      var h := EditFile(files[0], e);
      var t := EditFiles(files[1..], e);
      if h.Ok? && t.Ok? {
        var r := [h.value] + t.value;
        forall i | 0 <= i < |files|
          ensures r[i] == EditFile(files[i], e).value
        {
          if i > 0 {
            assert files[1..][i - 1] == files[i];
          }
        }
      }
      if (forall i :: 0 <= i < |files| ==> EditFile(files[i], e).Ok?) {
        assert EditFile(files[0], e).Ok?;
        forall i | 0 <= i < |files[1..]|
          ensures EditFile(files[1..][i], e).Ok?
        {
          assert files[1..][i] == files[i + 1];
        }
      }
      if h.Ok? && t.Ok? {
        forall i | 0 <= i < |files|
          ensures EditFile(files[i], e).Ok?
        {
          if i > 0 {
            assert files[1..][i - 1] == files[i];
          }
        }
      }
    }
  }

  /** Applying `p` and then `q` is applying `p + q`: a patch is a left fold of its operations. */
  lemma {:induction false} ApplyOpsAppend(files: Files, p: seq<PatchOp>, q: seq<PatchOp>)
    ensures ApplyOps(files, p + q) == (var mid :- ApplyOps(files, p); ApplyOps(mid, q))
    decreases |p|
  {
    if p == [] {
      assert p + q == q;
    } else {
      assert (p + q)[0] == p[0];
      assert (p + q)[1..] == p[1..] + q;
      var next := ApplyOp(files, p[0]);
      if next.Ok? {
        ApplyOpsAppend(next.value, p[1..], q);
      }
    }
  }

  /** A patch holding an unknown operation fails, whatever follows it. */
  lemma UnknownOpFailsPatch(files: Files, p: seq<PatchOp>, op: PatchOp, q: seq<PatchOp>)
    requires op.op !in OpNames
    requires ApplyOps(files, p).Ok?
    ensures ApplyOps(files, p + [op] + q) == Err(ValueError("Unknown K8s patch operation: " + op.op))
  {
    ApplyOpsAppend(files, p, [op] + q);
    assert p + [op] + q == p + ([op] + q);
    assert ([op] + q)[0] == op;
  }

  /**
   * EnsureLabel on a Deployment: each label dictionary the scope names holds `key := value`; a
   * scope naming neither leaves the manifest unchanged; keys other than `metadata` and `spec` keep
   * their values. It fails only on an existing non-dictionary along a path the scope names.
   */
  lemma LabelSpec(m: map<string, Json>, scope: Json, key: string, value: Json)
    ensures EditLabels(m, scope, key, value).Ok? <==>
      (ScopeHasDeployment(scope) ==> PathOpen(m, DeploymentLabels)) &&
      (ScopeHasPodTemplate(scope) ==> PathOpen(m, PodLabels))
    ensures EditLabels(m, scope, key, value).Ok? ==>
      var r := EditLabels(m, scope, key, value).value;
      (ScopeHasDeployment(scope) ==> At(JObj(r), DeploymentLabels + [key]) == Some(value)) &&
      (ScopeHasPodTemplate(scope) ==> At(JObj(r), PodLabels + [key]) == Some(value)) &&
      (!ScopeHasDeployment(scope) && !ScopeHasPodTemplate(scope) ==> r == m) &&
      (forall k :: k in m && k != "metadata" && k != "spec" ==> k in r && r[k] == m[k])
  {
    SetInSpec(m, DeploymentLabels, key, value);
    var m1 := if ScopeHasDeployment(scope) then SetIn(m, DeploymentLabels, key, value) else Ok(m);
    if m1.Ok? {
      SetInSpec(m1.value, PodLabels, key, value);
      assert PathOpen(m1.value, PodLabels) == PathOpen(m, PodLabels) by {
        if ScopeHasDeployment(scope) {
          assert "spec" !in m1.value <==> "spec" !in m;
          assert "spec" in m ==> m1.value["spec"] == m["spec"];
        }
      }
      if ScopeHasPodTemplate(scope) && ScopeHasDeployment(scope) {
        var r := SetIn(m1.value, PodLabels, key, value);
        if r.Ok? {
          assert r.value["metadata"] == m1.value["metadata"];
          assert At(JObj(r.value), DeploymentLabels + [key]) == At(r.value["metadata"], ["labels", key]);
          assert At(JObj(m1.value), DeploymentLabels + [key]) == At(m1.value["metadata"], ["labels", key]);
        }
      }
    }
  }

  /**
   * EnsureReplicas on a Deployment: `spec.replicas` holds the value and every other top-level key
   * is kept. It fails only when `spec` exists and is not a dictionary.
   */
  lemma ReplicasSpec(m: map<string, Json>, n: Json)
    ensures EditDeployment(m, Replicas(n)).Ok? <==> ("spec" in m ==> m["spec"].JObj?)
    ensures EditDeployment(m, Replicas(n)).Ok? ==>
      var r := EditDeployment(m, Replicas(n)).value;
      At(JObj(r), ["spec", "replicas"]) == Some(n) &&
      r.Keys == m.Keys + {"spec"} &&
      (forall k :: k in m && k != "spec" ==> r[k] == m[k])
  {
    SetInSpec(m, ["spec"], "replicas", n);
    assert ["spec"] + ["replicas"] == ["spec", "replicas"];
    if "spec" in m && m["spec"].JObj? {
      assert PathOpen(m["spec"].fields, []);
    }
  }

  /**
   * EnsurePriorityClass on a Deployment: a name sets `spec.priorityClassName`, and `None` removes
   * it; `spec` is created in both cases, and every other top-level key is kept.
   */
  lemma PriorityClassSpec(m: map<string, Json>, n: Json)
    ensures EditDeployment(m, PriorityClass(n)).Ok? <==> ("spec" in m ==> m["spec"].JObj?)
    ensures EditDeployment(m, PriorityClass(n)).Ok? ==>
      var r := EditDeployment(m, PriorityClass(n)).value;
      "spec" in r && r["spec"].JObj? &&
      (n == JNull ==> "priorityClassName" !in r["spec"].fields) &&
      (n != JNull ==> At(JObj(r), ["spec", "priorityClassName"]) == Some(n)) &&
      (forall k :: k in m && k != "spec" ==> k in r && r[k] == m[k])
  {
    SetInSpec(m, ["spec"], "priorityClassName", n);
    assert ["spec"] + ["priorityClassName"] == ["spec", "priorityClassName"];
    if "spec" in m && m["spec"].JObj? {
      assert PathOpen(m["spec"].fields, []);
    }
  }

  /** On one file, setting the replica count twice is setting it to the second value. */
  lemma ReplicasOverwriteFile(f: K8sFile, a: Json, b: Json)
    requires EditFile(f, Replicas(a)).Ok?
    ensures EditFile(EditFile(f, Replicas(a)).value, Replicas(b)) == EditFile(f, Replicas(b))
  {
    if IsDeployment(f) {
      var m := f.manifest.fields;
      var spec := if "spec" in m then m["spec"].fields else map[];
      var ma := m["spec" := JObj(spec["replicas" := a])];
      assert EditDeployment(m, Replicas(a)) == Ok(ma);
      assert Field(ma, "kind", JNull) == Field(m, "kind", JNull);
      assert spec["replicas" := a]["replicas" := b] == spec["replicas" := b];
      assert ["spec"][0] == "spec" && ["spec"][1..] == [];
      assert ma["spec" := JObj(spec["replicas" := b])] == m["spec" := JObj(spec["replicas" := b])];
      assert EditDeployment(ma, Replicas(b)) == EditDeployment(m, Replicas(b));
    }
  }

  /** Setting the replica count twice is setting it to the second value. */
  lemma {:induction false} ReplicasOverwrite(files: Files, a: Json, b: Json)
    requires EditFiles(files, Replicas(a)).Ok?
    ensures EditFiles(EditFiles(files, Replicas(a)).value, Replicas(b)) == EditFiles(files, Replicas(b))
  {
    if files != [] {
      var fa := EditFile(files[0], Replicas(a)).value;
      var rest := EditFiles(files[1..], Replicas(a)).value;
      ReplicasOverwriteFile(files[0], a, b);
      ReplicasOverwrite(files[1..], a, b);
      var s := [fa] + rest;
      assert EditFiles(files, Replicas(a)).value == s;
      assert s[0] == fa && s[1..] == rest;
    }
  }

  /**
   * The security baseline on one container: `runAsNonRoot` and `readOnlyRootFilesystem` true,
   * `allowPrivilegeEscalation` false and `capabilities.drop == ["ALL"]`. Other container keys are
   * kept. It fails only on an existing `securityContext` or `capabilities` that is not a dictionary.
   */
  lemma SecurityBaselineSpec(c: map<string, Json>, name: Json)
    ensures EditContainer(c, name, SecurityBaseline).Ok? <==> PathOpen(c, ["securityContext", "capabilities"])
    ensures EditContainer(c, name, SecurityBaseline).Ok? ==>
      var r := EditContainer(c, name, SecurityBaseline).value;
      At(JObj(r), ["securityContext", "runAsNonRoot"]) == Some(JBool(true)) &&
      At(JObj(r), ["securityContext", "allowPrivilegeEscalation"]) == Some(JBool(false)) &&
      At(JObj(r), ["securityContext", "readOnlyRootFilesystem"]) == Some(JBool(true)) &&
      At(JObj(r), ["securityContext", "capabilities", "drop"]) == Some(JList([JStr("ALL")])) &&
      (forall k :: k in c && k != "securityContext" ==> k in r && r[k] == c[k])
  {
    BaselineOpen(c, name);
    if EditContainer(c, name, SecurityBaseline).Ok? {
      var sc := ChildObj(c, "securityContext").value;
      var sc' := sc["runAsNonRoot" := JBool(true)]["allowPrivilegeEscalation" := JBool(false)]
                   ["readOnlyRootFilesystem" := JBool(true)];
      var caps := ChildObj(sc', "capabilities").value;
      var inner := sc'["capabilities" := JObj(caps["drop" := JList([JStr("ALL")])])];
      var r := c["securityContext" := JObj(inner)];
      assert EditContainer(c, name, SecurityBaseline).value == r;
      AtTwo(JObj(r), "securityContext", "runAsNonRoot");
      AtTwo(JObj(r), "securityContext", "allowPrivilegeEscalation");
      AtTwo(JObj(r), "securityContext", "readOnlyRootFilesystem");
      AtThree(JObj(r), "securityContext", "capabilities", "drop");
    }
  }

  /**
   * A resource profile on one container never fails: `resources.requests` and `resources.limits`
   * become the profile's cpu and memory values, and every other container key is kept.
   */
  lemma ResourceProfileSpec(c: map<string, Json>, name: Json, n: string)
    requires n in ProfileNames
    ensures var p := Profile(n).value;
      EditContainer(c, name, ResourceProfile(p)).Ok? &&
      var r := EditContainer(c, name, ResourceProfile(p)).value;
      At(JObj(r), ["resources", "requests", "cpu"]) == Some(JStr(p.requestCpu)) &&
      At(JObj(r), ["resources", "requests", "memory"]) == Some(JStr(p.requestMemory)) &&
      At(JObj(r), ["resources", "limits", "cpu"]) == Some(JStr(p.limitCpu)) &&
      At(JObj(r), ["resources", "limits", "memory"]) == Some(JStr(p.limitMemory)) &&
      (forall k :: k in c && k != "resources" ==> k in r && r[k] == c[k])
  {
    var p := Profile(n).value;
    var r := c["resources" := ResourcesJson(p)];
    var res := ResourcesJson(p);
    AtThree(JObj(r), "resources", "requests", "cpu");
    AtThree(JObj(r), "resources", "requests", "memory");
    AtThree(JObj(r), "resources", "limits", "cpu");
    AtThree(JObj(r), "resources", "limits", "memory");
    AtTwo(res, "requests", "cpu");
    AtTwo(res, "requests", "memory");
    AtTwo(res, "limits", "cpu");
    AtTwo(res, "limits", "memory");
  }

  /** The baseline fails exactly on a `securityContext` or `capabilities` that is not a dictionary. */
  lemma BaselineOpen(c: map<string, Json>, name: Json)
    ensures EditContainer(c, name, SecurityBaseline).Ok? <==> PathOpen(c, ["securityContext", "capabilities"])
  {
    if "securityContext" in c && c["securityContext"].JObj? {
      var sc := c["securityContext"].fields;
      assert PathOpen(c, ["securityContext", "capabilities"]) <==> PathOpen(sc, ["capabilities"]) by {
        assert ["securityContext", "capabilities"][1..] == ["capabilities"];
      }
      assert PathOpen(sc, ["capabilities"]) <==> ("capabilities" in sc ==> sc["capabilities"].JObj?) by {
        if "capabilities" in sc && sc["capabilities"].JObj? {
          assert PathOpen(sc["capabilities"].fields, []);
        }
      }
    } else if "securityContext" !in c {
      assert PathOpen(c, ["securityContext", "capabilities"]);
    }
  }

  lemma AtTwo(j: Json, a: string, b: string)
    ensures At(j, [a, b]) ==
      (if j.JObj? && a in j.fields && j.fields[a].JObj? && b in j.fields[a].fields then Some(j.fields[a].fields[b]) else None)
  {
    assert [a, b][0] == a && [a, b][1..] == [b];
    assert [b][0] == b && [b][1..] == [];
    if j.JObj? && a in j.fields {
      var k := j.fields[a];
      assert At(j, [a, b]) == At(k, [b]);
      if k.JObj? && b in k.fields {
        assert At(k, [b]) == At(k.fields[b], []);
      }
    }
  }

  lemma AtThree(j: Json, a: string, b: string, d: string)
    ensures At(j, [a, b, d]) ==
      (if j.JObj? && a in j.fields then At(j.fields[a], [b, d]) else None)
  {
    assert [a, b, d][1..] == [b, d];
  }

  /** The container lists before and after a container operation have the same length and names. */
  lemma {:induction false} EditNamedKeepsNames(cs: seq<Json>, name: Json, e: ContainerEdit)
    requires EditNamed(cs, name, e).Ok?
    ensures var r := EditNamed(cs, name, e).value;
      |r| == |cs| &&
      forall i :: 0 <= i < |cs| ==>
        cs[i].JObj? && EditOne(cs[i], name, e).Ok? && r[i] == EditOne(cs[i], name, e).value &&
        (Field(cs[i].fields, "name", JNull) != name ==> r[i] == cs[i])
  {
    if cs != [] {
      EditNamedKeepsNames(cs[1..], name, e);
      var r := EditNamed(cs, name, e).value;
      forall i | 0 <= i < |cs|
        ensures cs[i].JObj? && EditOne(cs[i], name, e).Ok? && r[i] == EditOne(cs[i], name, e).value
      {
        if i > 0 {
          assert cs[1..][i - 1] == cs[i];
        }
      }
    }
  }

  /** After a container list is written back, the manifest's containers are that list. */
  lemma WithContainersSpec(m: map<string, Json>, cs: seq<Json>)
    ensures At(JObj(WithContainers(m, cs)), ContainersPath) == Some(JList(cs))
    ensures forall k :: k in m && k != "spec" ==> k in WithContainers(m, cs) && WithContainers(m, cs)[k] == m[k]
  {
    var w := WithContainers(m, cs);
    var spec := Fields(Field(m, "spec", EmptyObj));
    var template := Fields(Field(spec, "template", EmptyObj));
    var pod := Fields(Field(template, "spec", EmptyObj));
    assert w["spec"] == JObj(spec["template" := JObj(template["spec" := JObj(pod["containers" := JList(cs)])])]);
    assert ContainersPath[1..] == ["template", "spec", "containers"];
    assert At(JObj(w), ContainersPath) == At(w["spec"], ["template", "spec", "containers"]);
  }
}

// The ECR policy oracle of the minimal K8s demo: container images must come from the company's
// AWS ECR registry, the registry path must carry the pod's env label, and that label must be
// one of the company's standard environment names.
module EcrOracle {
  import opened Wrappers
  import opened Strings
  import opened Values
  import opened Schema
  import opened Synth
  import opened Synthesizer
  import opened Manifest
  import opened K8sOracles

  /**
   * The oracle's configuration. The checks look for the account id alone; the region is kept
   * but never read.
   */
  datatype EcrPolicy = EcrPolicy(accountId: string, region: string)

  const DefaultPolicy: EcrPolicy := EcrPolicy("123456789012", "us-east-1")

  /** The company's standard environment names. */
  const ValidEnvNames: set<string> := {"production-us", "staging-us", "dev-us"}

  /** `', '.join(sorted(VALID_ENV_NAMES))`. */
  const ValidEnvText: string := "dev-us, production-us, staging-us"

  /** The path of the `i`-th container's image. */
  function IndexedImagePath(path: string, i: nat): seq<Json>
  {
    Strs([path, "spec", "template", "spec", "containers"]) + [JInt(i), JStr("image")]
  }

  /** The template hole that holds a container's ECR image. */
  function ImageHole(name: Json): Json
  {
    JStr(Render(name) + "_ecr_image")
  }

  function InvalidImageSource(path: string, i: nat, name: Json, image: Json): Violation
  {
    Violation("ecr.INVALID_IMAGE_SOURCE",
      "Container '" + Render(name) + "' uses public Docker image '" + Render(image) + "'. Must use AWS ECR image.",
      IndexedImagePath(path, i), "error",
      Raw(JObj(map["container" := name, "image" := image,
                   "forbid_value" := JObj(map["hole" := ImageHole(name), "value" := image])])))
  }

  function EnvMismatch(path: string, i: nat, name: Json, image: Json, env: Json): Violation
  {
    Violation("ecr.ENV_MISMATCH",
      "Container '" + Render(name) + "' ECR path does not match env label '" + Render(env) +
      "'. Expected path containing '" + Render(env) + "'.",
      IndexedImagePath(path, i), "error",
      Raw(JObj(map["container" := name, "image" := image, "env" := env,
                   "forbid_tuple" := JObj(map["holes" := JList([JStr("env"), ImageHole(name)]),
                                              "values" := JList([env, image])])])))
  }

  function InvalidEnvLabel(path: string, env: Json): Violation
  {
    Violation("ecr.INVALID_ENV_LABEL",
      "env label '" + Render(env) + "' is not a company standard. Must be one of: " + ValidEnvText,
      Strs([path, "spec", "template", "metadata", "labels", "env"]), "error",
      Raw(JObj(map["env" := env, "forbid_value" := JObj(map["hole" := JStr("env"), "value" := env])])))
  }

  /** `env not in VALID_ENV_NAMES`: a list or dictionary cannot be looked up in a set. */
  function NonStandardEnv(env: Json): (r: Result<bool, PyError>)
    ensures r.Ok? <==> Hashable(env)
    ensures r.Ok? ==> (r.value <==> !(env.JStr? && env.s in ValidEnvNames))
  {
    if !Hashable(env) then Err(TypeError) else Ok(!(env.JStr? && env.s in ValidEnvNames))
  }

  /** The image comes from the company registry: it names ECR and the account. */
  function FromCompanyEcr(o: EcrPolicy, image: Json): Result<bool, PyError>
  {
    var ecr :- PyIn(".dkr.ecr.", image);
    if !ecr then Ok(false) else Ok(PyIn(o.accountId, image).value)
  }

  /**
   * The three checks on the `i`-th container of a Deployment whose env label is `env`. An image
   * that is not from the registry stops the checks for that container; the other two are
   * independent of each other.
   */
  function EcrContainer(o: EcrPolicy, path: string, env: Json, i: nat, c: Json): (r: Result<seq<Violation>, PyError>)
    ensures c.JObj? && !Truthy(Field(c.fields, "image", JStr(""))) ==> r == Ok([])
    ensures !c.JObj? ==> r == Err(AttributeError)
    ensures r.Ok? ==> |r.value| <= 2
  {
    var image :- GetOr(c, "image", JStr(""));
    var name := Field(c.fields, "name", JStr("container-" + NatToStr(i)));
    if !Truthy(image) then Ok([])
    else
      var registry :- FromCompanyEcr(o, image);
      if !registry then Ok([InvalidImageSource(path, i, name, image)])
      else
        var mismatch := Truthy(env) && !PyIn("/" + Render(env) + "/", image).value;
        var nonStandard :- if Truthy(env) then NonStandardEnv(env) else Ok(false);
        Ok((if mismatch then [EnvMismatch(path, i, name, image, env)] else []) +
           (if nonStandard then [InvalidEnvLabel(path, env)] else []))
  }

  /** `enumerate(containers)`. */
  function Enumerate(xs: seq<Json>): (r: seq<(nat, Json)>)
    ensures |r| == |xs| && forall i :: 0 <= i < |xs| ==> r[i] == (i, xs[i])
  {
    seq(|xs|, i requires 0 <= i < |xs| => (i, xs[i]))
  }

  function EcrOf(o: EcrPolicy, path: string, env: Json): ((nat, Json)) -> Result<seq<Violation>, PyError>
  {
    (p: (nat, Json)) => EcrContainer(o, path, env, p.0, p.1)
  }

  /** One file: only Deployments are checked, every container against the pod's env label. */
  function EcrFile(o: EcrPolicy, f: K8sFile): Result<seq<Violation>, PyError>
  {
    var deployment :- IsDeploymentDoc(f.manifest);
    if !deployment then Ok([])
    else
      var env :- PodLabel(f.manifest, "env", JNull);
      var items :- LoopContainers(f.manifest);
      Joined(Enumerate(items), EcrOf(o, f.path, env))
  }

  function EcrFileOf(o: EcrPolicy): K8sFile -> Result<seq<Violation>, PyError>
  {
    f => EcrFile(o, f)
  }

  /** `ECRPolicyOracle.__call__`: the file loop around the numbered container loop. */
  method EcrPolicyOracle(o: EcrPolicy, files: Files) returns (r: Result<seq<Violation>, PyError>)
    ensures r == Joined(files, EcrFileOf(o))
  {
    var vs: seq<Violation> := [];
    for k := 0 to |files|
      invariant Joined(files[..k], EcrFileOf(o)) == Ok(vs)
    {
      var f := files[k];
      var found: Result<seq<Violation>, PyError>;
      var deployment := IsDeploymentDoc(f.manifest);
      var env := PodLabel(f.manifest, "env", JNull);
      var items := LoopContainers(f.manifest);
      if deployment.Err? {
        found := Err(deployment.error);
      } else if !deployment.value {
        found := Ok([]);
      } else if env.Err? {
        found := Err(env.error);
      } else if items.Err? {
        found := Err(items.error);
      } else {
        found := CheckContainers(o, f.path, env.value, items.value);
      }
      JoinedStep(files, k, EcrFileOf(o));
      if found.Err? {
        JoinedPrefixErr(files, k + 1, EcrFileOf(o));
        return Err(found.error);
      }
      vs := vs + found.value;
    }
    assert files[..|files|] == files;
    r := Ok(vs);
  }

  /** `for i, container in enumerate(containers)`. */
  method CheckContainers(o: EcrPolicy, path: string, env: Json, items: seq<Json>) returns (r: Result<seq<Violation>, PyError>)
    ensures r == Joined(Enumerate(items), EcrOf(o, path, env))
  {
    var pairs := Enumerate(items);
    var vs: seq<Violation> := [];
    for i := 0 to |items|
      invariant Joined(pairs[..i], EcrOf(o, path, env)) == Ok(vs)
    {
      var found := EcrContainer(o, path, env, i, items[i]);
      assert found == EcrOf(o, path, env)(pairs[i]);
      JoinedStep(pairs, i, EcrOf(o, path, env));
      if found.Err? {
        JoinedPrefixErr(pairs, i + 1, EcrOf(o, path, env));
        return Err(found.error);
      }
      vs := vs + found.value;
    }
    assert pairs[..|pairs|] == pairs;
    r := Ok(vs);
  }

  function EcrCheck(files: Files): OracleOutcome
  {
    AsOutcome(Joined(files, EcrFileOf(DefaultPolicy)))
  }

  /** The oracle as the controller runs it; an instance has no `__name__`. */
  const Ecr: Oracle<Files> := Oracle(None, EcrCheck)

  // ----- Properties -----

  /**
   * A string image outside the registry gets exactly the source violation, whatever the env
   * label, and its hint forbids that image in the container's image hole.
   */
  lemma PublicImageRule(o: EcrPolicy, path: string, env: Json, i: nat, c: map<string, Json>, s: string)
    requires "image" in c && c["image"] == JStr(s) && s != ""
    requires !(Contains(s, ".dkr.ecr.") && Contains(s, o.accountId))
    ensures var name := Field(c, "name", JStr("container-" + NatToStr(i)));
      EcrContainer(o, path, env, i, JObj(c)) == Ok([InvalidImageSource(path, i, name, JStr(s))]) &&
      HintConstraints(InvalidImageSource(path, i, name, JStr(s))) == [ForbidValue(ImageHole(name), JStr(s))]
  {
    var name := Field(c, "name", JStr("container-" + NatToStr(i)));
    var m := InvalidImageSource(path, i, name, JStr(s)).evidence.j.fields;
    assert "forbid_tuple" !in m && ValueHint(m["forbid_value"]);
  }

  /**
   * A registry image under any set string env label: a path without the label between slashes
   * is a mismatch, and a label outside the standard names is also reported; the mismatch hint
   * forbids the pair of label and image.
   */
  lemma RegistryImageRule(o: EcrPolicy, path: string, e: string, i: nat, c: map<string, Json>, s: string)
    requires "image" in c && c["image"] == JStr(s) && s != ""
    requires Contains(s, ".dkr.ecr.") && Contains(s, o.accountId)
    requires e != ""
    ensures var name := Field(c, "name", JStr("container-" + NatToStr(i)));
      EcrContainer(o, path, JStr(e), i, JObj(c)) ==
        Ok((if Contains(s, "/" + e + "/") then [] else [EnvMismatch(path, i, name, JStr(s), JStr(e))]) +
           (if e in ValidEnvNames then [] else [InvalidEnvLabel(path, JStr(e))]))
    ensures var name := Field(c, "name", JStr("container-" + NatToStr(i)));
      HintConstraints(EnvMismatch(path, i, name, JStr(s), JStr(e))) ==
        [ForbidTuple(JList([JStr("env"), ImageHole(name)]), JList([JStr(e), JStr(s)]))]
  {
    var name := Field(c, "name", JStr("container-" + NatToStr(i)));
    assert Render(JStr(e)) == e;
    var m := EnvMismatch(path, i, name, JStr(s), JStr(e)).evidence.j.fields;
    assert "forbid_value" !in m && TupleHint(m["forbid_tuple"]);
  }

  /**
   * A non-standard string env label is reported once for every container whose image is from
   * the registry, and its hint forbids that label.
   */
  lemma NonStandardEnvRule(o: EcrPolicy, path: string, e: string, i: nat, c: map<string, Json>, s: string)
    requires "image" in c && c["image"] == JStr(s) && s != ""
    requires Contains(s, ".dkr.ecr.") && Contains(s, o.accountId)
    requires e != "" && e !in ValidEnvNames
    ensures EcrContainer(o, path, JStr(e), i, JObj(c)).Ok?
    ensures InvalidEnvLabel(path, JStr(e)) in EcrContainer(o, path, JStr(e), i, JObj(c)).value
    ensures HintConstraints(InvalidEnvLabel(path, JStr(e))) == [ForbidValue(JStr("env"), JStr(e))]
  {
    var m := InvalidEnvLabel(path, JStr(e)).evidence.j.fields;
    assert "forbid_tuple" !in m && ValueHint(m["forbid_value"]);
  }

  /**
   * The env label is only checked inside the container loop: a Deployment with no containers
   * reports nothing, even with a non-standard label.
   */
  lemma NoContainersNoFindings(o: EcrPolicy, f: K8sFile)
    requires LoopContainers(f.manifest) == Ok([]) && PodLabel(f.manifest, "env", JNull).Ok?
    requires f.manifest.JObj?
    ensures EcrFile(o, f) == Ok([])
  {
    assert Enumerate([]) == [];
  }

  /** Manifests of other kinds are not looked into. */
  lemma OtherKindsIgnored(o: EcrPolicy, f: K8sFile)
    requires f.manifest.JObj? && Field(f.manifest.fields, "kind", JNull) != JStr("Deployment")
    ensures EcrFile(o, f) == Ok([])
  {
  }
}

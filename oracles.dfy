// The K8s oracles the repair loop checks manifests with: the organisation's policy rules, the
// container security baseline, and the resource-profile check. Each one reads every Deployment
// manifest of an artifact and returns its violations, which carry the hints the synthesizer
// learns constraints from.
module K8sOracles {
  import opened Wrappers
  import opened Strings
  import opened Values
  import opened Schema
  import opened Synth
  import opened Synthesizer
  import opened Manifest
  import opened K8sPatch

  /** `manifest.get("kind")` is "Deployment"; a document that is not a dictionary raises. */
  function IsDeploymentDoc(m: Json): Result<bool, PyError>
  {
    var kind :- GetOr(m, "kind", JNull);
    Ok(kind == JStr("Deployment"))
  }

  // ----- PolicyOracle -----

  /** `_get_label`: a pod-template label, "" when absent. */
  function GetLabel(m: Json, key: string): Result<Json, PyError>
  {
    PodLabel(m, key, JStr(""))
  }

  /**
   * `containers[0]` after `if not containers`: `None` for an empty container list. A non-empty
   * dictionary, string or scalar in place of the list cannot give a first container dictionary.
   */
  function FirstContainer(m: Json): (r: Result<Option<Json>, PyError>)
    ensures r.Ok? && r.value.Some? ==> exists cs :: ContainersField(m) == Ok(JList(cs)) && cs != [] && r.value.value == cs[0]
  {
    var cs :- ContainersField(m);
    if !Truthy(cs) then Ok(None)
    else if cs.JList? then Ok(Some(cs.items[0]))
    else if cs.JObj? then Err(KeyError("0"))
    else if cs.JStr? then Err(AttributeError)
    else Err(TypeError)
  }

  /** The profile whose requests are exactly `cpu` and `memory`, searched in profile order. */
  function ExactProfile(cpu: Json, memory: Json): (r: Option<string>)
    ensures r.Some? ==>
      r.value in ProfileNames &&
      cpu == JStr(Profile(r.value).value.requestCpu) && memory == JStr(Profile(r.value).value.requestMemory)
    ensures r.None? ==> forall n :: n in ProfileNames ==>
      !(cpu == JStr(Profile(n).value.requestCpu) && memory == JStr(Profile(n).value.requestMemory))
  {
    if cpu == JStr("100m") && memory == JStr("128Mi") then Some("small")
    else if cpu == JStr("500m") && memory == JStr("512Mi") then Some("medium")
    else if cpu == JStr("1000m") && memory == JStr("1Gi") then Some("large")
    else None
  }

  /** `"a" in x or "b" in y`, short-circuiting as Python does. */
  function EitherIn(a: string, x: Json, b: string, y: Json): Result<bool, PyError>
  {
    var first :- PyIn(a, x);
    if first then Ok(true) else PyIn(b, y)
  }

  /**
   * The profile the requests resemble: an exact profile, else the first profile whose CPU or
   * memory text occurs in them, else "unknown".
   */
  function ProfileFromRequests(cpu: Json, memory: Json): (r: Result<string, PyError>)
    ensures ExactProfile(cpu, memory).Some? ==> r == Ok(ExactProfile(cpu, memory).value)
    ensures cpu.JStr? && memory.JStr? && ExactProfile(cpu, memory).None? ==>
      r == Ok(if Contains(cpu.s, "100m") || Contains(memory.s, "128Mi") then "small"
              else if Contains(cpu.s, "500m") || Contains(memory.s, "512Mi") then "medium"
              else if Contains(cpu.s, "1000m") || Contains(memory.s, "1Gi") then "large"
              else "unknown")
  {
    var exact := ExactProfile(cpu, memory);
    if exact.Some? then Ok(exact.value)
    else
      var small :- EitherIn("100m", cpu, "128Mi", memory);
      if small then Ok("small")
      else
        var medium :- EitherIn("500m", cpu, "512Mi", memory);
        if medium then Ok("medium")
        else
          var large :- EitherIn("1000m", cpu, "1Gi", memory);
          if large then Ok("large") else Ok("unknown")
  }

  /**
   * The requested CPU and memory of a container, `""` where unset, when the container, its
   * resources and its requests are dictionaries.
   */
  function Requests(c: Json): Option<(Json, Json)>
  {
    if c.JObj? && Field(c.fields, "resources", EmptyObj).JObj? then
      var requests := Field(Field(c.fields, "resources", EmptyObj).fields, "requests", EmptyObj);
      if requests.JObj? then Some((Field(requests.fields, "cpu", JStr("")), Field(requests.fields, "memory", JStr(""))))
      else None
    else None
  }

  /** `_extract_profile`: the profile of the first container's requests, "" without containers. */
  function ExtractProfile(m: Json): (r: Result<string, PyError>)
    ensures FirstContainer(m) == Ok(None) ==> r == Ok("")
    ensures FirstContainer(m).Ok? && FirstContainer(m).value.Some? && Requests(FirstContainer(m).value.value).Some? ==>
      var (cpu, memory) := Requests(FirstContainer(m).value.value).value;
      r == ProfileFromRequests(cpu, memory)
  {
    var first :- FirstContainer(m);
    if first.None? then Ok("")
    else
      var resources :- GetOr(first.value, "resources", EmptyObj);
      var requests :- GetOr(resources, "requests", EmptyObj);
      var cpu :- GetOr(requests, "cpu", JStr(""));
      var memory := Field(requests.fields, "memory", JStr(""));
      ProfileFromRequests(cpu, memory)
  }

  /** `_extract_image`: the first container's image, "" without containers. */
  function ExtractImage(m: Json): Result<Json, PyError>
  {
    var first :- FirstContainer(m);
    if first.None? then Ok(JStr("")) else GetOr(first.value, "image", JStr(""))
  }

  /** `_extract_image_tag`: the text after the image's last ':', "" when it has none. */
  function ImageTag(image: Json): (r: Result<string, PyError>)
    ensures image.JStr? && Contains(image.s, ":") ==> r == Ok(AfterLast(image.s, ':'))
    ensures image.JStr? && !Contains(image.s, ":") ==> r == Ok("")
  {
    var tagged :- PyIn(":", image);
    if !tagged then Ok("")
    else if image.JStr? then Ok(AfterLast(image.s, ':'))
    else Err(AttributeError)
  }

  predicate AllDigits(s: string)
  {
    forall k :: 0 <= k < |s| ==> IsDigit(s[k])
  }

  const DkrEcr: string := ".dkr.ecr."
  const AmazonAws: string := ".amazonaws.com/"

  /**
   * `re.match(r'^(\d{12})\.dkr\.ecr\.([^.]+)\.amazonaws\.com/(.+)$', image)`, giving its third
   * group: twelve digits and ".dkr.ecr.", then `AfterRegion`, then `LineGroup`.
   */
  function EcrRepoAndTag(image: string): Option<string>
  {
    if |image| < 12 + |DkrEcr| || !AllDigits(image[..12]) || image[12..12 + |DkrEcr|] != DkrEcr then None
    else
      match AfterRegion(image[12 + |DkrEcr|..])
      case None => None
      case Some(tail) => LineGroup(tail)
  }

  /** `([^.]+)\.amazonaws\.com/`: a region up to the first '.', then the domain; what follows. */
  function AfterRegion(rest: string): Option<string>
  {
    var k := IndexOf(rest, '.');
    if k == 0 || !StartsWith(rest[k..], AmazonAws) then None else Some(rest[k + |AmazonAws|..])
  }

  /** `(.+)$`: the text up to the first line break, which may only be a final one. */
  function LineGroup(tail: string): Option<string>
  {
    var j := IndexOf(tail, '\n');
    if j == 0 || j + 1 < |tail| then None else Some(tail[..j])
  }

  /** An ECR image reference: a 12-digit account, a region without '.', a repository and tag. */
  function EcrImage(account: string, region: string, repoAndTag: string): string
  {
    account + DkrEcr + region + AmazonAws + repoAndTag
  }

  /** The first occurrence of `c` is at `k` when `s[k]` is `c` (or `k` is the end) and no earlier character is. */
  lemma {:induction false} IndexOfIs(s: string, c: char, k: nat)
    requires k <= |s| && (k < |s| ==> s[k] == c) && forall i :: 0 <= i < k ==> s[i] != c
    ensures IndexOf(s, c) == k
  {
    if s != [] && s[0] != c {
      forall i | 0 <= i < k - 1
        ensures s[1..][i] != c
      {
        assert s[1..][i] == s[i + 1];
      }
      IndexOfIs(s[1..], c, k - 1);
    }
  }

  lemma AfterRegionOf(region: string, tail: string)
    requires region != [] && '.' !in region
    ensures AfterRegion(region + AmazonAws + tail) == Some(tail)
  {
    var rest := region + AmazonAws + tail;
    forall i | 0 <= i < |region|
      ensures rest[i] != '.'
    {
      assert rest[i] == region[i];
    }
    IndexOfIs(rest, '.', |region|);
    assert rest[|region|..] == AmazonAws + tail;
    assert (AmazonAws + tail)[..|AmazonAws|] == AmazonAws;
    assert rest[|region| + |AmazonAws|..] == tail;
  }

  lemma LineGroupOf(rt: string)
    requires rt != [] && '\n' !in rt
    ensures LineGroup(rt) == Some(rt) && LineGroup(rt + "\n") == Some(rt)
  {
    var t := rt + "\n";
    forall i | 0 <= i < |rt|
      ensures rt[i] != '\n' && t[i] != '\n'
    {
      assert rt[i] in rt;
      assert t[i] == rt[i];
    }
    assert t[|rt|] == '\n';
    IndexOfIs(rt, '\n', |rt|);
    IndexOfIs(t, '\n', |rt|);
    assert t[..|rt|] == rt;
    assert rt[..|rt|] == rt;
  }

  /** Every well-formed ECR reference matches the pattern, giving back its repository and tag. */
  lemma EcrImageMatches(account: string, region: string, repoAndTag: string)
    requires |account| == 12 && AllDigits(account)
    requires region != [] && '.' !in region
    requires repoAndTag != [] && '\n' !in repoAndTag
    ensures EcrRepoAndTag(EcrImage(account, region, repoAndTag)) == Some(repoAndTag)
  {
    var rest := region + AmazonAws + repoAndTag;
    var image := EcrImage(account, region, repoAndTag);
    assert image == account + DkrEcr + rest;
    assert image[..12] == account;
    assert image[12..12 + |DkrEcr|] == DkrEcr;
    assert image[12 + |DkrEcr|..] == rest;
    AfterRegionOf(region, repoAndTag);
    LineGroupOf(repoAndTag);
  }

  /** `image` is the ECR reference of `region` and `rt`, possibly followed by one line break. */
  predicate EcrShaped(image: string, region: string, rt: string)
  {
    |image| >= 12 && region != [] && '.' !in region &&
    (image == EcrImage(image[..12], region, rt) || image == EcrImage(image[..12], region, rt) + "\n")
  }

  lemma AfterRegionShape(rest: string) returns (region: string)
    requires AfterRegion(rest).Some?
    ensures region != [] && '.' !in region && rest == region + AmazonAws + AfterRegion(rest).value
  {
    var k := IndexOf(rest, '.');
    region := rest[..k];
    forall i | 0 <= i < |region|
      ensures region[i] != '.'
    {
      assert region[i] == rest[i];
    }
    assert rest[k..][..|AmazonAws|] == AmazonAws;
    assert rest == region + rest[k..k + |AmazonAws|] + rest[k + |AmazonAws|..];
  }

  lemma LineGroupShape(tail: string)
    requires LineGroup(tail).Some?
    ensures var rt := LineGroup(tail).value; rt != [] && '\n' !in rt && (tail == rt || tail == rt + "\n")
  {
    var j := IndexOf(tail, '\n');
    var rt := tail[..j];
    forall i | 0 <= i < |rt|
      ensures rt[i] != '\n'
    {
      assert rt[i] == tail[i];
    }
    if j < |tail| {
      assert tail == rt + [tail[j]];
    }
  }

  /** The pattern matches only references of that shape. */
  lemma EcrMatchShape(image: string)
    requires EcrRepoAndTag(image).Some?
    ensures AllDigits(image[..12])
    ensures EcrRepoAndTag(image).value != [] && '\n' !in EcrRepoAndTag(image).value
    ensures exists region :: EcrShaped(image, region, EcrRepoAndTag(image).value)
  {
    var rest := image[12 + |DkrEcr|..];
    EcrPrefix(image);
    var tail := AfterRegion(rest).value;
    var region := AfterRegionShape(rest);
    LineGroupShape(tail);
    var rt := LineGroup(tail).value;
    Assemble(image, image[..12], region, rest, tail, rt);
    assert EcrShaped(image, region, rt);
  }

  /** The fixed prefix of a matching reference: twelve digits and ".dkr.ecr.", then what `AfterRegion` reads. */
  lemma EcrPrefix(image: string)
    requires EcrRepoAndTag(image).Some?
    ensures |image| >= 12 + |DkrEcr| && AllDigits(image[..12])
    ensures image == image[..12] + DkrEcr + image[12 + |DkrEcr|..]
    ensures AfterRegion(image[12 + |DkrEcr|..]).Some?
    ensures LineGroup(AfterRegion(image[12 + |DkrEcr|..]).value) == EcrRepoAndTag(image)
  {
    assert image == image[..12] + image[12..12 + |DkrEcr|] + image[12 + |DkrEcr|..];
  }

  lemma Assemble(image: string, account: string, region: string, rest: string, tail: string, rt: string)
    requires |account| == 12 && image == account + DkrEcr + rest
    requires rest == region + AmazonAws + tail && (tail == rt || tail == rt + "\n")
    ensures image[..12] == account
    ensures image == EcrImage(account, region, rt) || image == EcrImage(account, region, rt) + "\n"
  {
    assert image[..12] == (account + (DkrEcr + rest))[..12];
    if tail == rt {
      assert image == EcrImage(account, region, rt);
    } else {
      assert image == EcrImage(account, region, rt) + "\n";
    }
  }

  function ImagePath(path: string): seq<Json>
  {
    Strs([path, "spec", "template", "spec", "containers", "image"])
  }

  function NotFromEcr(path: string, image: string): Violation
  {
    Violation("policy.IMAGE_NOT_FROM_ECR", "Image must come from AWS ECR, got " + image, ImagePath(path), "error",
      Raw(JObj(map["image" := JStr(image), "error_code" := JStr("IMAGE_NOT_FROM_ECR"),
                   "forbid_value" := JObj(map["hole" := JStr("version"), "value" := JStr(image)])])))
  }

  function EcrEnvMismatch(path: string, env: string, image: string): Violation
  {
    Violation("policy.ECR_ENV_MISMATCH", "ECR image must match environment '" + env + "', got " + image,
      ImagePath(path), "error",
      Raw(JObj(map["env" := JStr(env), "image" := JStr(image), "error_code" := JStr("ECR_ENV_MISMATCH"),
                   "forbid_tuple" := JObj(map["holes" := JList(Strs(["env", "version"])),
                                              "values" := JList([JStr(env), JStr(image)])])])))
  }

  /** The repository part and the tag of `repo/path:tag`, split at the last ':'. */
  function SplitTag(rt: string): (string, string)
  {
    var k := LastIndexOf(rt, ':');
    if k < |rt| then (rt[..k], rt[k + 1..]) else (rt, "")
  }

  /**
   * `_check_ecr_policy`: an image that is not an ECR reference is reported; an ECR image must
   * name the (case-folded) environment in its repository path or its tag when an env is set.
   */
  function CheckEcr(image: Json, env: Json, path: string): (r: Result<Option<Violation>, PyError>)
    ensures r.Ok? && r.value.Some? ==> EcrFinding(r.value.value)
    ensures image.JStr? && EcrRepoAndTag(image.s).None? ==> r == Ok(Some(NotFromEcr(path, image.s)))
    ensures image.JStr? && EcrRepoAndTag(image.s).Some? && !Truthy(env) ==> r == Ok(None)
    ensures image.JStr? && EcrRepoAndTag(image.s).Some? && env.JStr? && env.s != "" ==>
      var (repo, tag) := SplitTag(EcrRepoAndTag(image.s).value);
      r == (if Contains(Lower(repo), Lower(env.s)) || Contains(Lower(tag), Lower(env.s)) then Ok(None)
            else Ok(Some(EcrEnvMismatch(path, env.s, image.s))))
  {
    if !image.JStr? then Err(TypeError)
    else
      match EcrRepoAndTag(image.s)
      case None => Ok(Some(NotFromEcr(path, image.s)))
      case Some(rt) =>
        if !Truthy(env) then Ok(None)
        else if !env.JStr? then Err(AttributeError)
        else
          var (repo, tag) := SplitTag(rt);
          if Contains(Lower(repo), Lower(env.s)) || Contains(Lower(tag), Lower(env.s)) then Ok(None)
          else Ok(Some(EcrEnvMismatch(path, env.s, image.s)))
  }

  /** The two violations the ECR rule reports. */
  predicate EcrFinding(v: Violation)
  {
    v.id == "policy.IMAGE_NOT_FROM_ECR" || v.id == "policy.ECR_ENV_MISMATCH"
  }

  const ProdReplicas: seq<Json> := [JInt(3), JInt(4), JInt(5)]

  function ReplicaViolation(path: string, env: Json, replicas: Json): Violation
  {
    Violation("policy.ENV_PROD_REPLICA_COUNT", "env=prod requires replicas in [3,5], got " + Render(replicas),
      Strs([path, "spec", "replicas"]), "error",
      Raw(JObj(map["env" := env, "replicas" := replicas, "error_code" := JStr("ENV_PROD_REPLICA_COUNT"),
                   "forbid_tuple" := JObj(map["holes" := JList(Strs(["env", "replicas"])),
                                              "values" := JList([JStr("prod"), replicas])])])))
  }

  function SmallProfileViolation(path: string, env: Json): Violation
  {
    Violation("policy.ENV_PROD_PROFILE_SMALL", "env=prod requires profile in {medium, large}, got small",
      Strs([path, "spec", "template", "spec", "containers"]), "error",
      Raw(JObj(map["env" := env, "profile" := JStr("small"), "error_code" := JStr("ENV_PROD_PROFILE_SMALL"),
                   "forbid_tuple" := JObj(map["holes" := JList(Strs(["env", "profile"])),
                                              "values" := JList(Strs(["prod", "small"]))])])))
  }

  function ImageTagViolation(path: string, env: Json, tag: string): Violation
  {
    Violation("policy.ENV_PROD_IMAGE_TAG", "env=prod requires prod-x.y.z tag pattern, got " + tag,
      ImagePath(path), "error",
      Raw(JObj(map["env" := env, "image_tag" := JStr(tag), "error_code" := JStr("ENV_PROD_IMAGE_TAG")])))
  }

  /** A required label and the upper-case form its violation id uses. */
  datatype RequiredLabel = RequiredLabel(name: string, upper: string, value: Json)

  function MissingLabel(path: string, name: string, upper: string): Violation
  {
    Violation("policy.MISSING_LABEL_" + upper, "env=prod requires label '" + name + "'",
      Strs([path, "spec", "template", "metadata", "labels"]), "error",
      Raw(JObj(map["missing_label" := JStr(name)])))
  }

  /** The required-label loop: a violation for each falsy label, in order. */
  function MissingLabels(path: string, labels: seq<RequiredLabel>): (r: seq<Violation>)
    ensures forall v :: v in r ==> exists l :: l in labels && !Truthy(l.value) && v == MissingLabel(path, l.name, l.upper)
  {
    if labels == [] then []
    else
      (if !Truthy(labels[0].value) then [MissingLabel(path, labels[0].name, labels[0].upper)] else []) +
      MissingLabels(path, labels[1..])
  }

  /** Completeness of the required-label loop: every falsy label is reported. */
  lemma {:induction false} MissingLabelsComplete(path: string, labels: seq<RequiredLabel>)
    ensures forall l :: l in labels && !Truthy(l.value) ==> MissingLabel(path, l.name, l.upper) in MissingLabels(path, labels)
  {
    if labels != [] {
      MissingLabelsComplete(path, labels[1..]);
      forall l | l in labels && !Truthy(l.value)
        ensures MissingLabel(path, l.name, l.upper) in MissingLabels(path, labels)
      {
        if l != labels[0] {
          assert l in labels[1..];
        }
      }
    }
  }

  function MissingPriority(path: string, env: Json): Violation
  {
    Violation("policy.MISSING_PRIORITY_CLASS", "env=prod requires priorityClassName to be set",
      Strs([path, "spec", "priorityClassName"]), "error", Raw(JObj(map["env" := env])))
  }

  /** The values the policy rules read from one Deployment, read in the source's order. */
  datatype PolicyFacts = PolicyFacts(
    env: Json, team: Json, tier: Json, replicas: Json, priorityClass: Json,
    profile: string, image: Json, tag: string, ecr: Option<Violation>)

  /** Facts as reading a manifest produces them: an ECR finding is one of the ECR violations. */
  predicate ReadFacts(p: PolicyFacts)
  {
    p.ecr.Some? ==> EcrFinding(p.ecr.value)
  }

  function ReadPolicyFacts(f: K8sFile): (r: Result<PolicyFacts, PyError>)
    ensures r.Ok? ==> ReadFacts(r.value)
  {
    var m := f.manifest;
    var env :- GetLabel(m, "env");
    var team :- GetLabel(m, "team");
    var tier :- GetLabel(m, "tier");
    // The label reads succeed only on a dictionary.
    var spec := Field(m.fields, "spec", EmptyObj);
    var replicas :- GetOr(spec, "replicas", JNull);
    var priority := Field(spec.fields, "priorityClassName", JNull);
    var profile :- ExtractProfile(m);
    var image :- ExtractImage(m);
    var tag :- ImageTag(image);
    var ecr :- if Truthy(image) then CheckEcr(image, env, f.path) else Ok(None);
    Ok(PolicyFacts(env, team, tier, replicas, priority, profile, image, tag, ecr))
  }

  /** The replica rule: under env=prod a replica count that is set must be 3, 4 or 5. */
  predicate ReplicasBroken(p: PolicyFacts)
  {
    p.env == JStr("prod") && p.replicas != JNull && p.replicas !in ProdReplicas
  }

  predicate ProfileBroken(p: PolicyFacts)
  {
    p.env == JStr("prod") && p.profile == "small"
  }

  predicate TagBroken(p: PolicyFacts)
  {
    p.env == JStr("prod") && p.tag != "" && (p.tag == "latest" || Contains(p.tag, "staging"))
  }

  /** The violations of one Deployment, in the order the rules run. */
  function PolicyViolations(path: string, p: PolicyFacts): seq<Violation>
  {
    var prod := p.env == JStr("prod");
    (if p.ecr.Some? then [p.ecr.value] else []) +
    (if ReplicasBroken(p) then [ReplicaViolation(path, p.env, p.replicas)] else []) +
    (if ProfileBroken(p) then [SmallProfileViolation(path, p.env)] else []) +
    (if TagBroken(p) then [ImageTagViolation(path, p.env, p.tag)] else []) +
    (if prod then MissingLabels(path, [RequiredLabel("env", "ENV", p.env), RequiredLabel("team", "TEAM", p.team),
                                       RequiredLabel("tier", "TIER", p.tier)]) else []) +
    (if prod && !Truthy(p.priorityClass) then [MissingPriority(path, p.env)] else [])
  }

  /** PolicyOracle on one file: Deployments are checked, other manifests pass. */
  function PolicyFile(f: K8sFile): Result<seq<Violation>, PyError>
  {
    var deployment :- IsDeploymentDoc(f.manifest);
    if !deployment then Ok([])
    else
      var p :- ReadPolicyFacts(f);
      Ok(PolicyViolations(f.path, p))
  }

  /** `PolicyOracle.__call__`: the file loop. */
  method PolicyOracle(files: Files) returns (r: Result<seq<Violation>, PyError>)
    ensures r == Joined(files, PolicyFile)
  {
    var vs: seq<Violation> := [];
    for i := 0 to |files|
      invariant Joined(files[..i], PolicyFile) == Ok(vs)
    {
      var found := PolicyFile(files[i]);
      JoinedStep(files, i, PolicyFile);
      if found.Err? {
        JoinedPrefixErr(files, i + 1, PolicyFile);
        return Err(found.error);
      }
      vs := vs + found.value;
    }
    assert files[..|files|] == files;
    r := Ok(vs);
  }

  function PolicyCheck(files: Files): OracleOutcome
  {
    AsOutcome(Joined(files, PolicyFile))
  }

  /** The oracle as the repair loop holds it: an instance, so it has no `__name__`. */
  const Policy: Oracle<Files> := Oracle(None, PolicyCheck)

  // ----- Properties of the policy rules -----

  /** A manifest that is not a Deployment raises no policy violation. */
  lemma PolicyIgnoresOtherKinds(f: K8sFile)
    requires f.manifest.JObj? && !IsDeployment(f)
    ensures PolicyFile(f) == Ok([])
  {
  }

  /**
   * Under env=prod a replica count outside {3, 4, 5} is reported, with a hint that teaches the
   * synthesizer to forbid exactly that (env, replicas) pair; any other count is not reported.
   */
  lemma ReplicaRule(path: string, p: PolicyFacts)
    requires ReadFacts(p)
    ensures ReplicasBroken(p) ==> ReplicaViolation(path, p.env, p.replicas) in PolicyViolations(path, p)
    ensures !ReplicasBroken(p) ==> forall v :: v in PolicyViolations(path, p) ==> v.id != "policy.ENV_PROD_REPLICA_COUNT"
    ensures HintConstraints(ReplicaViolation(path, p.env, p.replicas)) ==
      [ForbidTuple(JList([JStr("env"), JStr("replicas")]), JList([JStr("prod"), p.replicas]))]
  {
    ReplicaHint(path, p.env, p.replicas);
    if !ReplicasBroken(p) {
      ReplicaNotReported(path, p);
    }
  }

  lemma ReplicaHint(path: string, env: Json, replicas: Json)
    ensures HintConstraints(ReplicaViolation(path, env, replicas)) ==
      [ForbidTuple(JList([JStr("env"), JStr("replicas")]), JList([JStr("prod"), replicas]))]
  {
    var v := ReplicaViolation(path, env, replicas);
    var m := v.evidence.j.fields;
    assert "forbid_value" !in m;
    assert TupleHint(m["forbid_tuple"]);
    assert Strs(["env", "replicas"]) == [JStr("env"), JStr("replicas")];
  }

  lemma ReplicaNotReported(path: string, p: PolicyFacts)
    requires ReadFacts(p) && !ReplicasBroken(p)
    ensures forall v :: v in PolicyViolations(path, p) ==> v.id != "policy.ENV_PROD_REPLICA_COUNT"
  {
    LabelIds(path, p);
  }

  function ProdLabels(p: PolicyFacts): seq<RequiredLabel>
  {
    [RequiredLabel("env", "ENV", p.env), RequiredLabel("team", "TEAM", p.team), RequiredLabel("tier", "TIER", p.tier)]
  }

  /** The missing-label violations carry their own ids, and ENV only for a falsy env label. */
  lemma LabelIds(path: string, p: PolicyFacts)
    ensures forall v :: v in MissingLabels(path, ProdLabels(p)) ==>
      v.id[..21] == "policy.MISSING_LABEL_" && (v.id == "policy.MISSING_LABEL_ENV" ==> !Truthy(p.env))
  {
    forall v | v in MissingLabels(path, ProdLabels(p))
      ensures v.id[..21] == "policy.MISSING_LABEL_" && (v.id == "policy.MISSING_LABEL_ENV" ==> !Truthy(p.env))
    {
      var l :| l in ProdLabels(p) && !Truthy(l.value) && v == MissingLabel(path, l.name, l.upper);
      assert v.id == "policy.MISSING_LABEL_" + l.upper;
      if v.id == "policy.MISSING_LABEL_ENV" {
        assert l.upper == v.id[21..];
      }
    }
  }

  /** Under env=prod the env label is never reported missing: "prod" is a non-empty value. */
  lemma ProdHasEnvLabel(path: string, p: PolicyFacts)
    requires ReadFacts(p) && p.env == JStr("prod")
    ensures forall v :: v in PolicyViolations(path, p) ==> v.id != "policy.MISSING_LABEL_ENV"
  {
    LabelIds(path, p);
  }

  /**
   * The small-profile rule under env=prod, with the hint that forbids (prod, small) together; and
   * the tag rule: a `latest` or `staging` tag is reported under env=prod.
   */
  lemma ProfileAndTagRules(path: string, p: PolicyFacts)
    ensures ProfileBroken(p) ==> SmallProfileViolation(path, p.env) in PolicyViolations(path, p)
    ensures TagBroken(p) ==> ImageTagViolation(path, p.env, p.tag) in PolicyViolations(path, p)
    ensures HintConstraints(SmallProfileViolation(path, p.env)) ==
      [ForbidTuple(JList([JStr("env"), JStr("profile")]), JList([JStr("prod"), JStr("small")]))]
  {
    var m := SmallProfileViolation(path, p.env).evidence.j.fields;
    assert "forbid_value" !in m;
    assert TupleHint(m["forbid_tuple"]);
    assert Strs(["env", "profile"]) == [JStr("env"), JStr("profile")];
    assert Strs(["prod", "small"]) == [JStr("prod"), JStr("small")];
  }

  /** The profile and tag rules report nothing when the deployment satisfies them. */
  lemma ProfileAndTagAllowed(path: string, p: PolicyFacts)
    requires ReadFacts(p)
    ensures !ProfileBroken(p) ==> forall v :: v in PolicyViolations(path, p) ==> v.id != "policy.ENV_PROD_PROFILE_SMALL"
    ensures !TagBroken(p) ==> forall v :: v in PolicyViolations(path, p) ==> v.id != "policy.ENV_PROD_IMAGE_TAG"
  {
    LabelIds(path, p);
  }

  /**
   * Under env=prod a falsy team or tier label is reported missing, and so is a falsy
   * priorityClassName; a truthy one is not reported.
   */
  lemma ProdLabelAndPriorityRules(path: string, p: PolicyFacts)
    requires ReadFacts(p) && p.env == JStr("prod")
    ensures !Truthy(p.team) ==> MissingLabel(path, "team", "TEAM") in PolicyViolations(path, p)
    ensures !Truthy(p.tier) ==> MissingLabel(path, "tier", "TIER") in PolicyViolations(path, p)
    ensures !Truthy(p.priorityClass) <==> MissingPriority(path, p.env) in PolicyViolations(path, p)
  {
    MissingLabelsComplete(path, ProdLabels(p));
    assert RequiredLabel("team", "TEAM", p.team) in ProdLabels(p);
    assert RequiredLabel("tier", "TIER", p.tier) in ProdLabels(p);
    LabelIds(path, p);
    if Truthy(p.priorityClass) {
      var v := MissingPriority(path, p.env);
      assert v.id[15] == 'P' && "policy.MISSING_LABEL_"[15] == 'L';
    }
  }

  /** Requests set from a resource profile are recognised as that profile. */
  lemma ProfileRecognised(n: string)
    requires n in ProfileNames
    ensures ProfileFromRequests(JStr(Profile(n).value.requestCpu), JStr(Profile(n).value.requestMemory)) == Ok(n)
  {
  }

  // ----- SecurityOracle -----

  function ContainerPath(path: string, name: Json, last: seq<string>): seq<Json>
  {
    Strs([path, "spec", "template", "spec", "containers"]) + [name] + Strs(last)
  }

  function NoRunAsNonRoot(path: string, name: Json): Violation
  {
    Violation("security.NO_RUN_AS_NON_ROOT." + Render(name), "Container " + Render(name) + " must set runAsNonRoot=true",
      ContainerPath(path, name, ["securityContext"]), "error", Raw(JObj(map["container" := name])))
  }

  function PrivilegeEscalation(path: string, name: Json): Violation
  {
    Violation("security.PRIVILEGE_ESCALATION." + Render(name),
      "Container " + Render(name) + " must set allowPrivilegeEscalation=false",
      ContainerPath(path, name, ["securityContext"]), "error", Raw(JObj(map["container" := name])))
  }

  /**
   * The security rules on one container: `runAsNonRoot` must be truthy, and
   * `allowPrivilegeEscalation` must be exactly `False`.
   */
  function SecurityContainer(path: string, c: Json): (r: Result<seq<Violation>, PyError>)
    ensures c.JObj? && (var sc := Field(c.fields, "securityContext", EmptyObj); sc.JObj?) ==>
      var sc := Field(c.fields, "securityContext", EmptyObj).fields;
      var name := Field(c.fields, "name", JStr("unknown"));
      r == Ok((if !Truthy(Field(sc, "runAsNonRoot", JNull)) then [NoRunAsNonRoot(path, name)] else []) +
              (if Field(sc, "allowPrivilegeEscalation", JNull) != JBool(false) then [PrivilegeEscalation(path, name)] else []))
  {
    var sc :- GetOr(c, "securityContext", EmptyObj);
    var name := Field(c.fields, "name", JStr("unknown"));
    var nonRoot :- GetOr(sc, "runAsNonRoot", JNull);
    var escalation := Field(sc.fields, "allowPrivilegeEscalation", JNull);
    Ok((if !Truthy(nonRoot) then [NoRunAsNonRoot(path, name)] else []) +
       (if escalation != JBool(false) then [PrivilegeEscalation(path, name)] else []))
  }

  function SecurityOf(path: string): Json -> Result<seq<Violation>, PyError>
  {
    c => SecurityContainer(path, c)
  }

  /** The containers of a Deployment document, as its container loop sees them. */
  function LoopContainers(m: Json): Result<seq<Json>, PyError>
  {
    var cs :- ContainersField(m);
    ContainerItems(cs)
  }

  function SecurityFile(f: K8sFile): Result<seq<Violation>, PyError>
  {
    var deployment :- IsDeploymentDoc(f.manifest);
    if !deployment then Ok([])
    else
      var items :- LoopContainers(f.manifest);
      Joined(items, SecurityOf(f.path))
  }

  /** Manifests of another kind produce no security violations. */
  lemma SecurityIgnoresOtherKinds(f: K8sFile)
    requires f.manifest.JObj? && !IsDeployment(f)
    ensures SecurityFile(f) == Ok([])
  {
  }

  /** `SecurityOracle.__call__`: the file loop around the container loop. */
  method SecurityOracle(files: Files) returns (r: Result<seq<Violation>, PyError>)
    ensures r == Joined(files, SecurityFile)
  {
    var vs: seq<Violation> := [];
    for i := 0 to |files|
      invariant Joined(files[..i], SecurityFile) == Ok(vs)
    {
      var f := files[i];
      var found: Result<seq<Violation>, PyError>;
      var deployment := IsDeploymentDoc(f.manifest);
      if deployment.Err? {
        found := Err(deployment.error);
      } else if !deployment.value {
        found := Ok([]);
      } else {
        var items := LoopContainers(f.manifest);
        if items.Err? {
          found := Err(items.error);
        } else {
          found := JoinEach(items.value, SecurityOf(f.path));
        }
      }
      assert found == SecurityFile(f);
      JoinedStep(files, i, SecurityFile);
      if found.Err? {
        JoinedPrefixErr(files, i + 1, SecurityFile);
        return Err(found.error);
      }
      vs := vs + found.value;
    }
    assert files[..|files|] == files;
    r := Ok(vs);
  }

  function SecurityCheck(files: Files): OracleOutcome
  {
    AsOutcome(Joined(files, SecurityFile))
  }

  const Security: Oracle<Files> := Oracle(None, SecurityCheck)

  /** A container given the security baseline passes both security rules. */
  lemma BaselinePassesSecurity(path: string, c: map<string, Json>, name: Json)
    requires EditContainer(c, name, SecurityBaseline).Ok?
    ensures SecurityContainer(path, JObj(EditContainer(c, name, SecurityBaseline).value)) == Ok([])
  {
    SecurityBaselineSpec(c, name);
    var r := EditContainer(c, name, SecurityBaseline).value;
    assert "securityContext" in r && r["securityContext"].JObj?;
    var sc := r["securityContext"];
    assert ["securityContext", "runAsNonRoot"][1..] == ["runAsNonRoot"];
    assert ["securityContext", "allowPrivilegeEscalation"][1..] == ["allowPrivilegeEscalation"];
    assert At(sc, ["runAsNonRoot"]) == Some(JBool(true));
    assert At(sc, ["allowPrivilegeEscalation"]) == Some(JBool(false));
    assert "runAsNonRoot" in sc.fields && sc.fields["runAsNonRoot"] == JBool(true);
    assert "allowPrivilegeEscalation" in sc.fields && sc.fields["allowPrivilegeEscalation"] == JBool(false);
    assert Field(r, "securityContext", EmptyObj) == sc;
    assert Field(sc.fields, "runAsNonRoot", JNull) == JBool(true);
    assert Field(sc.fields, "allowPrivilegeEscalation", JNull) == JBool(false);
    var out := SecurityContainer(path, JObj(r));
    assert out == Ok([] + []);
    var none: seq<Violation> := [];
    assert none + none == none;
    assert out == Ok([]);
  }

  // ----- ResourceOracle -----

  function MissingResources(path: string, name: Json): Violation
  {
    Violation("resource.MISSING_RESOURCES." + Render(name), "Container " + Render(name) + " must specify resources",
      ContainerPath(path, name, []), "error", Raw(JObj(map["container" := name])))
  }

  function NonstandardProfile(path: string, name: Json, cpu: Json, memory: Json): Violation
  {
    Violation("resource.NONSTANDARD_PROFILE." + Render(name),
      "Container " + Render(name) + " resources don't match standard profiles",
      ContainerPath(path, name, ["resources"]), "warning",
      Raw(JObj(map["container" := name, "cpu" := cpu, "memory" := memory,
                   "suggested_profiles" := JList(Strs(ProfileNames))])))
  }

  /**
   * The resource rules on one container: missing resources are an error; requests that match no
   * profile but look like the small one are a warning.
   */
  function ResourceContainer(path: string, c: Json): (r: Result<seq<Violation>, PyError>)
    ensures c.JObj? && !Truthy(Field(c.fields, "resources", EmptyObj)) ==>
      r == Ok([MissingResources(path, Field(c.fields, "name", JStr("unknown")))])
    ensures (Requests(c).Some? && Truthy(Field(c.fields, "resources", EmptyObj)) &&
             Requests(c).value.0.JStr? && Requests(c).value.1.JStr?) ==>
      var (cpu, memory) := Requests(c).value;
      r == if ExactProfile(cpu, memory).None? && cpu.s != "" && memory.s != "" &&
              (Contains(cpu.s, "100m") || Contains(memory.s, "128Mi"))
           then Ok([NonstandardProfile(path, Field(c.fields, "name", JStr("unknown")), cpu, memory)])
           else Ok([])
    ensures r.Ok? ==> |r.value| <= 1
  {
    var name :- GetOr(c, "name", JStr("unknown"));
    var resources := Field(c.fields, "resources", EmptyObj);
    if !Truthy(resources) then Ok([MissingResources(path, name)])
    else
      var requests :- GetOr(resources, "requests", EmptyObj);
      var cpu :- GetOr(requests, "cpu", JStr(""));
      var memory := Field(requests.fields, "memory", JStr(""));
      if ExactProfile(cpu, memory).Some? || !Truthy(cpu) || !Truthy(memory) then Ok([])
      else
        var small :- EitherIn("100m", cpu, "128Mi", memory);
        if small then Ok([NonstandardProfile(path, name, cpu, memory)]) else Ok([])
  }

  function ResourceOf(path: string): Json -> Result<seq<Violation>, PyError>
  {
    c => ResourceContainer(path, c)
  }

  function ResourceFile(f: K8sFile): Result<seq<Violation>, PyError>
  {
    var deployment :- IsDeploymentDoc(f.manifest);
    if !deployment then Ok([])
    else
      var items :- LoopContainers(f.manifest);
      Joined(items, ResourceOf(f.path))
  }

  /** Manifests of another kind produce no resource violations. */
  lemma ResourceIgnoresOtherKinds(f: K8sFile)
    requires f.manifest.JObj? && !IsDeployment(f)
    ensures ResourceFile(f) == Ok([])
  {
  }

  /** `ResourceOracle.__call__`: the file loop around the container loop. */
  method ResourceOracle(files: Files) returns (r: Result<seq<Violation>, PyError>)
    ensures r == Joined(files, ResourceFile)
  {
    var vs: seq<Violation> := [];
    for i := 0 to |files|
      invariant Joined(files[..i], ResourceFile) == Ok(vs)
    {
      var f := files[i];
      var found: Result<seq<Violation>, PyError>;
      var deployment := IsDeploymentDoc(f.manifest);
      if deployment.Err? {
        found := Err(deployment.error);
      } else if !deployment.value {
        found := Ok([]);
      } else {
        var items := LoopContainers(f.manifest);
        if items.Err? {
          found := Err(items.error);
        } else {
          found := JoinEach(items.value, ResourceOf(f.path));
        }
      }
      assert found == ResourceFile(f);
      JoinedStep(files, i, ResourceFile);
      if found.Err? {
        JoinedPrefixErr(files, i + 1, ResourceFile);
        return Err(found.error);
      }
      vs := vs + found.value;
    }
    assert files[..|files|] == files;
    r := Ok(vs);
  }

  function ResourceCheck(files: Files): OracleOutcome
  {
    AsOutcome(Joined(files, ResourceFile))
  }

  const ResourceLimits: Oracle<Files> := Oracle(None, ResourceCheck)

  /** A container given a resource profile passes the resource rules. */
  lemma ProfilePassesResources(path: string, c: map<string, Json>, name: Json, n: string)
    requires n in ProfileNames
    ensures ResourceContainer(path, JObj(EditContainer(c, name, ResourceProfile(Profile(n).value)).value)) == Ok([])
  {
    var p := Profile(n).value;
    var c' := c["resources" := ResourcesJson(p)];
    assert EditContainer(c, name, ResourceProfile(p)) == Ok(c');
    assert "requests" in ResourcesJson(p).fields && Truthy(ResourcesJson(p));
    var requests := ResourcesJson(p).fields["requests"];
    assert requests.fields["cpu"] == JStr(p.requestCpu) && requests.fields["memory"] == JStr(p.requestMemory);
    assert ExactProfile(JStr(p.requestCpu), JStr(p.requestMemory)).Some?;
  }
}

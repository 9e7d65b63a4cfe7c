// The Fix Bank: repair recipes stored under a signature of the failure they repaired, looked up
// by signature before synthesis and updated after every successful repair.
module FixBankStore {
  import opened Wrappers
  import opened Strings
  import opened Values
  import opened Schema
  import opened Template
  import opened Synth
  import opened Manifest

  /** A stored recipe. `successfulAssignment` is `JNull` when none was recorded. */
  datatype FixEntry = FixEntry(
    signature: map<string, Json>,
    template: PatchTemplate,
    holeSpace: HoleSpace,
    learnedConstraints: seq<Constraint>,
    successfulAssignment: Json,
    metadata: map<string, Json>)

  // ----- Signatures -----

  /** `s.get(key)`. */
  function SigField(s: map<string, Json>, key: string): Json
  {
    Field(s, key, JNull)
  }

  /** Two signatures match when their failed oracles and their error codes are equal; context is ignored. */
  predicate SignaturesMatch(a: map<string, Json>, b: map<string, Json>)
  {
    SigField(a, "failed_oracles") == SigField(b, "failed_oracles") &&
    SigField(a, "error_codes") == SigField(b, "error_codes")
  }

  /** Matching is an equivalence relation, and it never looks at anything but its two keys. */
  lemma MatchIsEquivalence(a: map<string, Json>, b: map<string, Json>, c: map<string, Json>, k: string, x: Json)
    ensures SignaturesMatch(a, a)
    ensures SignaturesMatch(a, b) ==> SignaturesMatch(b, a)
    ensures SignaturesMatch(a, b) && SignaturesMatch(b, c) ==> SignaturesMatch(a, c)
    ensures k != "failed_oracles" && k != "error_codes" ==> (SignaturesMatch(a[k := x], b) <==> SignaturesMatch(a, b))
  {
  }

  /** The oracle a violation id names: the text before its first '.'. */
  function OracleOf(id: string): (r: string)
    ensures Contains(id, r) && '.' !in r
  {
    var r := BeforeFirst(id, '.');
    assert id[..|r|] == r;
    ContainsAt(id, r, 0);
    assert forall k :: 0 <= k < |r| ==> r[k] == id[k];
    r
  }

  /** The `error_code` of a violation whose evidence is a non-empty dictionary holding one. */
  function ErrorCodeOf(v: Violation): Option<Json>
  {
    match v.evidence
    case Raw(JObj(m)) => if "error_code" in m then Some(m["error_code"]) else None
    case _ => None
  }

  /** The error codes of `vs`, in violation order, duplicates included. */
  function CodesOf(vs: seq<Violation>): (r: seq<Json>)
    ensures forall c :: c in r <==> exists v :: v in vs && ErrorCodeOf(v) == Some(c)
  {
    if vs == [] then []
    else
      var rest := CodesOf(vs[1..]);
      assert forall v :: v in vs <==> v == vs[0] || v in vs[1..];
      match ErrorCodeOf(vs[0])
      case Some(c) => [c] + rest
      case None => rest
  }

  /**
   * `sorted(set(...))` of the error codes. Codes that are not strings make the signature fail
   * to build.
   */
  function ErrorCodes(vs: seq<Violation>): Result<seq<string>, PyError>
  {
    var codes := CodesOf(vs);
    if forall c :: c in codes ==> c.JStr? then Ok(SortStrings(CodeNames(vs))) else Err(TypeError)
  }

  /** The codes are listed exactly when every one is a string, and then each string code is listed. */
  lemma ErrorCodesSpec(vs: seq<Violation>)
    ensures ErrorCodes(vs).Ok? <==> forall c :: c in CodesOf(vs) ==> c.JStr?
    ensures ErrorCodes(vs).Ok? ==> forall s :: s in ErrorCodes(vs).value <==> JStr(s) in CodesOf(vs)
  {
    if ErrorCodes(vs).Ok? {
      forall s ensures s in ErrorCodes(vs).value <==> JStr(s) in CodesOf(vs) {
        if JStr(s) in CodesOf(vs) {
          assert s in CodeNames(vs);
        }
      }
    }
  }

  function CodeNames(vs: seq<Violation>): set<string>
  {
    set c | c in CodesOf(vs) && c.JStr? :: c.s
  }

  function OraclesOf(vs: seq<Violation>): set<string>
  {
    set v | v in vs :: OracleOf(v.id)
  }

  /** `build_signature`; the artifact's context is computed by the caller. */
  function BuildSignature(vs: seq<Violation>, context: map<string, Json>): Result<map<string, Json>, PyError>
  {
    var codes :- ErrorCodes(vs);
    Ok(SignatureMap(SortStrings(OraclesOf(vs)), codes, context))
  }

  function SignatureMap(oracles: seq<string>, codes: seq<string>, context: map<string, Json>): (s: map<string, Json>)
    ensures s.Keys == {"failed_oracles", "error_codes", "context"} && s["context"] == JObj(context) &&
      s["failed_oracles"] == JList(Strs(oracles)) && s["error_codes"] == JList(Strs(codes))
  {
    map["failed_oracles" := JList(Strs(oracles)), "error_codes" := JList(Strs(codes)), "context" := JObj(context)]
  }

  /** `j` lists exactly `names`, as JSON strings, in strictly increasing order. */
  predicate SortedListing(j: Json, names: set<string>)
  {
    j.JList? &&
    (forall x :: x in j.items ==> x.JStr? && x.s in names) &&
    (forall n :: n in names ==> JStr(n) in j.items) &&
    (forall i, k :: 0 <= i < k < |j.items| ==> StrLess(j.items[i].s, j.items[k].s))
  }

  lemma SortedStrs(names: set<string>)
    ensures SortedListing(JList(Strs(SortStrings(names))), names)
  {
    var xs := SortStrings(names);
    var js := Strs(xs);
    SortStringsSorted(names);
    forall x | x in names ensures JStr(x) in js {
      var i :| 0 <= i < |xs| && xs[i] == x;
      assert js[i] == JStr(x);
    }
  }

  /** The string codes are exactly the codes, when every code is a string. */
  lemma CodeNamesSpec(vs: seq<Violation>)
    requires forall c :: c in CodesOf(vs) ==> c.JStr?
    ensures forall c :: c in CodesOf(vs) <==> c.JStr? && c.s in CodeNames(vs)
  {
    forall c: Json | c.JStr? && c.s in CodeNames(vs) ensures c in CodesOf(vs) {
      var d :| d in CodesOf(vs) && d.JStr? && d.s == c.s;
    }
  }

  /**
   * The signature lists every failed oracle and every string error code exactly once, each in
   * sorted order, and carries the given context.
   */
  lemma BuildSignatureSpec(vs: seq<Violation>, context: map<string, Json>)
    requires forall c :: c in CodesOf(vs) ==> c.JStr?
    ensures BuildSignature(vs, context).Ok?
    ensures var s := BuildSignature(vs, context).value;
      s.Keys == {"failed_oracles", "error_codes", "context"} && s["context"] == JObj(context) &&
      SortedListing(s["failed_oracles"], OraclesOf(vs)) &&
      SortedListing(s["error_codes"], CodeNames(vs))
  {
    SignatureFields(vs, context);
    var s := BuildSignature(vs, context).value;
    SortedStrsAt(OraclesOf(vs), s["failed_oracles"]);
    SortedStrsAt(CodeNames(vs), s["error_codes"]);
  }

  lemma SignatureFields(vs: seq<Violation>, context: map<string, Json>)
    requires forall c :: c in CodesOf(vs) ==> c.JStr?
    ensures BuildSignature(vs, context).Ok?
    ensures var s := BuildSignature(vs, context).value;
      s.Keys == {"failed_oracles", "error_codes", "context"} && s["context"] == JObj(context) &&
      s["failed_oracles"] == JList(Strs(SortStrings(OraclesOf(vs)))) &&
      s["error_codes"] == JList(Strs(SortStrings(CodeNames(vs))))
  {
    assert ErrorCodes(vs) == Ok(SortStrings(CodeNames(vs)));
  }

  lemma SortedStrsAt(names: set<string>, j: Json)
    requires j == JList(Strs(SortStrings(names)))
    ensures SortedListing(j, names)
  {
    SortedStrs(names);
  }

  /** Two failures with the same failed oracles and the same error codes match, whatever their order or context. */
  lemma SameFailuresMatch(vs: seq<Violation>, ws: seq<Violation>, cv: map<string, Json>, cw: map<string, Json>)
    requires OraclesOf(vs) == OraclesOf(ws)
    requires forall c :: c in CodesOf(vs) <==> c in CodesOf(ws)
    requires BuildSignature(vs, cv).Ok?
    ensures BuildSignature(ws, cw).Ok? && SignaturesMatch(BuildSignature(vs, cv).value, BuildSignature(ws, cw).value)
  {
    assert CodeNames(vs) == CodeNames(ws);
  }

  /**
   * The context of a K8s artifact: the first file whose lower-cased path mentions "deployment"
   * gives the app name and, when it is truthy, the pod's env label. Context extraction is best
   * effort: whatever was gathered before an exception is kept.
   */
  function K8sContext(files: Files): map<string, Json>
  {
    if files == [] then map[]
    else if Contains(Lower(files[0].path), "deployment") then DeploymentContext(files[0].manifest)
    else K8sContext(files[1..])
  }

  function DeploymentContext(m: Json): map<string, Json>
  {
    match Dig(m, ["metadata"])
    case Err(_) => map[]
    case Ok(meta) =>
      match GetOr(meta, "name", JStr(""))
      case Err(_) => map[]
      case Ok(app) =>
        match PodLabel(m, "env", JStr(""))
        case Err(_) => map["app" := app]
        case Ok(env) => if Truthy(env) then map["app" := app, "env" := env] else map["app" := app]
  }

  // ----- Merging constraints -----

  /** `(c.type, json.dumps(c.data, sort_keys=True))`: canonical JSON text is structural equality. */
  function Key(c: Constraint): (string, map<string, Json>)
  {
    (c.kind, c.data)
  }

  function Keys(cs: seq<Constraint>): set<(string, map<string, Json>)>
  {
    set c | c in cs :: Key(c)
  }

  /** The incoming constraints whose key is not in `known`, in order; repeats among them are kept. */
  function Unknown(incoming: seq<Constraint>, known: set<(string, map<string, Json>)>): (r: seq<Constraint>)
    ensures forall c :: c in r <==> c in incoming && Key(c) !in known
  {
    if incoming == [] then []
    else
      var rest := Unknown(incoming[1..], known);
      assert forall c :: c in incoming <==> c == incoming[0] || c in incoming[1..];
      if Key(incoming[0]) in known then rest else [incoming[0]] + rest
  }

  /** The learned constraints of a hit after `add`: the stored ones, then the unknown incoming ones. */
  function Merge(existing: seq<Constraint>, incoming: seq<Constraint>): seq<Constraint>
  {
    existing + Unknown(incoming, Keys(existing))
  }

  /**
   * Merging keeps the stored constraints as a prefix, adds only incoming ones, and afterwards
   * every incoming key is known; merging the same constraints again changes nothing.
   */
  lemma MergeSpec(existing: seq<Constraint>, incoming: seq<Constraint>)
    ensures var m := Merge(existing, incoming);
      m[..|existing|] == existing &&
      (forall c :: c in m[|existing|..] ==> c in incoming && Key(c) !in Keys(existing)) &&
      Keys(m) == Keys(existing) + Keys(incoming) &&
      Merge(m, incoming) == m
  {
    var m := Merge(existing, incoming);
    var u := Unknown(incoming, Keys(existing));
    assert m[..|existing|] == existing && m[|existing|..] == u;
    forall k
      ensures k in Keys(m) <==> k in Keys(existing) + Keys(incoming)
    {
      if k in Keys(incoming) {
        var c :| c in incoming && Key(c) == k;
        if k !in Keys(existing) {
          assert c in u;
        }
      }
    }
    UnknownNone(incoming, Keys(m));
    assert m + [] == m;
  }

  lemma {:induction false} UnknownNone(incoming: seq<Constraint>, known: set<(string, map<string, Json>)>)
    requires forall c :: c in incoming ==> Key(c) in known
    ensures Unknown(incoming, known) == []
  {
    if incoming != [] {
      assert incoming[0] in incoming;
      forall c | c in incoming[1..] ensures Key(c) in known {
        assert c in incoming;
      }
      UnknownNone(incoming[1..], known);
    }
  }

  /** The same new constraint arriving twice in one `add` is stored twice. */
  lemma IncomingRepeatsKept(c: Constraint)
    ensures Merge([], [c, c]) == [c, c]
  {
    assert Keys([]) == {};
    assert Unknown([c], {}) == [c];
  }

  // ----- Adding entries -----

  /** `metadata.get("success_count", 0)`; only a number can be incremented. */
  function SuccessCount(md: map<string, Json>): (r: Result<int, PyError>)
    ensures "success_count" !in md ==> r == Ok(0)
  {
    var v := Field(md, "success_count", JInt(0));
    match v
    case JInt(n) => Ok(n)
    case JBool(b) => Ok(if b then 1 else 0)
    case _ => Err(TypeError)
  }

  /** The stored entry after a hit: one more success, used `now`, and the merged constraints. */
  function Bumped(e: FixEntry, incoming: FixEntry, now: string): Result<FixEntry, PyError>
  {
    var count :- SuccessCount(e.metadata);
    Ok(e.(metadata := e.metadata["success_count" := JInt(count + 1)]["last_used" := JStr(now)],
          learnedConstraints := Merge(e.learnedConstraints, incoming.learnedConstraints)))
  }

  /** A new entry as stored: created now unless it says otherwise, with one success. */
  function Fresh(e: FixEntry, now: string): FixEntry
  {
    var md := if "created_at" in e.metadata then e.metadata else e.metadata["created_at" := JStr(now)];
    e.(metadata := md["success_count" := JInt(1)]["last_used" := JStr(now)])
  }

  /** The position of the first entry whose signature matches `sig`. */
  function FindIndex(entries: seq<FixEntry>, sig: map<string, Json>): (r: Option<nat>)
    ensures r.Some? ==> (r.value < |entries| && SignaturesMatch(entries[r.value].signature, sig) &&
      forall j :: 0 <= j < r.value ==> !SignaturesMatch(entries[j].signature, sig))
    ensures r.None? ==> forall j :: 0 <= j < |entries| ==> !SignaturesMatch(entries[j].signature, sig)
  {
    if entries == [] then None
    else if SignaturesMatch(entries[0].signature, sig) then Some(0)
    else
      match FindIndex(entries[1..], sig)
      case None => None
      case Some(i) => Some(i + 1)
  }

  /** `lookup`'s answer: the first stored entry whose signature matches. */
  function FirstMatch(entries: seq<FixEntry>, sig: map<string, Json>): Option<FixEntry>
  {
    match FindIndex(entries, sig)
    case Some(i) => Some(entries[i])
    case None => None
  }

  /** The entries after `add(entry)`. */
  function AddTo(entries: seq<FixEntry>, entry: FixEntry, now: string): Result<seq<FixEntry>, PyError>
  {
    match FindIndex(entries, entry.signature)
    case Some(i) =>
      var e :- Bumped(entries[i], entry, now);
      Ok(entries[i := e])
    case None => Ok(entries + [Fresh(entry, now)])
  }

  /** A miss appends exactly one entry, with the incoming signature and a success count of one. */
  lemma AddMiss(entries: seq<FixEntry>, entry: FixEntry, now: string)
    requires forall j :: 0 <= j < |entries| ==> !SignaturesMatch(entries[j].signature, entry.signature)
    ensures AddTo(entries, entry, now).Ok?
    ensures var r := AddTo(entries, entry, now).value;
      |r| == |entries| + 1 && r[..|entries|] == entries &&
      r[|entries|].signature == entry.signature &&
      r[|entries|].learnedConstraints == entry.learnedConstraints &&
      r[|entries|].metadata["success_count"] == JInt(1) &&
      r[|entries|].metadata["last_used"] == JStr(now)
  {
    var r := AddTo(entries, entry, now).value;
    assert r == entries + [Fresh(entry, now)];
  }

  /**
   * A hit keeps the number of entries, changes only the first match, adds one to its success
   * count and merges the incoming constraints into its own; the incoming entry is not stored.
   */
  lemma AddHit(entries: seq<FixEntry>, entry: FixEntry, now: string, i: nat)
    requires i < |entries| && SignaturesMatch(entries[i].signature, entry.signature)
    requires forall j :: 0 <= j < i ==> !SignaturesMatch(entries[j].signature, entry.signature)
    requires SuccessCount(entries[i].metadata).Ok?
    ensures AddTo(entries, entry, now).Ok?
    ensures var r := AddTo(entries, entry, now).value;
      |r| == |entries| &&
      (forall j :: 0 <= j < |entries| && j != i ==> r[j] == entries[j]) &&
      r[i].signature == entries[i].signature && r[i].template == entries[i].template &&
      r[i].holeSpace == entries[i].holeSpace &&
      r[i].metadata["success_count"] == JInt(SuccessCount(entries[i].metadata).value + 1) &&
      r[i].learnedConstraints == Merge(entries[i].learnedConstraints, entry.learnedConstraints)
  {
    assert FindIndex(entries, entry.signature) == Some(i);
  }

  /** A stored count that is not a number makes `add` fail before it changes anything. */
  lemma AddHitBadCount(entries: seq<FixEntry>, entry: FixEntry, now: string)
    requires FindIndex(entries, entry.signature).Some?
    requires SuccessCount(entries[FindIndex(entries, entry.signature).value].metadata).Err?
    ensures AddTo(entries, entry, now).Err?
  {
  }

  /** No two entries have matching signatures. */
  predicate Distinct(entries: seq<FixEntry>)
  {
    forall i, j :: 0 <= i < j < |entries| ==> !SignaturesMatch(entries[i].signature, entries[j].signature)
  }

  /** `add` keeps the entries distinct: a bank filled only through `add` never holds two matching recipes. */
  lemma AddKeepsDistinct(entries: seq<FixEntry>, entry: FixEntry, now: string)
    requires Distinct(entries) && AddTo(entries, entry, now).Ok?
    ensures Distinct(AddTo(entries, entry, now).value)
  {
    var r := AddTo(entries, entry, now).value;
    match FindIndex(entries, entry.signature)
    case Some(i) =>
      assert r[i].signature == entries[i].signature;
      forall a, b | 0 <= a < b < |r| ensures !SignaturesMatch(r[a].signature, r[b].signature) {
        assert r[a].signature == entries[a].signature && r[b].signature == entries[b].signature;
      }
    case None =>
      forall a, b | 0 <= a < b < |r| ensures !SignaturesMatch(r[a].signature, r[b].signature) {
        if b == |entries| {
          assert r[b].signature == entry.signature && r[a] == entries[a];
        } else {
          assert r[a] == entries[a] && r[b] == entries[b];
        }
      }
  }

  // ----- Storage format -----

  /** `serialize_hole_space`: each domain becomes a list sorted by `str`. */
  function SerializeHoleSpace(hs: HoleSpace): Json
  {
    JObj(map h | h in hs :: JList(ValuesJson(SortValues(hs[h]))))
  }

  function ValuesJson(vs: seq<Value>): (r: seq<Json>)
    ensures |r| == |vs| && forall i :: 0 <= i < |vs| ==> r[i] == ToJson(vs[i])
  {
    seq(|vs|, i requires 0 <= i < |vs| => ToJson(vs[i]))
  }

  /** `deserialize_hole_space`: each list becomes a set. Only lists of scalars are read back. */
  function DeserializeHoleSpace(d: Json): Option<HoleSpace>
  {
    if d.JObj? && forall h :: h in d.fields ==> ScalarList(d.fields[h]) then
      Some(map h | h in d.fields :: DomainFrom(d.fields[h].items))
    else None
  }

  /** `set(values)` of a list of scalars. */
  function DomainFrom(items: seq<Json>): set<Value>
  {
    set x | x in items && FromJson(x).Some? :: FromJson(x).value
  }

  predicate ScalarList(j: Json)
  {
    j.JList? && forall x :: x in j.items ==> FromJson(x).Some?
  }

  /** One stored domain reads back as the set it was written from. */
  lemma DomainRoundTrip(d: set<Value>)
    ensures var js := ValuesJson(SortValues(d));
      ScalarList(JList(js)) && DomainFrom(js) == d
  {
    var vs := SortValues(d);
    var js := ValuesJson(vs);
    forall x | x in js ensures FromJson(x).Some? {
      var i :| 0 <= i < |js| && js[i] == x;
      FromJsonToJson(vs[i]);
    }
    var back := DomainFrom(js);
    forall v | v in d ensures v in back {
      var i :| 0 <= i < |vs| && vs[i] == v;
      FromJsonToJson(v);
      assert js[i] == ToJson(v);
    }
    forall v | v in back ensures v in d {
      var x :| x in js && FromJson(x) == Some(v);
      var i :| 0 <= i < |js| && js[i] == x;
      FromJsonToJson(vs[i]);
    }
  }

  /** A hole space comes back from storage unchanged, and each stored domain lists its values in `str` order. */
  lemma HoleSpaceRoundTrip(hs: HoleSpace)
    ensures DeserializeHoleSpace(SerializeHoleSpace(hs)) == Some(hs)
    ensures forall h :: h in hs ==> SerializeHoleSpace(hs).fields[h] == JList(ValuesJson(SortValues(hs[h])))
  {
    var d := SerializeHoleSpace(hs);
    assert d.fields.Keys == hs.Keys;
    forall h | h in hs ensures ScalarList(d.fields[h]) && DomainFrom(d.fields[h].items) == hs[h] {
      DomainAt(hs[h], d.fields[h]);
    }
    ReadBack(hs, d);
  }

  lemma DomainAt(d: set<Value>, j: Json)
    requires j == JList(ValuesJson(SortValues(d)))
    ensures ScalarList(j) && DomainFrom(j.items) == d
  {
    DomainRoundTrip(d);
  }

  lemma ReadBack(hs: HoleSpace, d: Json)
    requires d.JObj? && d.fields.Keys == hs.Keys
    requires forall h :: h in hs ==> ScalarList(d.fields[h]) && DomainFrom(d.fields[h].items) == hs[h]
    ensures DeserializeHoleSpace(d) == Some(hs)
  {
    var back := map h | h in d.fields :: DomainFrom(d.fields[h].items);
    assert back == hs;
  }

  function ConstraintsJson(cs: seq<Constraint>): (r: seq<Json>)
    ensures |r| == |cs| && forall i :: 0 <= i < |cs| ==> r[i] == ConstraintToDict(cs[i])
  {
    seq(|cs|, i requires 0 <= i < |cs| => ConstraintToDict(cs[i]))
  }

  function ConstraintsFrom(ds: seq<Json>): Option<seq<Constraint>>
    decreases |ds|
  {
    if ds == [] then Some([])
    else
      var c :- ConstraintFromDict(ds[0]);
      var rest :- ConstraintsFrom(ds[1..]);
      Some([c] + rest)
  }

  lemma {:induction false} ConstraintsRoundTrip(cs: seq<Constraint>)
    ensures ConstraintsFrom(ConstraintsJson(cs)) == Some(cs)
    decreases |cs|
  {
    if cs != [] {
      ConstraintDictRoundTrip(cs[0]);
      ConstraintsRoundTrip(cs[1..]);
      assert ConstraintsJson(cs)[1..] == ConstraintsJson(cs[1..]);
      assert cs == [cs[0]] + cs[1..];
    }
  }

  /** `_entry_to_dict`. */
  function EntryToDict(e: FixEntry): Json
  {
    JObj(EntryFields(JObj(e.signature), SerializeTemplate(e.template), SerializeHoleSpace(e.holeSpace),
                     JList(ConstraintsJson(e.learnedConstraints)), e.successfulAssignment, JObj(e.metadata)))
  }

  function EntryFields(sig: Json, template: Json, hs: Json, cs: Json, assignment: Json, md: Json): (m: map<string, Json>)
    ensures m.Keys == {"signature", "template", "hole_space", "learned_constraints", "successful_assignment", "metadata"}
    ensures m["signature"] == sig && m["template"] == template && m["hole_space"] == hs &&
      m["learned_constraints"] == cs && m["successful_assignment"] == assignment && m["metadata"] == md
  {
    map["signature" := sig, "template" := template, "hole_space" := hs,
        "learned_constraints" := cs, "successful_assignment" := assignment, "metadata" := md]
  }

  /**
   * `_dict_to_entry`: `signature`, `template` and `hole_space` are required; the constraints,
   * the assignment and the metadata default to empty. A signature or metadata that is not a
   * dictionary is rejected.
   */
  function DictToEntry(d: Json): Option<FixEntry>
  {
    if !d.JObj? || "signature" !in d.fields || "template" !in d.fields || "hole_space" !in d.fields then None
    else
      var sig := d.fields["signature"];
      var template :- DeserializeTemplate(d.fields["template"]);
      var hs :- DeserializeHoleSpace(d.fields["hole_space"]);
      var stored := Field(d.fields, "learned_constraints", JList([]));
      var md := Field(d.fields, "metadata", EmptyObj);
      if !sig.JObj? || !stored.JList? || !md.JObj? then None
      else
        var cs :- ConstraintsFrom(stored.items);
        Some(FixEntry(sig.fields, template, hs, cs, Field(d.fields, "successful_assignment", JNull), md.fields))
  }

  /** An entry comes back from storage unchanged, provided no concrete template argument looks like a stored placeholder. */
  lemma EntryRoundTrip(e: FixEntry)
    requires NoMarkerArgs(e.template)
    ensures DictToEntry(EntryToDict(e)) == Some(e)
  {
    TemplateRoundTrip(e.template);
    HoleSpaceRoundTrip(e.holeSpace);
    ConstraintsRoundTrip(e.learnedConstraints);
  }

  function EntriesJson(es: seq<FixEntry>): (r: seq<Json>)
    ensures |r| == |es| && forall i :: 0 <= i < |es| ==> r[i] == EntryToDict(es[i])
  {
    seq(|es|, i requires 0 <= i < |es| => EntryToDict(es[i]))
  }

  function EntriesFrom(ds: seq<Json>): Option<seq<FixEntry>>
    decreases |ds|
  {
    if ds == [] then Some([])
    else
      var e :- DictToEntry(ds[0]);
      var rest :- EntriesFrom(ds[1..]);
      Some([e] + rest)
  }

  /** The document `save` writes. */
  function SaveData(es: seq<FixEntry>): Json
  {
    JObj(map["version" := JStr("1.0"), "entries" := JList(EntriesJson(es))])
  }

  /** The entries `load` reads from a document; anything it cannot read gives no entries at all. */
  function Load(data: Json): seq<FixEntry>
  {
    match Get(data, "entries", JList([]))
    case Some(JList(ds)) => (match EntriesFrom(ds) case Some(es) => es case None => [])
    case _ => []
  }

  lemma {:induction false} EntriesRoundTrip(es: seq<FixEntry>)
    requires forall i :: 0 <= i < |es| ==> NoMarkerArgs(es[i].template)
    ensures EntriesFrom(EntriesJson(es)) == Some(es)
    decreases |es|
  {
    if es != [] {
      EntryRoundTrip(es[0]);
      EntriesRoundTrip(es[1..]);
      assert EntriesJson(es)[1..] == EntriesJson(es[1..]);
      assert es == [es[0]] + es[1..];
    }
  }

  /** Loading what was saved gives back the same entries. */
  lemma LoadSaveRoundTrip(es: seq<FixEntry>)
    requires forall i :: 0 <= i < |es| ==> NoMarkerArgs(es[i].template)
    ensures Load(SaveData(es)) == es
  {
    EntriesRoundTrip(es);
  }

  /** A document that is not a dictionary, or whose entries are not a list, loads as an empty bank. */
  lemma LoadFailsEmpty(data: Json)
    requires !data.JObj? || ("entries" in data.fields && !data.fields["entries"].JList?)
    ensures Load(data) == []
  {
  }

  // ----- The bank -----

  /**
   * The bank. `saved` is the document in its file: `None` while there is no file; a bank created
   * without a file path never writes one.
   */
  class FixBank {
    const persistent: bool
    var entries: seq<FixEntry>
    var saved: Option<Json>

    /** `FixBank(file_path)`: an existing file is loaded; one that cannot be read gives an empty bank. */
    constructor(persistent: bool, file: Option<Json>)
      ensures this.persistent == persistent
      ensures entries == (if persistent && file.Some? then Load(file.value) else [])
      ensures saved == (if persistent then file else None)
    {
      this.persistent := persistent;
      entries := if persistent && file.Some? then Load(file.value) else [];
      saved := if persistent then file else None;
    }

    /** The search loop of `lookup`: the first matching entry's position. */
    method Find(sig: map<string, Json>) returns (r: Option<nat>)
      ensures r == FindIndex(entries, sig)
    {
      var i := 0;
      while i < |entries|
        invariant 0 <= i <= |entries|
        invariant forall j :: 0 <= j < i ==> !SignaturesMatch(entries[j].signature, sig)
      {
        if SignaturesMatch(entries[i].signature, sig) {
          return Some(i);
        }
        i := i + 1;
      }
      return None;
    }

    /** `lookup`: the first stored entry whose signature matches `sig`, in insertion order. */
    method Lookup(sig: map<string, Json>) returns (r: Option<FixEntry>)
      ensures r == FirstMatch(entries, sig)
      ensures r.Some? <==> exists j :: 0 <= j < |entries| && SignaturesMatch(entries[j].signature, sig)
      ensures r.Some? ==> exists j :: (0 <= j < |entries| && r.value == entries[j] &&
        SignaturesMatch(r.value.signature, sig) &&
        forall k :: 0 <= k < j ==> !SignaturesMatch(entries[k].signature, sig))
    {
      var i := Find(sig);
      if i.Some? {
        r := Some(entries[i.value]);
      } else {
        r := None;
      }
    }

    /** `save`. */
    method Save()
      modifies this
      ensures entries == old(entries)
      ensures saved == if persistent then Some(SaveData(entries)) else old(saved)
    {
      if persistent {
        saved := Some(SaveData(entries));
      }
    }

    /**
     * `add(entry)`: merge into the first matching entry, or append a new one; then save. The
     * result says whether it was a hit. A stored success count that is not a number raises
     * before anything changes.
     */
    method Add(entry: FixEntry, now: string) returns (r: Result<bool, PyError>)
      modifies this
      ensures r.Ok? <==> AddTo(old(entries), entry, now).Ok?
      ensures r.Ok? ==> (entries == AddTo(old(entries), entry, now).value &&
        r.value == FindIndex(old(entries), entry.signature).Some? &&
        saved == (if persistent then Some(SaveData(entries)) else old(saved)))
      ensures r.Err? ==> r.error == AddTo(old(entries), entry, now).error
      ensures r.Err? ==> entries == old(entries) && saved == old(saved)
    {
      var i := Find(entry.signature);
      if i.Some? {
        var bumped := Bumped(entries[i.value], entry, now);
        if bumped.Err? {
          return Err(bumped.error);
        }
        entries := entries[i.value := bumped.value];
      } else {
        entries := entries + [Fresh(entry, now)];
      }
      Save();
      r := Ok(i.Some?);
    }
  }
}

// The engine's shared records: violation evidence, violations, oracles and patches.
module Schema {
  import opened Wrappers
  import opened Values

  /**
   * Standardised evidence attached to a violation; every field is optional and
   * `JNull` means "not set".
   */
  datatype ViolationEvidence = ViolationEvidence(
    inputs: Json, expected: Json, actual: Json,
    file: Json, lineno: Json, func: Json,
    locals: Json, localsSnapshot: Json, executingNode: Json,
    executedLines: Json,
    exceptionType: Json, exceptionMessage: Json)

  const NoEvidence := ViolationEvidence(JNull, JNull, JNull, JNull, JNull, JNull,
                                        JNull, JNull, JNull, JNull, JNull, JNull)

  /** Keeps the two names for the captured locals in step: whichever is set fills the other. */
  function PostInit(e: ViolationEvidence): (r: ViolationEvidence)
    ensures (r.locals == JNull) == (r.localsSnapshot == JNull)
    ensures e.locals != JNull ==> r.locals == e.locals
    ensures e.localsSnapshot != JNull ==> r.localsSnapshot == e.localsSnapshot
    ensures r.(locals := e.locals, localsSnapshot := e.localsSnapshot) == e
  {
    if e.localsSnapshot != JNull && e.locals == JNull then e.(locals := e.localsSnapshot)
    else if e.locals != JNull && e.localsSnapshot == JNull then e.(localsSnapshot := e.locals)
    else e
  }

  /** The dictionary keys of a `ViolationEvidence`, in declaration order. */
  const EvidenceKeys: seq<string> := ["inputs", "expected", "actual", "file", "lineno", "func",
    "locals", "locals_snapshot", "executing_node", "executed_lines",
    "exception_type", "exception_message"]

  /** The value `to_dict` writes under key `k`; the key "locals" carries the snapshot. */
  function DictField(e: ViolationEvidence, k: string): Json
  {
    match k
    case "inputs" => e.inputs
    case "expected" => e.expected
    case "actual" => e.actual
    case "file" => e.file
    case "lineno" => e.lineno
    case "func" => e.func
    case "locals" => e.localsSnapshot
    case "locals_snapshot" => e.localsSnapshot
    case "executing_node" => e.executingNode
    case "executed_lines" => e.executedLines
    case "exception_type" => e.exceptionType
    case "exception_message" => e.exceptionMessage
    case _ => JNull
  }

  /** `ViolationEvidence.to_dict`: the fields that are set, under their dictionary keys. */
  function EvidenceToDict(e: ViolationEvidence): map<string, Json>
  {
    map k | k in EvidenceKeys && DictField(e, k) != JNull :: DictField(e, k)
  }

  function Lookup(m: map<string, Json>, k: string): Json
  {
    if k in m then m[k] else JNull
  }

  /**
   * `ViolationEvidence(**d)` for an evidence dictionary `d`, after mirroring "locals" and
   * "locals_snapshot" and dropping keys that are not evidence fields.
   */
  function EvidenceFromDict(d: map<string, Json>): (r: ViolationEvidence)
    ensures (r.locals == JNull) == (r.localsSnapshot == JNull)
    ensures r.inputs == Lookup(d, "inputs") && r.expected == Lookup(d, "expected")
    ensures r.actual == Lookup(d, "actual") && r.file == Lookup(d, "file")
    ensures r.lineno == Lookup(d, "lineno") && r.func == Lookup(d, "func")
    ensures r.executingNode == Lookup(d, "executing_node")
    ensures r.executedLines == Lookup(d, "executed_lines")
    ensures r.exceptionType == Lookup(d, "exception_type")
    ensures r.exceptionMessage == Lookup(d, "exception_message")
    ensures "locals" in d && d["locals"] != JNull ==> r.locals == d["locals"]
    ensures "locals_snapshot" in d && d["locals_snapshot"] != JNull ==>
      r.localsSnapshot == d["locals_snapshot"]
  {
    var mirrored :=
      if "locals" in d && "locals_snapshot" !in d then d["locals_snapshot" := d["locals"]]
      else if "locals_snapshot" in d && "locals" !in d then d["locals" := d["locals_snapshot"]]
      else d;
    PostInit(ViolationEvidence(
      Lookup(mirrored, "inputs"), Lookup(mirrored, "expected"), Lookup(mirrored, "actual"),
      Lookup(mirrored, "file"), Lookup(mirrored, "lineno"), Lookup(mirrored, "func"),
      Lookup(mirrored, "locals"), Lookup(mirrored, "locals_snapshot"),
      Lookup(mirrored, "executing_node"), Lookup(mirrored, "executed_lines"),
      Lookup(mirrored, "exception_type"), Lookup(mirrored, "exception_message")))
  }

  /** `to_dict` then a read of one key gives back that field; `JNull` stands for an absent key. */
  lemma ReadBackInputs(e: ViolationEvidence)
    ensures Lookup(EvidenceToDict(e), "inputs") == e.inputs
  {
  }

  lemma ReadBackExpected(e: ViolationEvidence)
    ensures Lookup(EvidenceToDict(e), "expected") == e.expected
  {
  }

  lemma ReadBackActual(e: ViolationEvidence)
    ensures Lookup(EvidenceToDict(e), "actual") == e.actual
  {
  }

  lemma ReadBackFile(e: ViolationEvidence)
    ensures Lookup(EvidenceToDict(e), "file") == e.file
  {
  }

  lemma ReadBackLineno(e: ViolationEvidence)
    ensures Lookup(EvidenceToDict(e), "lineno") == e.lineno
  {
  }

  lemma ReadBackFunc(e: ViolationEvidence)
    ensures Lookup(EvidenceToDict(e), "func") == e.func
  {
  }

  lemma ReadBackExecutingNode(e: ViolationEvidence)
    ensures Lookup(EvidenceToDict(e), "executing_node") == e.executingNode
  {
  }

  lemma ReadBackExecutedLines(e: ViolationEvidence)
    ensures Lookup(EvidenceToDict(e), "executed_lines") == e.executedLines
  {
  }

  lemma ReadBackExceptionType(e: ViolationEvidence)
    ensures Lookup(EvidenceToDict(e), "exception_type") == e.exceptionType
  {
  }

  lemma ReadBackExceptionMessage(e: ViolationEvidence)
    ensures Lookup(EvidenceToDict(e), "exception_message") == e.exceptionMessage
  {
  }

  /** Both names of the captured locals read back the snapshot, and are present together. */
  lemma ReadBackLocals(e: ViolationEvidence)
    ensures Lookup(EvidenceToDict(e), "locals") == e.localsSnapshot
    ensures Lookup(EvidenceToDict(e), "locals_snapshot") == e.localsSnapshot
    ensures ("locals" in EvidenceToDict(e)) == ("locals_snapshot" in EvidenceToDict(e))
  {
  }

  /** Writing evidence out and reading it back loses nothing while both locals agree. */
  lemma EvidenceDictRoundTrip(e: ViolationEvidence)
    requires e.locals == e.localsSnapshot
    ensures EvidenceFromDict(EvidenceToDict(e)) == e
  {
    ReadBackInputs(e);
    ReadBackExpected(e);
    ReadBackActual(e);
    ReadBackFile(e);
    ReadBackLineno(e);
    ReadBackFunc(e);
    ReadBackExecutingNode(e);
    ReadBackExecutedLines(e);
    ReadBackExceptionType(e);
    ReadBackExceptionMessage(e);
    ReadBackLocals(e);
  }

  /**
   * When both locals fields are set to different values, `to_dict` writes only the snapshot, so
   * reading the dictionary back loses `locals`: both fields come back as the snapshot.
   */
  lemma EvidenceDictLosesLocals(e: ViolationEvidence)
    requires e.locals != JNull && e.localsSnapshot != JNull && e.locals != e.localsSnapshot
    ensures EvidenceFromDict(EvidenceToDict(e)).locals == e.localsSnapshot
    ensures EvidenceFromDict(EvidenceToDict(e)) != e
  {
    ReadBackLocals(e);
  }

  /** What a violation carries as evidence: a raw Python value or a `ViolationEvidence`. */
  datatype Evidence = Raw(j: Json) | Structured(ev: ViolationEvidence)

  /** A test failure, policy violation or error reported by an oracle. */
  datatype Violation = Violation(
    id: string, message: string, path: seq<Json>, severity: string, evidence: Evidence)

  /** `Violation.get_evidence`: the evidence in its standard form. */
  function GetEvidence(v: Violation): (r: ViolationEvidence)
    ensures v.evidence.Structured? ==> r == v.evidence.ev
    ensures v.evidence.Raw? && v.evidence.j.JObj? ==> r == EvidenceFromDict(v.evidence.j.fields)
    ensures v.evidence.Raw? && !v.evidence.j.JObj? ==> r == NoEvidence
  {
    match v.evidence
    case Structured(ev) => ev
    case Raw(JObj(m)) => EvidenceFromDict(m)
    case Raw(_) => NoEvidence
  }

  /** An exception an oracle raised: its type name and its message. */
  datatype OracleError = OracleError(typeName: string, message: string)

  type OracleOutcome = Result<seq<Violation>, OracleError>

  /**
   * A verification function over artifacts of type `A`; `name` is the callable's `__name__`
   * when it has one.
   */
  datatype Oracle<!A> = Oracle(name: Option<string>, check: A -> OracleOutcome)

  /** One atomic edit: an operation name and its arguments. */
  datatype PatchOp = PatchOp(op: string, args: map<string, Json>)

  /** An edit program: operations applied in order. */
  datatype Patch = Patch(ops: seq<PatchOp>)
}

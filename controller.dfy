// The repair entry point: check the artifact, pick where the patch template comes from (Fix
// Bank, proposer, default, caller), run the CEGIS loop, and record a success in the Fix Bank.
module Controller {
  import opened Wrappers
  import opened Values
  import opened Schema
  import opened Template
  import opened Synth
  import opened Synthesizer
  import opened Loop
  import opened Manifest
  import opened FixBankStore

  /**
   * The template proposer (the LLM adapter): a template and hole space for an artifact and its
   * violations, or the message of the exception it raised.
   */
  type Proposer<!A> = (A, seq<Violation>) -> Result<(PatchTemplate, HoleSpace), string>

  /** What `_determine_template_source` returns. `initial` is the Fix Bank's constraints on a hit. */
  datatype TemplateSource = TemplateSource(
    template: PatchTemplate, holeSpace: HoleSpace, initial: Option<seq<Constraint>>,
    fixbankHit: bool, llmCalls: nat)

  const NoTemplateMessage: string :=
    "No template/hole_space available. Need one of: Fix Bank entry, LLM adapter, default_template_fn, or provided template/hole_space"

  /**
   * The template source in priority order: a Fix Bank hit, then the proposer unless it raises,
   * then the default template, then the caller's template and hole space. `entries` is the Fix
   * Bank's content, `None` when there is no Fix Bank; `sig` is what `build_signature` gives for
   * the violations and the artifact's context, consulted only when there is one.
   */
  function SourceOf<A>(artifact: A, violations: seq<Violation>, sig: Result<map<string, Json>, PyError>,
                       entries: Option<seq<FixEntry>>, proposer: Option<Proposer<A>>,
                       default: Option<(PatchTemplate, HoleSpace)>,
                       providedTemplate: Option<PatchTemplate>, providedHoleSpace: Option<HoleSpace>)
    : Result<TemplateSource, PyError>
  {
    var hit :- if entries.None? then Ok(None)
               else (var s :- sig; Ok(FirstMatch(entries.value, s)));
    if hit.Some? then Ok(TemplateSource(hit.value.template, hit.value.holeSpace, Some(hit.value.learnedConstraints), true, 0))
    else if proposer.Some? && proposer.value(artifact, violations).Ok? then
      var proposed := proposer.value(artifact, violations).value;
      Ok(TemplateSource(proposed.0, proposed.1, None, false, 1))
    else if default.Some? then Ok(TemplateSource(default.value.0, default.value.1, None, false, 0))
    else if providedTemplate.Some? && providedHoleSpace.Some? then
      Ok(TemplateSource(providedTemplate.value, providedHoleSpace.value, None, false, 0))
    else Err(ValueError(NoTemplateMessage))
  }

  /** `_determine_template_source`: the priority cascade, reassigning its variables as it goes. */
  method DetermineTemplateSource<A>(artifact: A, violations: seq<Violation>, context: map<string, Json>,
                                    fixbank: FixBank?, proposer: Option<Proposer<A>>,
                                    default: Option<(PatchTemplate, HoleSpace)>,
                                    providedTemplate: Option<PatchTemplate>, providedHoleSpace: Option<HoleSpace>)
    returns (r: Result<TemplateSource, PyError>)
    ensures r == SourceOf(artifact, violations, BuildSignature(violations, context),
                          if fixbank == null then None else Some(fixbank.entries),
                          proposer, default, providedTemplate, providedHoleSpace)
  {
    var fixbankHit := false;
    var llmCalls: nat := 0;
    var initial: Option<seq<Constraint>> := None;
    var template: Option<PatchTemplate> := None;
    var holeSpace: Option<HoleSpace> := None;

    if fixbank != null {
      var sig := BuildSignature(violations, context);
      if sig.Err? {
        return Err(sig.error);
      }
      var entry := fixbank.Lookup(sig.value);
      if entry.Some? {
        template := Some(entry.value.template);
        holeSpace := Some(entry.value.holeSpace);
        initial := Some(entry.value.learnedConstraints);
        fixbankHit := true;
      }
    }

    if !fixbankHit && (template.None? || holeSpace.None?) {
      if proposer.Some? {
        var proposed := proposer.value(artifact, violations);
        if proposed.Ok? {
          template := Some(proposed.value.0);
          holeSpace := Some(proposed.value.1);
          llmCalls := 1;
        } else {
          template := None;
          holeSpace := None;
        }
      }
    }

    if template.None? || holeSpace.None? {
      if default.Some? {
        template := Some(default.value.0);
        holeSpace := Some(default.value.1);
      } else if providedTemplate.Some? && providedHoleSpace.Some? {
        template := providedTemplate;
        holeSpace := providedHoleSpace;
      } else {
        return Err(ValueError(NoTemplateMessage));
      }
    }
    r := Ok(TemplateSource(template.value, holeSpace.value, initial, fixbankHit, llmCalls));
  }

  // ----- Properties of the template source -----

  /** A Fix Bank hit supplies template, hole space and constraints, and the proposer is not called. */
  lemma HitWins<A>(artifact: A, violations: seq<Violation>, sig: Result<map<string, Json>, PyError>, entries: seq<FixEntry>,
                   proposer: Option<Proposer<A>>, default: Option<(PatchTemplate, HoleSpace)>,
                   pt: Option<PatchTemplate>, ph: Option<HoleSpace>, e: FixEntry)
    requires sig.Ok?
    requires FirstMatch(entries, sig.value) == Some(e)
    ensures SourceOf(artifact, violations, sig, Some(entries), proposer, default, pt, ph) ==
      Ok(TemplateSource(e.template, e.holeSpace, Some(e.learnedConstraints), true, 0))
  {
  }

  /** Without a hit, a proposer that answers is used once; one that raises counts no call. */
  lemma ProposerOnMiss<A>(artifact: A, violations: seq<Violation>, sig: Result<map<string, Json>, PyError>,
                          entries: Option<seq<FixEntry>>, p: Proposer<A>,
                          default: Option<(PatchTemplate, HoleSpace)>, pt: Option<PatchTemplate>, ph: Option<HoleSpace>)
    requires entries.Some? ==> sig.Ok? && FirstMatch(entries.value, sig.value).None?
    ensures var r := SourceOf(artifact, violations, sig, entries, Some(p), default, pt, ph);
      (p(artifact, violations).Ok? ==>
        r == Ok(TemplateSource(p(artifact, violations).value.0, p(artifact, violations).value.1, None, false, 1))) &&
      (p(artifact, violations).Err? ==>
        r == SourceOf(artifact, violations, sig, entries, None, default, pt, ph))
  {
  }

  /**
   * Without a hit or a proposal, the default template wins over the caller's; with neither,
   * the cascade raises `ValueError`.
   */
  lemma FallbackOrder<A>(artifact: A, violations: seq<Violation>, sig: Result<map<string, Json>, PyError>,
                         default: Option<(PatchTemplate, HoleSpace)>, pt: Option<PatchTemplate>, ph: Option<HoleSpace>)
    ensures var r := SourceOf(artifact, violations, sig, None, None, default, pt, ph);
      (default.Some? ==> r == Ok(TemplateSource(default.value.0, default.value.1, None, false, 0))) &&
      (default.None? && pt.Some? && ph.Some? ==> r == Ok(TemplateSource(pt.value, ph.value, None, false, 0))) &&
      (default.None? && !(pt.Some? && ph.Some?) ==> r == Err(ValueError(NoTemplateMessage)))
  {
  }

  /** At most one proposer call is ever counted, and never on a hit. */
  lemma LlmCallsBounded<A>(artifact: A, violations: seq<Violation>, sig: Result<map<string, Json>, PyError>,
                           entries: Option<seq<FixEntry>>, proposer: Option<Proposer<A>>,
                           default: Option<(PatchTemplate, HoleSpace)>, pt: Option<PatchTemplate>, ph: Option<HoleSpace>)
    requires SourceOf(artifact, violations, sig, entries, proposer, default, pt, ph).Ok?
    ensures var s := SourceOf(artifact, violations, sig, entries, proposer, default, pt, ph).value;
      s.llmCalls <= 1 && (s.fixbankHit ==> s.llmCalls == 0 && s.initial.Some?) &&
      (!s.fixbankHit ==> s.initial.None?) &&
      (s.llmCalls == 1 ==> proposer.Some?) && (s.fixbankHit ==> entries.Some?)
  {
  }

  /** With a Fix Bank, the source is a hit exactly when some stored signature matches. */
  lemma HitIffMatch<A>(artifact: A, violations: seq<Violation>, sig: Result<map<string, Json>, PyError>, entries: seq<FixEntry>,
                       proposer: Option<Proposer<A>>, default: Option<(PatchTemplate, HoleSpace)>,
                       pt: Option<PatchTemplate>, ph: Option<HoleSpace>)
    requires SourceOf(artifact, violations, sig, Some(entries), proposer, default, pt, ph).Ok?
    ensures sig.Ok?
    ensures SourceOf(artifact, violations, sig, Some(entries), proposer, default, pt, ph).value.fixbankHit <==>
      FindIndex(entries, sig.value).Some?
  {
  }

  // ----- repair_artifact -----

  /** `repair_artifact`'s keyword arguments. `now` is the time `datetime.now()` stamps into the Fix Bank. */
  datatype Request<!A> = Request(
    artifact: A, template: Option<PatchTemplate>, holeSpace: Option<HoleSpace>,
    oracles: seq<Oracle<A>>, maxIters: int, initial: Option<seq<Constraint>>, config: Option<SynthConfig>,
    proposer: Option<Proposer<A>>, default: Option<(PatchTemplate, HoleSpace)>,
    contextOf: A -> map<string, Json>, clock: nat -> bool, apply: (A, Patch) -> Option<A>, now: string)

  /** The repaired artifact and metadata: the loop's result plus `fixbank_hit` and `llm_calls`. */
  datatype Outcome<A> = Outcome(repair: RepairResult<A>, fixbankHit: bool, llmCalls: nat)

  /** What `repair_artifact` raises: an oracle's exception, a Python exception, or one of `repair`'s. */
  datatype ControllerError = OracleRaised(error: OracleError) | Raised(exc: PyError) | RepairRaised(cause: RepairError)

  /** The run's result and the Fix Bank's entries afterwards; `added` says whether `add` ran. */
  datatype Run<A> = Run(outcome: Outcome<A>, entries: Option<seq<FixEntry>>, added: bool)

  /** The `repair_metadata.get("last_assignment")` value stored with a new entry. */
  function AssignmentJson(a: Option<Assignment>): Json
  {
    match a
    case None => JNull
    case Some(m) => JObj(map k | k in m :: ToJson(m[k]))
  }

  /**
   * The entry handed to `add` after a success: a new signature records the winning assignment
   * and the candidate count, a known one only its constraints.
   */
  function EntryFor<A>(sig: map<string, Json>, src: TemplateSource, rr: RepairResult<A>): FixEntry
  {
    if !src.fixbankHit then
      FixEntry(sig, src.template, src.holeSpace, rr.constraints, AssignmentJson(rr.lastAssignment),
               map["candidates_tried" := JInt(rr.triedCandidates)])
    else FixEntry(sig, src.template, src.holeSpace, rr.constraints, JNull, map[])
  }

  /** The loop's problem for the chosen template. */
  function ProblemFor<A>(req: Request<A>, src: TemplateSource): RepairProblem<A>
  {
    var cfg := req.config.GetOr(DefaultConfig(req.clock));
    RepairProblem(src.template, src.holeSpace, req.oracles, req.apply, req.maxIters, cfg,
                  SynthesisOn(src.template, src.holeSpace, req.oracles, req.apply, cfg))
  }

  /** The caller's constraints, when given, override the Fix Bank's. */
  function InitialFor<A>(req: Request<A>, src: TemplateSource): seq<Constraint>
  {
    if req.initial.Some? then req.initial.value else src.initial.GetOr([])
  }

  /** The clean artifact's result: no iterations and no Fix Bank involvement. */
  function Clean<A>(artifact: A): Outcome<A>
  {
    Outcome(RepairResult(artifact, RepairSuccess, 0, 0, [], None, None), false, 0)
  }

  /** What `repair_artifact` does, on a Fix Bank holding `entries` (or none). */
  function RepairRun<A>(req: Request<A>, entries: Option<seq<FixEntry>>): Result<Run<A>, ControllerError>
  {
    match CheckAll(req.oracles, req.artifact)
    case Err(e) => Err(OracleRaised(e))
    case Ok(vs) => if vs == [] then Ok(Run(Clean(req.artifact), entries, false)) else RunOn(req, vs, entries)
  }

  /** The run once the oracles have reported `vs`: the signature, then the template source. */
  function RunOn<A>(req: Request<A>, vs: seq<Violation>, entries: Option<seq<FixEntry>>): Result<Run<A>, ControllerError>
  {
    var context := req.contextOf(req.artifact);
    match BuildSignature(vs, context)
    case Err(e) => Err(Raised(e))
    case Ok(sig) =>
      match SourceOf(req.artifact, vs, Ok(sig), entries, req.proposer, req.default, req.template, req.holeSpace)
      case Err(e) => Err(Raised(e))
      case Ok(src) => RunFrom(req, sig, src, entries)
  }

  /** The run once the template is chosen: the loop, then the Fix Bank. */
  function RunFrom<A>(req: Request<A>, sig: map<string, Json>, src: TemplateSource, entries: Option<seq<FixEntry>>)
    : Result<Run<A>, ControllerError>
  {
    match Repairing(ProblemFor(req, src), req.artifact, InitialFor(req, src))
    case Err(e) => Err(RepairRaised(e))
    case Ok(rr) => Recorded(req.now, sig, src, rr, entries)
  }

  /** The loop's result, stored in the Fix Bank when there is one and the repair succeeded. */
  function Recorded<A>(now: string, sig: map<string, Json>, src: TemplateSource, rr: RepairResult<A>,
                       entries: Option<seq<FixEntry>>): Result<Run<A>, ControllerError>
  {
    var outcome := Outcome(rr, src.fixbankHit, src.llmCalls);
    if entries.Some? && rr.status == RepairSuccess then
      match AddTo(entries.value, EntryFor(sig, src, rr), now)
      case Err(e) => Err(Raised(e))
      case Ok(es) => Ok(Run(outcome, Some(es), true))
    else Ok(Run(outcome, entries, false))
  }

  /** The caller's view of a run: its result, without the Fix Bank's new entries. */
  function OutcomeOf<A>(run: Result<Run<A>, ControllerError>): Result<Outcome<A>, ControllerError>
  {
    match run
    case Ok(x) => Ok(x.outcome)
    case Err(e) => Err(e)
  }

  /** `repair_artifact`. */
  method RepairArtifact<A>(req: Request<A>, fixbank: FixBank?) returns (r: Result<Outcome<A>, ControllerError>)
    modifies fixbank
    ensures r == OutcomeOf(RepairRun(req, if fixbank == null then None else Some(old(fixbank.entries))))
    ensures fixbank != null ==>
      var spec := RepairRun(req, Some(old(fixbank.entries)));
      (if spec.Ok? && spec.value.added
       then spec.value.entries == Some(fixbank.entries) &&
            fixbank.saved == (if fixbank.persistent then Some(SaveData(fixbank.entries)) else old(fixbank.saved))
       else fixbank.entries == old(fixbank.entries) && fixbank.saved == old(fixbank.saved))
  {
    ghost var entries := if fixbank == null then None else Some(fixbank.entries);
    var vs := CheckArtifact(req.oracles, req.artifact);
    if vs.Err? {
      return Err(OracleRaised(vs.error));
    }
    if vs.value == [] {
      return Ok(Clean(req.artifact));
    }
    assert RepairRun(req, entries) == RunOn(req, vs.value, entries);
    var context := req.contextOf(req.artifact);
    var sig := BuildSignature(vs.value, context);
    if sig.Err? {
      return Err(Raised(sig.error));
    }
    var src := DetermineTemplateSource(req.artifact, vs.value, context, fixbank, req.proposer, req.default,
                                       req.template, req.holeSpace);
    if src.Err? {
      return Err(Raised(src.error));
    }
    assert RunOn(req, vs.value, entries) == RunFrom(req, sig.value, src.value, entries);
    var initial := if req.initial.Some? then req.initial.value else src.value.initial.GetOr([]);
    assert initial == InitialFor(req, src.value);
    var rr := Repair(req.artifact, src.value.template, src.value.holeSpace, req.oracles, req.maxIters, initial,
                     req.config, req.clock, req.apply);
    assert rr == Repairing(ProblemFor(req, src.value), req.artifact, InitialFor(req, src.value));
    if rr.Err? {
      return Err(RepairRaised(rr.error));
    }
    assert RunFrom(req, sig.value, src.value, entries) == Recorded(req.now, sig.value, src.value, rr.value, entries);
    if fixbank != null && rr.value.status == RepairSuccess {
      var added := fixbank.Add(EntryFor(sig.value, src.value, rr.value), req.now);
      if added.Err? {
        return Err(Raised(added.error));
      }
    }
    r := Ok(Outcome(rr.value, src.value.fixbankHit, src.value.llmCalls));
  }

  // ----- Properties of a run -----

  /** An artifact that already passes comes back as it is, with no turns, no calls and no Fix Bank write. */
  lemma CleanArtifactUntouched<A>(req: Request<A>, entries: Option<seq<FixEntry>>)
    requires CheckAll(req.oracles, req.artifact) == Ok([])
    ensures RepairRun(req, entries) ==
      Ok(Run(Outcome(RepairResult(req.artifact, RepairSuccess, 0, 0, [], None, None), false, 0), entries, false))
  {
  }

  /** The Fix Bank is written only after a successful repair, and only when there is one. */
  lemma WrittenOnlyOnSuccess<A>(req: Request<A>, entries: Option<seq<FixEntry>>)
    requires RepairRun(req, entries).Ok?
    ensures var run := RepairRun(req, entries).value;
      (run.added <==> entries.Some? && run.outcome.repair.status == RepairSuccess &&
                      CheckAll(req.oracles, req.artifact) != Ok([])) &&
      (!run.added ==> run.entries == entries)
  {
    var vs := CheckAll(req.oracles, req.artifact).value;
    if vs != [] {
      var context := req.contextOf(req.artifact);
      var sig := BuildSignature(vs, context).value;
      var src := SourceOf(req.artifact, vs, Ok(sig), entries, req.proposer, req.default, req.template, req.holeSpace).value;
      assert RepairRun(req, entries) == RunFrom(req, sig, src, entries);
      var rr := Repairing(ProblemFor(req, src), req.artifact, InitialFor(req, src)).value;
      assert RunFrom(req, sig, src, entries) == Recorded(req.now, sig, src, rr, entries);
      RecordedWhen(req.now, sig, src, rr, entries);
    }
  }

  lemma RecordedWhen<A>(now: string, sig: map<string, Json>, src: TemplateSource, rr: RepairResult<A>,
                        entries: Option<seq<FixEntry>>)
    requires Recorded(now, sig, src, rr, entries).Ok?
    ensures var run := Recorded(now, sig, src, rr, entries).value;
      run.outcome.repair == rr &&
      (run.added <==> entries.Some? && rr.status == RepairSuccess) && (!run.added ==> run.entries == entries)
  {
  }

  /** A given list of constraints is what the loop starts from, whatever the Fix Bank holds. */
  lemma CallerConstraintsOverride<A>(req: Request<A>, src: TemplateSource)
    requires req.initial.Some?
    ensures InitialFor(req, src) == req.initial.value
  {
  }

  /**
   * What a success stores: one new entry for a new signature, whose recorded assignment is
   * always `None` because the loop reports none on success, or the same number of entries on a hit.
   */
  lemma RecordedSuccess<A>(now: string, sig: map<string, Json>, src: TemplateSource, rr: RepairResult<A>,
                           entries: seq<FixEntry>)
    requires rr.status == RepairSuccess && rr.lastAssignment.None?
    requires src.fixbankHit <==> FindIndex(entries, sig).Some?
    requires Recorded(now, sig, src, rr, Some(entries)).Ok?
    ensures var run := Recorded(now, sig, src, rr, Some(entries)).value;
      run.added && run.entries.Some? &&
      (!src.fixbankHit ==>
        |run.entries.value| == |entries| + 1 && run.entries.value[..|entries|] == entries &&
        run.entries.value[|entries|].successfulAssignment == JNull &&
        run.entries.value[|entries|].metadata["success_count"] == JInt(1)) &&
      (src.fixbankHit ==> |run.entries.value| == |entries|)
  {
    var entry := EntryFor(sig, src, rr);
    if !src.fixbankHit {
      AddMiss(entries, entry, now);
    } else {
      AddHit(entries, entry, now, FindIndex(entries, sig).value);
    }
  }

  /**
   * On a run that stores its success: the repaired artifact passes every oracle, and the Fix
   * Bank changes as `RecordedSuccess` says.
   */
  lemma SuccessRecorded<A(!new)>(req: Request<A>, entries: seq<FixEntry>)
    requires RepairRun(req, Some(entries)).Ok?
    requires RepairRun(req, Some(entries)).value.added
    ensures var run := RepairRun(req, Some(entries)).value;
      CheckAll(req.oracles, run.outcome.repair.artifact) == Ok([]) &&
      run.entries.Some? &&
      (!run.outcome.fixbankHit ==>
        |run.entries.value| == |entries| + 1 && run.entries.value[..|entries|] == entries &&
        run.entries.value[|entries|].successfulAssignment == JNull) &&
      (run.outcome.fixbankHit ==> |run.entries.value| == |entries|)
  {
    var vs := CheckAll(req.oracles, req.artifact).value;
    var context := req.contextOf(req.artifact);
    var sig := BuildSignature(vs, context).value;
    var src := SourceOf(req.artifact, vs, Ok(sig), Some(entries), req.proposer, req.default, req.template, req.holeSpace).value;
    var p := ProblemFor(req, src);
    RepairSpec(p, req.artifact, InitialFor(req, src));
    assert RepairRun(req, Some(entries)) == RunFrom(req, sig, src, Some(entries));
    var rr := Repairing(p, req.artifact, InitialFor(req, src)).value;
    assert RunFrom(req, sig, src, Some(entries)) == Recorded(req.now, sig, src, rr, Some(entries));
    HitIffMatch(req.artifact, vs, Ok(sig), entries, req.proposer, req.default, req.template, req.holeSpace);
    RecordedSuccess(req.now, sig, src, rr, entries);
  }
}

// One synthesis run: walk the candidate generator under a budget, try each candidate against
// the oracles, learn constraints from the hints in failing evidence and restart the generator.
module Synthesizer {
  import opened Wrappers
  import opened Values
  import opened Schema
  import opened Template
  import opened Synth

  /**
   * The run's limits. `expired(n)` says whether the time limit has passed when the n-th
   * candidate is looked at; it stands for the wall clock.
   */
  datatype SynthConfig = SynthConfig(maxCandidates: int, expired: nat -> bool)

  datatype SynthStatus = Success | Unsat | Timeout

  datatype SynthResult = SynthResult(
    status: SynthStatus, patch: Option<Patch>, triedCandidates: nat,
    constraints: seq<Constraint>, lastAssignment: Option<Assignment>)

  // ----- Learning constraints from evidence -----

  /** A `forbid_value` hint: a dictionary with keys `hole` and `value`. */
  predicate ValueHint(h: Json)
  {
    h.JObj? && "hole" in h.fields && "value" in h.fields
  }

  /** A `forbid_tuple` hint: a dictionary with keys `holes` and `values`. */
  predicate TupleHint(h: Json)
  {
    h.JObj? && "holes" in h.fields && "values" in h.fields
  }

  /**
   * The constraints one violation's evidence asks for: only a non-empty raw dictionary is
   * read, its `forbid_value` hint first, then its `forbid_tuple` hint.
   */
  function HintConstraints(v: Violation): seq<Constraint>
  {
    match v.evidence
    case Raw(JObj(m)) =>
      (if "forbid_value" in m && ValueHint(m["forbid_value"])
       then [ForbidValue(m["forbid_value"].fields["hole"], m["forbid_value"].fields["value"])] else []) +
      (if "forbid_tuple" in m && TupleHint(m["forbid_tuple"])
       then [ForbidTuple(m["forbid_tuple"].fields["holes"], m["forbid_tuple"].fields["values"])] else [])
    case _ => []
  }

  /** The constraints learned from a list of violations, in violation order. */
  function LearnedFrom(vs: seq<Violation>): seq<Constraint>
  {
    if vs == [] then [] else HintConstraints(vs[0]) + LearnedFrom(vs[1..])
  }

  /** `extract_constraints_from_violations`; the candidate is not consulted. */
  method ExtractConstraints(candidate: Assignment, violations: seq<Violation>) returns (cs: seq<Constraint>)
    ensures cs == LearnedFrom(violations)
  {
    cs := [];
    for i := 0 to |violations|
      invariant cs == LearnedFrom(violations[..i])
    {
      LearnedFromAppend(violations[..i], [violations[i]]);
      assert violations[..i + 1] == violations[..i] + [violations[i]];
      assert LearnedFrom([violations[i]]) == HintConstraints(violations[i]) + LearnedFrom([]);
      var hints := ViolationHints(violations[i]);
      cs := cs + hints;
    }
    assert violations[..|violations|] == violations;
  }

  /** The hints of one violation, `forbid_value` first. */
  method ViolationHints(v: Violation) returns (cs: seq<Constraint>)
    ensures cs == HintConstraints(v)
  {
    cs := [];
    if !v.evidence.Raw? || !v.evidence.j.JObj? || v.evidence.j.fields == map[] {
      return;
    }
    var evidence := v.evidence.j.fields;
    if "forbid_value" in evidence {
      var hint := evidence["forbid_value"];
      if hint.JObj? && "hole" in hint.fields && "value" in hint.fields {
        cs := cs + [ForbidValue(hint.fields["hole"], hint.fields["value"])];
      }
    }
    if "forbid_tuple" in evidence {
      var hint := evidence["forbid_tuple"];
      if hint.JObj? && "holes" in hint.fields && "values" in hint.fields {
        cs := cs + [ForbidTuple(hint.fields["holes"], hint.fields["values"])];
      }
    }
  }

  lemma {:induction false} LearnedFromAppend(p: seq<Violation>, q: seq<Violation>)
    ensures LearnedFrom(p + q) == LearnedFrom(p) + LearnedFrom(q)
    decreases |p|
  {
    if p == [] {
      assert p + q == q;
    } else {
      assert (p + q)[1..] == p[1..] + q;
      LearnedFromAppend(p[1..], q);
    }
  }

  /** Learned constraints are only ever of the two forbidding kinds, with the hint's two fields as data. */
  lemma {:induction false} LearnedShape(vs: seq<Violation>)
    ensures forall c | c in LearnedFrom(vs) ::
      (c.kind == "forbidden_value" && c.data.Keys == {"hole", "value"}) ||
      (c.kind == "forbidden_tuple" && c.data.Keys == {"holes", "values"})
    decreases |vs|
  {
    if vs != [] {
      LearnedShape(vs[1..]);
    }
  }

  /** Each violation teaches at most two constraints; one without dictionary evidence teaches none. */
  lemma {:induction false} LearnedCount(vs: seq<Violation>)
    ensures |LearnedFrom(vs)| <= 2 * |vs|
    ensures (forall i | 0 <= i < |vs| :: !(vs[i].evidence.Raw? && vs[i].evidence.j.JObj?)) ==> LearnedFrom(vs) == []
    decreases |vs|
  {
    if vs != [] {
      LearnedCount(vs[1..]);
      assert forall i | 0 <= i < |vs| - 1 :: vs[1..][i] == vs[i + 1];
    }
  }

  // ----- Trying one candidate -----

  /** The violations the synthesizer collects: an oracle that raises is skipped. */
  function Gathered<A>(oracles: seq<Oracle<A>>, a: A): seq<Violation>
  {
    if oracles == [] then []
    else (if oracles[0].check(a).Ok? then oracles[0].check(a).value else []) + Gathered(oracles[1..], a)
  }

  /** A candidate passes when no oracle that runs to completion reports a violation. */
  lemma {:induction false} GatheredEmpty<A>(oracles: seq<Oracle<A>>, a: A)
    ensures Gathered(oracles, a) == [] <==>
      forall i | 0 <= i < |oracles| :: oracles[i].check(a).Err? || oracles[i].check(a) == Ok([])
    decreases |oracles|
  {
    if oracles != [] {
      GatheredEmpty(oracles[1..], a);
      assert forall i | 0 <= i < |oracles| - 1 :: oracles[1..][i] == oracles[i + 1];
    }
  }

  method GatherViolations<A>(oracles: seq<Oracle<A>>, a: A) returns (vs: seq<Violation>)
    ensures vs == Gathered(oracles, a)
  {
    vs := [];
    var i := |oracles|;
    while i > 0
      invariant 0 <= i <= |oracles|
      invariant vs == Gathered(oracles[i..], a)
    {
      i := i - 1;
      assert oracles[i..][1..] == oracles[i + 1..];
      match oracles[i].check(a)
      case Ok(found) => {
        vs := found + vs;
      }
      case Err(_) => {
      }
    }
    assert oracles[0..] == oracles;
  }

  /** What happens to one candidate. */
  datatype Trial = Skipped | Passed(patch: Patch) | Failed(violations: seq<Violation>)

  /**
   * A candidate is skipped when the template does not instantiate or the patch does not
   * apply; otherwise it passes or fails on the collected violations.
   */
  function Try<A>(artifact: A, template: PatchTemplate, oracles: seq<Oracle<A>>,
                  apply: (A, Patch) -> Option<A>, c: Assignment): Trial
  {
    if !AllHolesAssigned(template, c) then Skipped
    else
      var patch := Patch(FillOps(template.ops, c));
      match apply(artifact, patch)
      case None => Skipped
      case Some(patched) =>
        var vs := Gathered(oracles, patched);
        if vs == [] then Passed(patch) else Failed(vs)
  }

  // ----- The run -----

  /** One more than the number of candidates the budget lets through. */
  function Budget(maxCandidates: int): nat
  {
    if maxCandidates < 0 then 1 else maxCandidates + 1
  }

  /** Everything a run is about. */
  datatype Problem<!A> = Problem(
    artifact: A, template: PatchTemplate, holeSpace: HoleSpace, oracles: seq<Oracle<A>>,
    apply: (A, Patch) -> Option<A>, config: SynthConfig)

  /**
   * Where the search stands after a candidate that did not pass: the constraints grow by what
   * the failure teaches and the generator restarts under them, or, when nothing was learned,
   * the generator simply moves past the candidate.
   */
  function AfterTrial(hs: HoleSpace, all: seq<Constraint>, rest: seq<Assignment>, trial: Trial)
    : (seq<Constraint>, seq<Assignment>)
  {
    if trial.Failed? && LearnedFrom(trial.violations) != [] then
      (all + LearnedFrom(trial.violations), Filter(all + LearnedFrom(trial.violations), AllCandidates(hs)))
    else (all, rest)
  }

  /**
   * The run from a state where `all` are the constraints so far, `pending` are the candidates
   * the generator will still yield, and `tried` candidates have been drawn.
   */
  function Run<A>(p: Problem<A>, all: seq<Constraint>, pending: seq<Assignment>, tried: nat,
                  last: Option<Assignment>): SynthResult
    requires tried < Budget(p.config.maxCandidates)
    decreases Budget(p.config.maxCandidates) - tried
  {
    if pending == [] then SynthResult(Unsat, None, tried, all, last)
    else
      var c := pending[0];
      var t := tried + 1;
      if t > p.config.maxCandidates then SynthResult(Unsat, None, t, all, Some(c))
      else if p.config.expired(t) then SynthResult(Timeout, None, t, all, Some(c))
      else
        var trial := Try(p.artifact, p.template, p.oracles, p.apply, c);
        if trial.Passed? then SynthResult(Success, Some(trial.patch), t, all, Some(c))
        else
          var (all', pending') := AfterTrial(p.holeSpace, all, pending[1..], trial);
          Run(p, all', pending', t, Some(c))
  }

  /** The run `synthesize` performs from its initial constraints. */
  function Synthesis<A>(p: Problem<A>, initial: seq<Constraint>): SynthResult
  {
    Run(p, initial, Filter(initial, AllCandidates(p.holeSpace)), 0, None)
  }

  /** `synthesize`. */
  method Synthesize<A>(artifact: A, template: PatchTemplate, holeSpace: HoleSpace,
                       oracles: seq<Oracle<A>>, config: SynthConfig, initial: seq<Constraint>,
                       apply: (A, Patch) -> Option<A>)
    returns (r: SynthResult)
    ensures r == Synthesis(Problem(artifact, template, holeSpace, oracles, apply, config), initial)
  {
    ghost var p := Problem(artifact, template, holeSpace, oracles, apply, config);
    var all := initial;
    var generator := new CandidateGenerator(holeSpace, all);
    var tried: nat := 0;
    var last: Option<Assignment> := None;
    while true
      invariant fresh(generator) && fresh(generator.indices)
      invariant generator.Valid() && generator.holeSpace == holeSpace && generator.constraints == all
      invariant tried < Budget(config.maxCandidates)
      invariant Run(p, all, generator.Remaining(), tried, last) == Synthesis(p, initial)
      decreases Budget(config.maxCandidates) - tried
    {
      var next := generator.Next();
      if next.None? {
        return SynthResult(Unsat, None, tried, all, last);
      }
      var candidate := next.value;
      last := next;
      tried := tried + 1;
      if tried > config.maxCandidates {
        return SynthResult(Unsat, None, tried, all, last);
      }
      if config.expired(tried) {
        return SynthResult(Timeout, None, tried, all, last);
      }
      var trial := TryCandidate(artifact, template, oracles, apply, candidate);
      if trial.Passed? {
        return SynthResult(Success, Some(trial.patch), tried, all, Some(candidate));
      }
      if trial.Failed? {
        var learned := ExtractConstraints(candidate, trial.violations);
        if learned != [] {
          all := all + learned;
          generator.UpdateConstraints(all);
        }
      }
    }
  }

  /** The body of the candidate loop: instantiate, apply, run the oracles. */
  method TryCandidate<A>(artifact: A, template: PatchTemplate, oracles: seq<Oracle<A>>,
                         apply: (A, Patch) -> Option<A>, candidate: Assignment)
    returns (trial: Trial)
    ensures trial == Try(artifact, template, oracles, apply, candidate)
  {
    var instantiated := Instantiate(template, candidate);
    if instantiated.Err? {
      return Skipped;
    }
    var patch := instantiated.value;
    var patched := apply(artifact, patch);
    if patched.None? {
      return Skipped;
    }
    var violations := GatherViolations(oracles, patched.value);
    if violations == [] {
      return Passed(patch);
    }
    return Failed(violations);
  }

  // ----- What a run promises -----

  /** A trial that did not pass only adds constraints, and keeps the pending ones allowed. */
  lemma AfterTrialSpec(hs: HoleSpace, all: seq<Constraint>, rest: seq<Assignment>, trial: Trial)
    ensures all <= AfterTrial(hs, all, rest, trial).0
    ensures PendingAllowed(hs, all, rest) ==>
      PendingAllowed(hs, AfterTrial(hs, all, rest, trial).0, AfterTrial(hs, all, rest, trial).1)
  {
    if trial.Failed? && LearnedFrom(trial.violations) != [] {
      var cs := all + LearnedFrom(trial.violations);
      var restarted := Filter(cs, AllCandidates(hs));
      PrunedSpec(cs, hs);
      assert forall i | 0 <= i < |restarted| :: restarted[i] in restarted;
    }
  }

  /** The constraints a run returns start with the ones it was given, in order. */
  lemma {:induction false} RunKeepsConstraints<A>(p: Problem<A>, all: seq<Constraint>, pending: seq<Assignment>,
                                                  tried: nat, last: Option<Assignment>)
    requires tried < Budget(p.config.maxCandidates)
    ensures all <= Run(p, all, pending, tried, last).constraints
    decreases Budget(p.config.maxCandidates) - tried
  {
    if Continues(p, pending, tried) {
      RunStep(p, all, pending, tried, last);
      var next := AfterTrial(p.holeSpace, all, pending[1..], Try(p.artifact, p.template, p.oracles, p.apply, pending[0]));
      RunKeepsConstraints(p, next.0, next.1, tried + 1, Some(pending[0]));
    } else {
      RunStops(p, all, pending, tried, last);
    }
  }

  /** The run goes on past the next candidate: there is one, the budget and the clock allow it, and it fails. */
  predicate Continues<A>(p: Problem<A>, pending: seq<Assignment>, tried: nat)
  {
    pending != [] && tried + 1 <= p.config.maxCandidates && !p.config.expired(tried + 1) &&
    !Try(p.artifact, p.template, p.oracles, p.apply, pending[0]).Passed?
  }

  lemma RunStep<A>(p: Problem<A>, all: seq<Constraint>, pending: seq<Assignment>, tried: nat, last: Option<Assignment>)
    requires tried < Budget(p.config.maxCandidates) && Continues(p, pending, tried)
    ensures var next := AfterTrial(p.holeSpace, all, pending[1..], Try(p.artifact, p.template, p.oracles, p.apply, pending[0]));
      tried + 1 < Budget(p.config.maxCandidates) && all <= next.0 &&
      Run(p, all, pending, tried, last) == Run(p, next.0, next.1, tried + 1, Some(pending[0]))
  {
  }

  lemma RunStops<A>(p: Problem<A>, all: seq<Constraint>, pending: seq<Assignment>, tried: nat, last: Option<Assignment>)
    requires tried < Budget(p.config.maxCandidates) && !Continues(p, pending, tried)
    ensures var r := Run(p, all, pending, tried, last);
      r.constraints == all && tried <= r.triedCandidates <= Budget(p.config.maxCandidates) &&
      (pending != [] ==> r.triedCandidates == tried + 1) &&
      (r.triedCandidates > p.config.maxCandidates && r.triedCandidates > 0 ==>
         r.status == Unsat && r.patch == None && r.triedCandidates == Budget(p.config.maxCandidates))
  {
  }

  /**
   * The counters of a run: it draws at least one more candidate than it started with
   * unless the generator is empty, never more than the budget plus one, and once it has drawn
   * more than the budget it stops with status `unsat`, no patch, and exactly one candidate
   * too many.
   */
  lemma {:induction false} RunBudget<A>(p: Problem<A>, all: seq<Constraint>, pending: seq<Assignment>,
                                        tried: nat, last: Option<Assignment>)
    requires tried < Budget(p.config.maxCandidates)
    ensures var r := Run(p, all, pending, tried, last);
      tried <= r.triedCandidates <= Budget(p.config.maxCandidates) &&
      (pending != [] ==> tried < r.triedCandidates) &&
      (r.triedCandidates > p.config.maxCandidates && r.triedCandidates > 0 ==>
         r.status == Unsat && r.patch == None && r.triedCandidates == Budget(p.config.maxCandidates))
    decreases Budget(p.config.maxCandidates) - tried
  {
    if Continues(p, pending, tried) {
      RunStep(p, all, pending, tried, last);
      var next := AfterTrial(p.holeSpace, all, pending[1..], Try(p.artifact, p.template, p.oracles, p.apply, pending[0]));
      RunBudget(p, next.0, next.1, tried + 1, Some(pending[0]));
    } else {
      RunStops(p, all, pending, tried, last);
    }
  }

  /** Every pending candidate lies in the space and is allowed by the constraints so far. */
  ghost predicate PendingAllowed(hs: HoleSpace, all: seq<Constraint>, pending: seq<Assignment>)
  {
    forall i | 0 <= i < |pending| :: InSpace(hs, pending[i]) && !Violates(all, pending[i])
  }

  /** What a successful run stopped on: a candidate of the space under which everything passes. */
  ghost predicate SoundSuccess<A>(p: Problem<A>, r: SynthResult)
  {
    r.lastAssignment.Some? &&
    InSpace(p.holeSpace, r.lastAssignment.value) && !Violates(r.constraints, r.lastAssignment.value) &&
    AllHolesAssigned(p.template, r.lastAssignment.value) &&
    r.patch == Some(Patch(FillOps(p.template.ops, r.lastAssignment.value))) &&
    p.apply(p.artifact, r.patch.value).Some? &&
    Gathered(p.oracles, p.apply(p.artifact, r.patch.value).value) == []
  }

  /**
   * A patch comes back exactly on success, and a success is sound: its candidate lies in the
   * space, breaks none of the returned constraints, the template instantiates under it to the
   * returned patch, that patch applies, and no oracle that runs to completion reports anything.
   */
  lemma {:induction false} RunSuccess<A>(p: Problem<A>, all: seq<Constraint>, pending: seq<Assignment>,
                                         tried: nat, last: Option<Assignment>)
    requires tried < Budget(p.config.maxCandidates)
    requires PendingAllowed(p.holeSpace, all, pending)
    ensures var r := Run(p, all, pending, tried, last);
      (r.patch.Some? <==> r.status == Success) && (r.status == Success ==> SoundSuccess(p, r))
    decreases Budget(p.config.maxCandidates) - tried
  {
    if pending != [] && tried + 1 <= p.config.maxCandidates && !p.config.expired(tried + 1) {
      var trial := Try(p.artifact, p.template, p.oracles, p.apply, pending[0]);
      if !trial.Passed? {
        assert PendingAllowed(p.holeSpace, all, pending[1..]) by {
          assert forall i | 0 <= i < |pending| - 1 :: pending[1..][i] == pending[i + 1];
        }
        var (all', pending') := AfterTrial(p.holeSpace, all, pending[1..], trial);
        AfterTrialSpec(p.holeSpace, all, pending[1..], trial);
        RunSuccess(p, all', pending', tried + 1, Some(pending[0]));
      }
    }
  }

  /** `synthesize`'s promises, from its initial constraints. */
  lemma SynthesisSpec<A>(p: Problem<A>, initial: seq<Constraint>)
    ensures var r := Synthesis(p, initial);
      initial <= r.constraints &&
      r.triedCandidates <= Budget(p.config.maxCandidates) &&
      (r.triedCandidates > p.config.maxCandidates && r.triedCandidates > 0 ==> r.status == Unsat && r.triedCandidates == Budget(p.config.maxCandidates)) &&
      (r.patch.Some? <==> r.status == Success) && (r.status == Success ==> SoundSuccess(p, r))
  {
    var pending := Filter(initial, AllCandidates(p.holeSpace));
    PrunedSpec(initial, p.holeSpace);
    assert forall i | 0 <= i < |pending| :: pending[i] in pending;
    RunKeepsConstraints(p, initial, pending, 0, None);
    RunBudget(p, initial, pending, 0, None);
    RunSuccess(p, initial, pending, 0, None);
  }

  /**
   * Warm start: candidates the initial constraints forbid are never drawn, so when the first
   * allowed candidate passes, the run succeeds on it after a single try.
   */
  lemma WarmStart<A>(p: Problem<A>, initial: seq<Constraint>)
    requires Filter(initial, AllCandidates(p.holeSpace)) != []
    requires 1 <= p.config.maxCandidates && !p.config.expired(1)
    requires Try(p.artifact, p.template, p.oracles, p.apply, Filter(initial, AllCandidates(p.holeSpace))[0]).Passed?
    ensures var r := Synthesis(p, initial);
      r.status == Success && r.triedCandidates == 1 && r.constraints == initial &&
      r.lastAssignment == Some(Filter(initial, AllCandidates(p.holeSpace))[0]) &&
      !Violates(initial, r.lastAssignment.value)
  {
    var pending := Filter(initial, AllCandidates(p.holeSpace));
    FilterSpec(initial, AllCandidates(p.holeSpace));
    assert pending[0] in pending;
  }

  /**
   * An oracle that raises is skipped, not counted as a failure: when every oracle raises on the
   * patched artifact, the first candidate that the budget and the clock let through and that instantiates and applies
   * is returned as a success.
   */
  lemma ThrowingOraclesAccept<A>(p: Problem<A>, all: seq<Constraint>, pending: seq<Assignment>,
                                 tried: nat, last: Option<Assignment>)
    requires tried < Budget(p.config.maxCandidates)
    requires pending != [] && tried + 1 <= p.config.maxCandidates && !p.config.expired(tried + 1)
    requires AllHolesAssigned(p.template, pending[0])
    requires p.apply(p.artifact, Patch(FillOps(p.template.ops, pending[0]))).Some?
    requires forall i | 0 <= i < |p.oracles| ::
      p.oracles[i].check(p.apply(p.artifact, Patch(FillOps(p.template.ops, pending[0]))).value).Err?
    ensures Run(p, all, pending, tried, last) ==
      SynthResult(Success, Some(Patch(FillOps(p.template.ops, pending[0]))), tried + 1, all, Some(pending[0]))
  {
    var patch := Patch(FillOps(p.template.ops, pending[0]));
    var patched := p.apply(p.artifact, patch).value;
    GatheredEmpty(p.oracles, patched);
    assert Gathered(p.oracles, patched) == [];
    assert Try(p.artifact, p.template, p.oracles, p.apply, pending[0]) == Passed(patch);
  }

  /** No assignment of the space breaks any of the constraints. */
  ghost predicate Inert(hs: HoleSpace, cs: seq<Constraint>)
  {
    forall a | InSpace(hs, a) :: !Violates(cs, a)
  }

  lemma InertAppend(hs: HoleSpace, cs: seq<Constraint>, ds: seq<Constraint>)
    requires Inert(hs, cs) && Inert(hs, ds)
    ensures Inert(hs, cs + ds)
  {
    forall a | InSpace(hs, a) ensures !Violates(cs + ds, a) {
      ViolatesAppend(cs, ds, a);
    }
  }

  /** A candidate breaks two constraint lists in turn exactly when it breaks one of them. */
  lemma ViolatesAppend(cs: seq<Constraint>, ds: seq<Constraint>, a: Assignment)
    ensures Violates(cs + ds, a) <==> Violates(cs, a) || Violates(ds, a)
  {
    assert forall i | 0 <= i < |cs| :: (cs + ds)[i] == cs[i];
    assert forall i | 0 <= i < |ds| :: (cs + ds)[|cs| + i] == ds[i];
  }

  lemma {:induction false} FilterKeepsAll(cs: seq<Constraint>, xs: seq<Assignment>)
    requires forall i | 0 <= i < |xs| :: !Violates(cs, xs[i])
    ensures Filter(cs, xs) == xs
    decreases |xs|
  {
    if xs != [] {
      assert forall i | 0 <= i < |xs| - 1 :: xs[1..][i] == xs[i + 1];
      FilterKeepsAll(cs, xs[1..]);
      assert xs == [xs[0]] + xs[1..];
    }
  }

  /** A `forbid_value` hint on a hole outside the space, for a value other than `None`, prunes nothing. */
  lemma UnknownHoleInert(hs: HoleSpace, hole: string, value: Json)
    requires hole !in hs && value != JNull
    ensures Inert(hs, [ForbidValue(JStr(hole), value)])
  {
    forall a | InSpace(hs, a) ensures !Violates([ForbidValue(JStr(hole), value)], a) {
      assert !Matches(ForbidValue(JStr(hole), value), a);
    }
  }

  /** The candidate fails, and the hints its failure yields prune nothing. */
  ghost predicate FailsInertly<A>(p: Problem<A>, c: Assignment)
  {
    var trial := Try(p.artifact, p.template, p.oracles, p.apply, c);
    trial.Failed? && LearnedFrom(trial.violations) != [] && Inert(p.holeSpace, LearnedFrom(trial.violations))
  }

  /**
   * The setting of a run that cannot make progress: the clock never runs out, `cands` are what
   * the generator yields under any constraints that prune nothing, and its first candidate fails
   * with hints that prune nothing.
   */
  ghost predicate Stuck<A>(p: Problem<A>, cands: seq<Assignment>)
  {
    (forall n :: !p.config.expired(n)) &&
    cands != [] && FailsInertly(p, cands[0]) &&
    forall cs | Inert(p.holeSpace, cs) :: Filter(cs, AllCandidates(p.holeSpace)) == cands
  }

  /**
   * Learned constraints are neither deduplicated nor checked against the hole space, so when the
   * first candidate fails with hints that prune nothing, the generator restarts at that same
   * candidate again and again: however small the space, the run ends only at the budget,
   * `unsat` with one candidate too many.
   */
  lemma {:induction false} RestartsUntilBudget<A>(p: Problem<A>, all: seq<Constraint>, cands: seq<Assignment>,
                                                  tried: nat, last: Option<Assignment>)
    requires tried < Budget(p.config.maxCandidates)
    requires Stuck(p, cands) && Inert(p.holeSpace, all)
    ensures var r := Run(p, all, cands, tried, last);
      r.status == Unsat && r.triedCandidates == Budget(p.config.maxCandidates)
    decreases Budget(p.config.maxCandidates) - tried
  {
    if tried + 1 > p.config.maxCandidates {
      RunOverBudget(p, all, cands, tried, last);
    } else {
      var all' := RestartInPlace(p, all, cands, tried, last);
      RestartsUntilBudget(p, all', cands, tried + 1, Some(cands[0]));
    }
  }

  /** One failed trial with inert hints: the constraints grow, still inert, and the run restarts at `cands`. */
  lemma RestartInPlace<A>(p: Problem<A>, all: seq<Constraint>, cands: seq<Assignment>,
                          tried: nat, last: Option<Assignment>) returns (all': seq<Constraint>)
    requires tried + 1 <= p.config.maxCandidates
    requires Stuck(p, cands) && Inert(p.holeSpace, all)
    ensures Inert(p.holeSpace, all') && all <= all'
    ensures Run(p, all, cands, tried, last) == Run(p, all', cands, tried + 1, Some(cands[0]))
  {
    var learned := LearnedFrom(Try(p.artifact, p.template, p.oracles, p.apply, cands[0]).violations);
    RestartStep(p, all, cands, tried, last);
    InertAppend(p.holeSpace, all, learned);
    all' := all + learned;
  }

  lemma RestartStep<A>(p: Problem<A>, all: seq<Constraint>, pending: seq<Assignment>, tried: nat, last: Option<Assignment>)
    requires tried + 1 <= p.config.maxCandidates && !p.config.expired(tried + 1)
    requires pending != [] && FailsInertly(p, pending[0])
    ensures var learned := LearnedFrom(Try(p.artifact, p.template, p.oracles, p.apply, pending[0]).violations);
      Run(p, all, pending, tried, last) ==
      Run(p, all + learned, Filter(all + learned, AllCandidates(p.holeSpace)), tried + 1, Some(pending[0]))
  {
  }

  lemma RunOverBudget<A>(p: Problem<A>, all: seq<Constraint>, pending: seq<Assignment>, tried: nat, last: Option<Assignment>)
    requires tried < Budget(p.config.maxCandidates) && tried + 1 > p.config.maxCandidates && pending != []
    ensures Run(p, all, pending, tried, last) == SynthResult(Unsat, None, Budget(p.config.maxCandidates), all, Some(pending[0]))
  {
  }

  /** So a synthesis whose first candidate fails with hints that prune nothing uses up its whole budget. */
  lemma SynthesisRestartsUntilBudget<A>(p: Problem<A>, initial: seq<Constraint>)
    requires forall n :: !p.config.expired(n)
    requires AllCandidates(p.holeSpace) != [] && Inert(p.holeSpace, initial)
    requires FailsInertly(p, AllCandidates(p.holeSpace)[0])
    ensures Synthesis(p, initial).status == Unsat
    ensures Synthesis(p, initial).triedCandidates == Budget(p.config.maxCandidates)
  {
    forall cs | Inert(p.holeSpace, cs) ensures Filter(cs, AllCandidates(p.holeSpace)) == AllCandidates(p.holeSpace) {
      InertKeepsCandidates(p.holeSpace, cs);
    }
    assert Stuck(p, AllCandidates(p.holeSpace));
    RestartsUntilBudget(p, initial, AllCandidates(p.holeSpace), 0, None);
  }

  lemma InertKeepsCandidates(hs: HoleSpace, cs: seq<Constraint>)
    requires Inert(hs, cs)
    ensures Filter(cs, AllCandidates(hs)) == AllCandidates(hs)
  {
    var cands := AllCandidates(hs);
    AllCandidatesSpec(hs);
    forall i | 0 <= i < |cands| ensures !Violates(cs, cands[i]) {
      assert cands[i] in cands;
    }
    FilterKeepsAll(cs, cands);
  }
}

// The outer CEGIS loop: verify the current artifact, synthesize a patch when it fails, apply
// the patch and verify again, for at most `maxIters` turns.
module Loop {
  import opened Wrappers
  import opened Schema
  import opened Template
  import opened Synth
  import opened Synthesizer
  import opened Verifier

  datatype RepairStatus = RepairSuccess | RepairUnsat | RepairTimeout | MaxIters

  /**
   * The artifact `repair` hands back and its metadata. `violations` is absent on success,
   * as the success metadata has no such entry.
   */
  datatype RepairResult<A> = RepairResult(
    artifact: A, status: RepairStatus, iterations: int, triedCandidates: nat,
    constraints: seq<Constraint>, lastAssignment: Option<Assignment>,
    violations: Option<seq<Violation>>)

  /** The two exceptions `repair` raises. */
  datatype RepairError = SynthesisError(message: string) | PatchApplyError

  /** The synthesis limits used when the caller gives none: 1000 candidates and the caller's clock. */
  function DefaultConfig(clock: nat -> bool): (c: SynthConfig)
    ensures c.maxCandidates == 1000 && c.expired == clock
  {
    SynthConfig(1000, clock)
  }

  /**
   * Verification inside the loop: every oracle runs in order and their reports are
   * concatenated, but the first oracle that raises ends the verification with its error.
   */
  function CheckAll<A>(oracles: seq<Oracle<A>>, a: A): Result<seq<Violation>, OracleError>
  {
    if oracles == [] then Ok([])
    else
      match oracles[0].check(a)
      case Err(e) => Err(e)
      case Ok(vs) =>
        match CheckAll(oracles[1..], a)
        case Err(e) => Err(e)
        case Ok(ws) => Ok(vs + ws)
  }

  /**
   * Everything one call of `repair` is about. `synth` is the synthesis step each turn calls
   * on the turn's artifact and the constraints learned so far; `repair` itself uses
   * `SynthesisOn` of its own arguments.
   */
  datatype RepairProblem<!A> = RepairProblem(
    template: PatchTemplate, holeSpace: HoleSpace, oracles: seq<Oracle<A>>,
    apply: (A, Patch) -> Option<A>, maxIters: int, config: SynthConfig,
    synth: (A, seq<Constraint>) -> SynthResult)

  /** `synthesize` on a given artifact and initial constraints, the rest fixed. */
  function SynthesisOn<A>(template: PatchTemplate, holeSpace: HoleSpace, oracles: seq<Oracle<A>>,
                          apply: (A, Patch) -> Option<A>, config: SynthConfig): (A, seq<Constraint>) -> SynthResult
  {
    (a: A, initial: seq<Constraint>) => Synthesis(Problem(a, template, holeSpace, oracles, apply, config), initial)
  }

  /** The problem's synthesis step is the synthesizer run on the problem's own arguments. */
  ghost predicate UsesSynthesizer<A>(p: RepairProblem<A>)
  {
    p.synth == SynthesisOn(p.template, p.holeSpace, p.oracles, p.apply, p.config)
  }

  /** Where one turn leaves the loop: finished with an outcome, or moving on to the next turn. */
  datatype Step<A> =
    | Done(outcome: Result<RepairResult<A>, RepairError>)
    | Continue(current: A, tried: nat, learned: seq<Constraint>, seen: seq<Violation>)

  /**
   * Turn `turn` on the artifact `current`: verify it, and when it fails synthesize under the
   * constraints learned so far and apply the patch. `tried` counts the candidates drawn so
   * far and `seen` every failing verification's violations so far.
   */
  function TurnStep<A>(p: RepairProblem<A>, current: A, turn: nat, tried: nat,
                       learned: seq<Constraint>, seen: seq<Violation>): Step<A>
  {
    match CheckAll(p.oracles, current)
    case Err(e) => Done(Err(SynthesisError("Oracle failed: " + e.message)))
    case Ok(vs) =>
      if vs == [] then Done(Ok(RepairResult(current, RepairSuccess, turn, tried, learned, None, None)))
      else
        Resume(p, current, turn, tried, seen, vs, p.synth(current, learned))
  }

  /** The rest of a failing turn, once synthesis has answered `r`. */
  function Resume<A>(p: RepairProblem<A>, current: A, turn: nat, tried: nat, seen: seq<Violation>,
                     vs: seq<Violation>, r: SynthResult): Step<A>
  {
    var tried' := tried + r.triedCandidates;
    if r.status == Success && r.patch.Some? then
      match p.apply(current, r.patch.value)
      case None => Done(Err(PatchApplyError))
      case Some(next) => Continue(next, tried', r.constraints, seen + vs)
    else if r.status == Unsat then
      Done(Ok(RepairResult(current, RepairUnsat, turn + 1, tried', r.constraints, r.lastAssignment, Some(vs))))
    else if r.status == Timeout then
      Done(Ok(RepairResult(current, RepairTimeout, turn + 1, tried', r.constraints, r.lastAssignment, Some(vs))))
    else Continue(current, tried', r.constraints, seen + vs)
  }

  /** The loop from the start of turn `turn`; after `maxIters` turns it gives up. */
  function RepairFrom<A>(p: RepairProblem<A>, current: A, turn: nat, tried: nat,
                         learned: seq<Constraint>, seen: seq<Violation>): Result<RepairResult<A>, RepairError>
    decreases p.maxIters - turn
  {
    if turn >= p.maxIters then Ok(RepairResult(current, MaxIters, p.maxIters, tried, learned, None, Some(seen)))
    else
      match TurnStep(p, current, turn, tried, learned, seen)
      case Done(outcome) => outcome
      case Continue(next, tried', learned', seen') => RepairFrom(p, next, turn + 1, tried', learned', seen')
  }

  /** What `repair` returns or raises on `artifact`, starting from `initial`. */
  function Repairing<A>(p: RepairProblem<A>, artifact: A, initial: seq<Constraint>): Result<RepairResult<A>, RepairError>
  {
    RepairFrom(p, artifact, 0, 0, initial, [])
  }

  /** The verification step at the head of each turn. */
  method CheckArtifact<A>(oracles: seq<Oracle<A>>, a: A) returns (r: Result<seq<Violation>, OracleError>)
    ensures r == CheckAll(oracles, a)
  {
    var found: seq<Violation> := [];
    for i := 0 to |oracles|
      invariant CheckAll(oracles[..i], a) == Ok(found)
    {
      CheckAllAppend(oracles[..i], [oracles[i]], a);
      CheckAllOne(oracles[i], a);
      assert oracles[..i + 1] == oracles[..i] + [oracles[i]];
      match oracles[i].check(a)
      case Err(e) => {
        CheckAllAppend(oracles[..i + 1], oracles[i + 1..], a);
        assert oracles == oracles[..i + 1] + oracles[i + 1..];
        return Err(e);
      }
      case Ok(vs) => {
        found := found + vs;
      }
    }
    assert oracles[..|oracles|] == oracles;
    return Ok(found);
  }

  lemma CheckAllOne<A>(o: Oracle<A>, a: A)
    ensures CheckAll([o], a) == match o.check(a) case Err(e) => Err(e) case Ok(vs) => Ok(vs)
  {
    assert [o][1..] == [];
    if o.check(a).Ok? {
      assert o.check(a).value + [] == o.check(a).value;
    }
  }

  /** Verifying against two oracle lists in turn: the first error wins, else the reports concatenate. */
  lemma {:induction false} CheckAllAppend<A>(p: seq<Oracle<A>>, q: seq<Oracle<A>>, a: A)
    ensures CheckAll(p + q, a) ==
      match CheckAll(p, a)
      case Err(e) => Err(e)
      case Ok(x) => (match CheckAll(q, a) case Err(e) => Err(e) case Ok(y) => Ok(x + y))
    decreases |p|
  {
    if p == [] {
      assert p + q == q;
      if CheckAll(q, a).Ok? {
        assert [] + CheckAll(q, a).value == CheckAll(q, a).value;
      }
    } else {
      assert (p + q)[0] == p[0] && (p + q)[1..] == p[1..] + q;
      CheckAllAppend(p[1..], q, a);
      match p[0].check(a)
      case Err(e) => {}
      case Ok(vs) => {
        match CheckAll(p[1..], a)
        case Err(e) => {}
        case Ok(x) => {
          match CheckAll(q, a)
          case Err(e) => {}
          case Ok(y) => {
            assert vs + (x + y) == (vs + x) + y;
          }
        }
      }
    }
  }

  /** `repair`. A missing configuration stands for the default limits on the caller's clock. */
  method Repair<A>(artifact: A, template: PatchTemplate, holeSpace: HoleSpace, oracles: seq<Oracle<A>>,
                   maxIters: int, initial: seq<Constraint>, config: Option<SynthConfig>,
                   clock: nat -> bool, apply: (A, Patch) -> Option<A>)
    returns (r: Result<RepairResult<A>, RepairError>)
    ensures var cfg := config.GetOr(DefaultConfig(clock));
      r == Repairing(RepairProblem(template, holeSpace, oracles, apply, maxIters, cfg,
                                   SynthesisOn(template, holeSpace, oracles, apply, cfg)), artifact, initial)
  {
    var cfg := config.GetOr(DefaultConfig(clock));
    var p := RepairProblem(template, holeSpace, oracles, apply, maxIters, cfg,
                           SynthesisOn(template, holeSpace, oracles, apply, cfg));
    var current := artifact;
    var tried: nat := 0;
    var learned := initial;
    var seen: seq<Violation> := [];
    var turn: nat := 0;
    while turn < maxIters
      invariant RepairFrom(p, current, turn, tried, learned, seen) == Repairing(p, artifact, initial)
      decreases maxIters - turn
    {
      var step := Turn(p, current, turn, tried, learned, seen);
      if step.Done? {
        return step.outcome;
      }
      current, tried, learned, seen := step.current, step.tried, step.learned, step.seen;
      turn := turn + 1;
    }
    return Ok(RepairResult(current, MaxIters, maxIters, tried, learned, None, Some(seen)));
  }

  /** One turn of the loop's body. */
  method Turn<A>(p: RepairProblem<A>, current: A, turn: nat, tried: nat,
                 learned: seq<Constraint>, seen: seq<Violation>) returns (step: Step<A>)
    requires UsesSynthesizer(p)
    ensures step == TurnStep(p, current, turn, tried, learned, seen)
  {
    var checked := CheckArtifact(p.oracles, current);
    if checked.Err? {
      return Done(Err(SynthesisError("Oracle failed: " + checked.error.message)));
    }
    var vs := checked.value;
    if vs == [] {
      return Done(Ok(RepairResult(current, RepairSuccess, turn, tried, learned, None, None)));
    }
    var s := Synthesize(current, p.template, p.holeSpace, p.oracles, p.config, learned, p.apply);
    step := AfterSynthesis(p, current, turn, tried, seen, vs, s);
  }

  /** The end of a failing turn: apply a synthesized patch, or stop on `unsat` or `timeout`. */
  method AfterSynthesis<A>(p: RepairProblem<A>, current: A, turn: nat, tried: nat, seen: seq<Violation>,
                           vs: seq<Violation>, s: SynthResult) returns (step: Step<A>)
    ensures step == Resume(p, current, turn, tried, seen, vs, s)
  {
    var tried' := tried + s.triedCandidates;
    if s.status == Success && s.patch.Some? {
      var next := p.apply(current, s.patch.value);
      if next.None? {
        return Done(Err(PatchApplyError));
      }
      return Continue(next.value, tried', s.constraints, seen + vs);
    } else if s.status == Unsat {
      return Done(Ok(RepairResult(current, RepairUnsat, turn + 1, tried', s.constraints, s.lastAssignment, Some(vs))));
    } else if s.status == Timeout {
      return Done(Ok(RepairResult(current, RepairTimeout, turn + 1, tried', s.constraints, s.lastAssignment, Some(vs))));
    }
    return Continue(current, tried', s.constraints, seen + vs);
  }

  // ----- Properties -----

  /**
   * The loop's verification fails exactly when some oracle raises; when none does, it reports
   * what `verify` and the synthesizer's own collection report.
   */
  lemma {:induction false} CheckAllSpec<A>(oracles: seq<Oracle<A>>, a: A)
    ensures CheckAll(oracles, a).Ok? <==> forall i | 0 <= i < |oracles| :: oracles[i].check(a).Ok?
    ensures CheckAll(oracles, a).Ok? ==>
      CheckAll(oracles, a).value == VerifyAll(a, oracles) && CheckAll(oracles, a).value == Gathered(oracles, a)
    decreases |oracles|
  {
    if oracles != [] {
      CheckAllSpec(oracles[1..], a);
      assert forall i | 1 <= i < |oracles| :: oracles[i] == oracles[1..][i - 1];
    }
  }

  /** An artifact that already passes comes back unchanged after no turns and no candidates. */
  lemma CleanInputSucceeds<A>(p: RepairProblem<A>, artifact: A, initial: seq<Constraint>)
    requires p.maxIters >= 1 && CheckAll(p.oracles, artifact) == Ok([])
    ensures Repairing(p, artifact, initial) == Ok(RepairResult(artifact, RepairSuccess, 0, 0, initial, None, None))
  {
  }

  /** With no turns allowed, no oracle runs: the answer depends on no oracle. */
  lemma NoTurns<A>(p: RepairProblem<A>, artifact: A, initial: seq<Constraint>)
    requires p.maxIters <= 0
    ensures Repairing(p, artifact, initial) ==
      Ok(RepairResult(artifact, MaxIters, p.maxIters, 0, initial, None, Some([])))
    ensures Repairing(p, artifact, initial) == Repairing(p.(oracles := []), artifact, initial)
  {
  }

  /**
   * What a finished loop promises, from turn `turn` on:
   * - the turn count stays within `maxIters`, and only a success ends before the last turn
   *   without having synthesized;
   * - the constraints passed in stay a prefix of the constraints handed back;
   * - every turn spends at most one synthesis budget;
   * - a success hands back an artifact that verifies clean, without an assignment;
   * - `unsat` and `timeout` hand back the turn's artifact and exactly its verification report,
   *   which is not empty;
   * - `maxIters` gathers at least one violation per turn and no assignment;
   * - a synthesized patch always applies, so `PatchApplyError` is never raised.
   */
  ghost predicate Promised<A>(p: RepairProblem<A>, turn: nat, tried: nat, learned: seq<Constraint>,
                              seen: seq<Violation>, res: Result<RepairResult<A>, RepairError>)
  {
    res != Err(PatchApplyError) &&
    (res.Ok? ==>
      var r := res.value;
      r.iterations <= p.maxIters && (turn <= p.maxIters ==> turn <= r.iterations) &&
      learned <= r.constraints && tried <= r.triedCandidates &&
      (turn <= r.iterations ==>
        r.triedCandidates <= tried + (r.iterations - turn) * Budget(p.config.maxCandidates)) &&
      (r.status == MaxIters ==> r.iterations == p.maxIters) &&
      (r.status == RepairSuccess ==> r.iterations < p.maxIters) &&
      (r.status == RepairSuccess ==>
        CheckAll(p.oracles, r.artifact) == Ok([]) && r.lastAssignment.None? && r.violations.None?) &&
      ((r.status == RepairUnsat || r.status == RepairTimeout) ==>
        r.iterations >= 1 && CheckAll(p.oracles, r.artifact).Ok? &&
        r.violations == Some(CheckAll(p.oracles, r.artifact).value) && r.violations.value != []) &&
      (r.status == MaxIters ==>
        r.lastAssignment.None? && r.violations.Some? && seen <= r.violations.value &&
        |r.violations.value| >= p.maxIters))
  }

  /**
   * What the loop relies on from one synthesis run on `current`: the constraints only grow,
   * the budget bounds the candidates drawn, and a patch comes back exactly on success, applies,
   * and passes every oracle that runs to completion.
   */
  ghost predicate SynthPromise<A>(p: RepairProblem<A>, current: A, learned: seq<Constraint>, r: SynthResult)
  {
    learned <= r.constraints && r.triedCandidates <= Budget(p.config.maxCandidates) &&
    (r.status == Success <==> r.patch.Some?) &&
    (r.status == Success ==>
      p.apply(current, r.patch.value).Some? && Gathered(p.oracles, p.apply(current, r.patch.value).value) == [])
  }

  /** The problem's synthesis step keeps those promises on every artifact. */
  ghost predicate SynthesizerSound<A(!new)>(p: RepairProblem<A>)
  {
    forall a, learned :: SynthPromise(p, a, learned, p.synth(a, learned))
  }

  /** The synthesizer keeps them. */
  lemma SynthesisOnSound<A(!new)>(p: RepairProblem<A>)
    requires UsesSynthesizer(p)
    ensures SynthesizerSound(p)
  {
    forall a, learned ensures SynthPromise(p, a, learned, p.synth(a, learned)) {
      SynthesisSpec(Problem(a, p.template, p.holeSpace, p.oracles, p.apply, p.config), learned);
    }
  }

  /** The end of a failing turn keeps the promises, or hands the next turn a larger state. */
  lemma ResumeSpec<A>(p: RepairProblem<A>, current: A, turn: nat, tried: nat, learned: seq<Constraint>,
                      seen: seq<Violation>, vs: seq<Violation>, r: SynthResult)
    requires turn < p.maxIters && |seen| >= turn
    requires CheckAll(p.oracles, current) == Ok(vs) && vs != []
    requires SynthPromise(p, current, learned, r)
    ensures var step := Resume(p, current, turn, tried, seen, vs, r);
      (step.Done? ==> Promised(p, turn, tried, learned, seen, step.outcome)) &&
      (step.Continue? ==>
        tried <= step.tried <= tried + Budget(p.config.maxCandidates) &&
        learned <= step.learned && step.seen == seen + vs)
  {
  }

  /** A later turn's promises carry back to the turn that moved on to it. */
  lemma PromisedEarlier<A>(p: RepairProblem<A>, turn: nat, tried: nat, learned: seq<Constraint>,
                           seen: seq<Violation>, tried': nat, learned': seq<Constraint>, vs: seq<Violation>,
                           res: Result<RepairResult<A>, RepairError>)
    requires turn < p.maxIters && vs != []
    requires tried <= tried' <= tried + Budget(p.config.maxCandidates) && learned <= learned'
    requires Promised(p, turn + 1, tried', learned', seen + vs, res)
    ensures Promised(p, turn, tried, learned, seen, res)
  {
    if res.Ok? {
      var r := res.value;
      var b := Budget(p.config.maxCandidates);
      assert (r.iterations - turn) * b == (r.iterations - (turn + 1)) * b + b;
      if r.status == MaxIters {
        assert seen <= seen + vs;
      }
    }
  }

  lemma {:induction false} RepairFromSpec<A(!new)>(p: RepairProblem<A>, current: A, turn: nat, tried: nat,
                                            learned: seq<Constraint>, seen: seq<Violation>)
    requires turn <= p.maxIters || (turn == 0 && |seen| == 0)
    requires |seen| >= turn
    requires SynthesizerSound(p)
    ensures Promised(p, turn, tried, learned, seen, RepairFrom(p, current, turn, tried, learned, seen))
    decreases p.maxIters - turn
  {
    if turn < p.maxIters {
      match CheckAll(p.oracles, current)
      case Err(e) => {}
      case Ok(vs) => {
        if vs != [] {
          var r := p.synth(current, learned);
          ResumeSpec(p, current, turn, tried, learned, seen, vs, r);
          var step := Resume(p, current, turn, tried, seen, vs, r);
          if step.Continue? {
            RepairFromSpec(p, step.current, turn + 1, step.tried, step.learned, step.seen);
            PromisedEarlier(p, turn, tried, learned, seen, step.tried, step.learned, vs,
                            RepairFrom(p, step.current, turn + 1, step.tried, step.learned, step.seen));
          }
        }
      }
    }
  }

  /** `RepairFromSpec` for the whole loop. */
  lemma RepairSpec<A(!new)>(p: RepairProblem<A>, artifact: A, initial: seq<Constraint>)
    requires UsesSynthesizer(p)
    ensures var res := Repairing(p, artifact, initial);
      res != Err(PatchApplyError) &&
      (res.Ok? ==>
        var r := res.value;
        r.iterations <= p.maxIters && initial <= r.constraints &&
        (r.status == MaxIters ==> r.iterations == p.maxIters) && (r.status == RepairSuccess ==> r.iterations < p.maxIters) &&
        (r.status == RepairSuccess ==> CheckAll(p.oracles, r.artifact) == Ok([]) && r.lastAssignment.None?) &&
        ((r.status == RepairUnsat || r.status == RepairTimeout) ==>
          1 <= r.iterations && CheckAll(p.oracles, r.artifact).Ok? &&
          r.violations == Some(CheckAll(p.oracles, r.artifact).value)) &&
        (r.status == MaxIters ==> r.lastAssignment.None?))
  {
    SynthesisOnSound(p);
    RepairFromSpec(p, artifact, 0, 0, initial, []);
  }

  /**
   * After a turn whose synthesis succeeds, the next turn's verification either raises or
   * passes: the synthesized patch already passed every oracle that ran to completion.
   */
  lemma PatchedTurnPasses<A(!new)>(p: RepairProblem<A>, current: A, turn: nat, tried: nat,
                             learned: seq<Constraint>, seen: seq<Violation>)
    requires SynthesizerSound(p) && turn + 1 < p.maxIters
    requires CheckAll(p.oracles, current).Ok? && CheckAll(p.oracles, current).value != []
    requires p.synth(current, learned).status == Success
    ensures var s := p.synth(current, learned);
      s.patch.Some? && p.apply(current, s.patch.value).Some? &&
      var next := p.apply(current, s.patch.value).value;
      var res := RepairFrom(p, current, turn, tried, learned, seen);
      (CheckAll(p.oracles, next).Err? ==> res.Err?) &&
      (CheckAll(p.oracles, next).Ok? ==>
        res == Ok(RepairResult(next, RepairSuccess, turn + 1, tried + s.triedCandidates, s.constraints, None, None)))
  {
    var s := p.synth(current, learned);
    assert SynthPromise(p, current, learned, s);
    var next := p.apply(current, s.patch.value).value;
    CheckAllSpec(p.oracles, next);
  }
}

# CeLoR repair engine in Dafny

CeLoR repairs configuration artifacts (here: Kubernetes Deployment manifests) by
counterexample-guided inductive synthesis (CEGIS). A patch *template* lists operations whose
arguments may be *holes*. A *hole space* gives each hole a finite domain of values. The engine
runs every *oracle* on the artifact. When violations remain, the synthesizer enumerates hole
assignments, instantiates the template, applies the patch and re-runs the oracles. When a
candidate fails, it learns *constraints* (forbidden values and forbidden tuples) from hints in
the violations' evidence, and enumeration restarts with those candidates pruned. The outer loop
repeats this for at most `max_iters` turns. The controller above it consults the *Fix Bank*
first. The Fix Bank is a store of earlier repairs keyed by a signature of the failure: on a hit,
its template, hole space and learned constraints are reused. On a miss, a template proposer, a
default template or the caller's template is used instead. After a successful repair the
controller records the repair in the Fix Bank.

The model follows the source module by module:

| file | module | models |
|---|---|---|
| wrappers.dfy | Wrappers | `Option` and `Result` |
| strings.dfy | Strings | Python string order, `in`, `split`, `lower()`, `str(int)` |
| sorting.dfy | Sorting | `sorted(set)` under a strict total order |
| values.dfy | Values | Python values as JSON-like trees, hole placeholders and hole values, `str()` and the domain order |
| schema.dfy | Schema | `ViolationEvidence`, `Violation`, oracles and patches (`celor/core/schema`) |
| verifier.dfy | Verifier | `verify`: every oracle, with crashes reported as violations |
| template.dfy | Template | `instantiate`, template serialisation (`celor/core/template.py`) |
| enumeration.dfy | Enumeration | the mixed-radix counter behind candidate enumeration |
| synth.dfy | Synth | `Constraint` and `CandidateGenerator` (`celor/core/synth.py`), as a class over an index array |
| synthesizer.dfy | Synthesizer | `synthesize`, `extract_constraints_from_violations` (`celor/core/cegis/synthesizer.py`) |
| loop.dfy | Loop | `repair`, the outer CEGIS loop (`celor/core/cegis/loop.py`) |
| accumulator.dfy | Accumulator | `CounterexampleAccumulator`, as a class |
| fixbank.dfy | FixBankStore | `FixBank` as a class, signatures, matching, merging and the storage format |
| controller.dfy | Controller | `_determine_template_source` and `repair_artifact` |
| manifest.dfy | Manifest | the dictionary operations the K8s code performs on parsed manifests |
| k8s_patch.dfy | K8sPatch | the six K8s patch operations (`celor/k8s/patch_dsl.py`) |
| oracles.dfy | K8sOracles | `PolicyOracle`, `SecurityOracle` and `ResourceOracle` |
| simple_oracles.dfy | EcrOracle | `ECRPolicyOracle` |

Stateful parts keep their form. `CandidateGenerator`, `CounterexampleAccumulator` and `FixBank`
are classes whose methods update their fields. Each method is proved against a function of the
old state. Loops in the source (the generator's carry loop, the synthesizer's candidate loop,
the outer CEGIS loop, the oracles' file and container loops, the patch operations' loops) are
methods with loop invariants, each proved equal to a recursive specification function. The
properties are lemmas about those functions.

Behaviour of the code that the model keeps, and proves as lemmas:

- `repair` never records the winning assignment on success. Its `last_synth_result` is never
  assigned, so a new Fix Bank entry always stores `None` as its `successful_assignment`, whatever
  the docstring says (`Loop.RepairSpec`, `Controller.RecordedSuccess`).
- The synthesizer neither deduplicates hints nor checks them against the hole space. A failing
  first candidate whose hints prune nothing therefore makes the generator restart at the same
  candidate until the candidate budget is used up (`Synthesizer.RestartsUntilBudget`).
- When every oracle raises on a patched artifact, `verify` turns each crash into a violation.
  The synthesizer's own oracle loop, however, counts an exception as no violation, so such a
  candidate is accepted (`Synthesizer.ThrowingOraclesAccept`).
- Where docstrings and code disagree, the model follows the code.

## Model

| member | source | states |
|---|---|---|
| Schema.PostInit | celor/core/schema/violation.py:61-68 | after construction `locals` and `locals_snapshot` are set together; a set one keeps its value, the missing one copies it, and no other field changes |
| Schema.ReadBackInputs | celor/core/schema/violation.py:77-78 | `to_dict` writes `inputs` exactly when it is set, and reading the key back gives the field |
| Schema.ReadBackExpected | celor/core/schema/violation.py:79-80 | the same for `expected` |
| Schema.ReadBackActual | celor/core/schema/violation.py:81-82 | the same for `actual` |
| Schema.ReadBackFile | celor/core/schema/violation.py:83-84 | the same for `file` |
| Schema.ReadBackLineno | celor/core/schema/violation.py:85-86 | the same for `lineno` |
| Schema.ReadBackFunc | celor/core/schema/violation.py:87-88 | the same for `func` |
| Schema.ReadBackExecutingNode | celor/core/schema/violation.py:92-93 | the same for `executing_node` |
| Schema.ReadBackExecutedLines | celor/core/schema/violation.py:94-95 | the same for `executed_lines` |
| Schema.ReadBackExceptionType | celor/core/schema/violation.py:96-97 | the same for `exception_type` |
| Schema.ReadBackExceptionMessage | celor/core/schema/violation.py:98-99 | the same for `exception_message` |
| Schema.ReadBackLocals | celor/core/schema/violation.py:89-91 | `to_dict` writes the snapshot under both `locals` and `locals_snapshot`, and writes both keys or neither |
| Schema.EvidenceFromDict | celor/core/schema/violation.py:139-167 | dictionary evidence: every known field is read from its key (missing means unset), unknown keys are dropped, and `locals`/`locals_snapshot` mirror each other |
| Schema.EvidenceDictRoundTrip | celor/core/schema/violation.py:70-100 | reading back what `to_dict` wrote gives the same evidence whenever the two locals fields agree; `__post_init__` makes them agree only when one of them was unset (see `EvidenceDictLosesLocals`) |
| Schema.GetEvidence | celor/core/schema/violation.py:127-170 | a `ViolationEvidence` is returned unchanged, dictionary evidence is converted, and any other evidence gives the all-unset record |
| Schema.EvidenceToDict | celor/core/schema/violation.py:70-100 | `to_dict`: the fields that are set, under their keys, with the snapshot under both `locals` and `locals_snapshot`; each key's read-back is stated by the `ReadBack` lemmas |
| Schema.EvidenceDictLosesLocals | celor/core/schema/violation.py:61-100 | when both locals fields are set and differ, `to_dict` keeps only the snapshot, so reading the dictionary back gives the snapshot for `locals` and a different evidence record |
| Verifier.CrashViolation | celor/core/cegis/verifier.py:42-52 | a crashed oracle's violation: id `oracle_error:` plus the oracle's name or `unknown`, path `verifier`/`oracle_error`, severity `error`, evidence carrying the message and `exception_type` |
| Verifier.Verify | celor/core/cegis/verifier.py:9-54 | the loop returns every oracle's contribution, in oracle order; a contribution is the oracle's violations, or its one crash violation when it raised |
| Verifier.VerifyAllAppend | celor/core/cegis/verifier.py:38-52 | verifying against two oracle lists one after the other gives the first result followed by the second |
| Verifier.VerifyAllEmpty | celor/core/cegis/verifier.py:31-54 | the result is empty exactly when every oracle returns no violations and does not raise; no oracles gives no violations |
| Verifier.VerifyAllAt | celor/core/cegis/verifier.py:38-52 | each oracle's share sits at its own offset, so a crashing oracle adds exactly one crash violation and the oracles after it still run |
| Values.SortStrings | celor/core/synth.py:93 | `sorted(hole_space.keys())` lists each hole name exactly once |
| Values.SortStringsSorted | celor/core/synth.py:93 | the hole names are listed in strictly increasing string order |
| Values.SortValues | celor/core/synth.py:94 | `sorted(domain, key=str)` lists each value of the domain exactly once |
| Values.SortValuesSorted | celor/core/synth.py:94 | a sorted domain is strictly increasing in the value order (by `str`, ties broken by kind) |
| Values.SortValuesByStr | celor/core/synth.py:94 | along a sorted domain the `str` renderings never decrease |
| Values.SortValuesDistinct | celor/core/synth.py:94 | a sorted domain has no repeated value |
| Synth.ConstraintDictRoundTrip | celor/core/synth.py:37-44 | `Constraint.from_dict(c.to_dict())` gives back `c` |
| Synth.FilterSpec | celor/core/synth.py:126-142 | pruning keeps exactly the candidates no constraint forbids, never adds any, and keeps everything when there are no constraints |
| Synth.DomainsOf | celor/core/synth.py:94 | there is one domain per hole |
| Synth.Sizes | celor/core/synth.py:153-195 | the radix of each position is the size of its domain |
| Synth.Cands | celor/core/synth.py:128-131 | one candidate is built per index vector |
| Synth.CandidateGenerator.constructor | celor/core/synth.py:79-88 | a new generator stores the hole space and constraints and will yield exactly the unforbidden candidates of the hole space, in enumeration order |
| Synth.CandidateGenerator.InitState | celor/core/synth.py:90-98 | holes sorted by name, domains sorted by `str`, indices at zero; exhausted at once for an empty hole space or an empty domain; what remains is the pruned full enumeration |
| Synth.CandidateGenerator.UpdateConstraints | celor/core/synth.py:100-107 | after replacing the constraints, the generator yields what a fresh generator with those constraints would yield |
| Synth.CandidateGenerator.ViolatesConstraints | celor/core/synth.py:161-185 | true exactly when some constraint forbids the candidate: `forbidden_value` when the hole's value equals the value; `forbidden_tuple` when every zipped pair matches, list operands zipped by item and string operands by character |
| Synth.CandidateGenerator.Advance | celor/core/synth.py:144-159 | the carry loop turns the index vector into its mixed-radix successor (rightmost position fastest), or marks the generator exhausted after the last vector |
| Synth.CandidateGenerator.Next | celor/core/synth.py:113-142 | returns the first remaining candidate and drops it from what remains; returns nothing (StopIteration) when nothing remains |
| Synth.CandidateGenerator.EstimateSize | celor/core/synth.py:187-196 | the product of the domain sizes, whatever the constraints |
| Synth.AllPairsMatch | celor/core/synth.py:180-183 | `all(... for h, v in zip(holes, values))`: every pair up to the shorter list matches, so an empty list matches every candidate |
| Synth.CarryStops | celor/core/synth.py:151-154 | when the carry loop stops at a position, the indices are the successor vector and stay in range |
| Synth.SuccAt | celor/core/synth.py:151-154 | incrementing a position that stays in range, all later positions having overflowed, gives the successor: earlier positions kept, later ones zero |
| Synth.SuccOverflowAt | celor/core/synth.py:155-156 | an overflow at a position extends the run of maximal positions to that position |
| Synth.UnfoldRemaining | celor/core/synth.py:126-142 | one step of `__next__`: the pruned run from a vector is that vector's candidate, unless forbidden, followed by the pruned run from its successor |
| Synth.LayoutDistinct | celor/core/synth.py:93-94 | the sorted holes are distinct and each sorted domain has no repeated value |
| Synth.BuildKeys | celor/core/synth.py:128-131 | a built candidate assigns exactly the holes |
| Synth.BuildAt | celor/core/synth.py:128-131 | a built candidate gives each hole the value at its index in its domain |
| Synth.BuildInjective | celor/core/synth.py:128-131 | different index vectors build different candidates |
| Synth.Unbuild | celor/core/synth.py:128-131 | every assignment drawing each hole from its domain is built by some index vector in range |
| Synth.ProdZero | celor/core/synth.py:193-195 | an empty domain makes the product of the domain sizes zero |
| Synth.InSpaceByPosition | celor/core/synth.py:93-94 | an assignment is in the hole space exactly when it assigns exactly the sorted holes, each a value of its sorted domain |
| Synth.CandsInSpace | celor/core/synth.py:128-131 | every built candidate assigns exactly the hole names, each a value of its domain |
| Synth.OrbitCandsComplete | celor/core/synth.py:126-159 | every assignment of the space is met on the run from all zeros |
| Synth.SpaceInCands | celor/core/synth.py:126-159 | every assignment of the space is among the candidates of the hole space |
| Synth.EmptyDomainEmptySpace | celor/core/synth.py:98 | with an empty domain the hole space has no assignment at all |
| Synth.CandsDistinct | celor/core/synth.py:126-159 | the generator never yields the same candidate twice |
| Synth.OrbitCandsDistinct | celor/core/synth.py:126-159 | the candidates built along the run from all zeros are pairwise distinct |
| Synth.AllCandidatesRun | celor/core/synth.py:90-159 | for a non-empty space with no empty domain, the candidates are those built along the run from all zeros |
| Synth.StartRemaining | celor/core/synth.py:90-98 | a generator reset over a hole space will yield the unforbidden candidates of the space, and nothing when it starts exhausted |
| Synth.AllCandidatesSpec | celor/core/synth.py:90-159 | without constraints: nothing for an empty hole space, otherwise exactly the product of the domain sizes, each candidate assigning exactly the hole names from their domains, all distinct |
| Synth.AllCandidatesSize | celor/core/synth.py:90-159 | the number of candidates is the product of the domain sizes, zero for an empty hole space |
| Synth.AllCandidatesMembers | celor/core/synth.py:98-159 | the candidates are exactly the assignments of the hole space |
| Synth.AllCandidatesOrder | celor/core/synth.py:93-159 | the k-th candidate is built from the index vector whose mixed-radix value is k, the rightmost position advancing fastest |
| Synth.PrunedSpec | celor/core/synth.py:126-185 | a generator yields exactly the assignments of the space that no constraint forbids |
| Enumeration.SuccNoneIsLast | celor/core/synth.py:151-159 | the counter overflows exactly at the last vector, the one with every position at its maximum |
| Enumeration.SuccRank | celor/core/synth.py:151-159 | the successor stays in range and its mixed-radix value is one more |
| Enumeration.RankInjective | celor/core/synth.py:151-159 | two vectors in range with the same mixed-radix value are equal |
| Enumeration.RankBounds | celor/core/synth.py:151-159 | a vector in range has a mixed-radix value below the product of the sizes |
| Enumeration.ZerosRank | celor/core/synth.py:97 | the all-zero start vector has value zero |
| Enumeration.Orbit | celor/core/synth.py:126-159 | the run of the counter from a vector starts at that vector and stays in range |
| Enumeration.OrbitRanks | celor/core/synth.py:126-159 | the run from a vector visits the values from its own up to the last, in increasing order and one at a time |
| Enumeration.OrbitComplete | celor/core/synth.py:126-159 | every vector at or after the start lies on the run |
| Enumeration.OrbitDistinct | celor/core/synth.py:126-159 | the run never visits a vector twice |
| Template.FillOps | celor/core/template.py:108-128 | the filled operations correspond one to one, in order, to the template's operations |
| Template.Instantiate | celor/core/template.py:82-128 | succeeds exactly when every top-level placeholder names an assigned hole, and then gives the filled operations; otherwise raises "hole not found" for an unassigned hole of the first operation that has one, listing the available holes |
| Template.InstantiateOp | celor/core/template.py:112-126 | one operation: fails exactly on an unassigned placeholder it refers to; otherwise the same name with every argument filled |
| Template.FillOpsShape | celor/core/template.py:110-126 | instantiation keeps the number, order and names of the operations and their argument keys, replaces each assigned top-level placeholder by its value and keeps every other argument, nested placeholders included |
| Template.FilledHasNoHoles | celor/core/template.py:110-126 | once every placeholder is assigned, no top-level placeholder is left in the patch |
| Template.ConcreteFillsToItself | celor/core/template.py:122-124 | a template without placeholders instantiates to its own operations |
| Template.FillDependsOnReferredHoles | celor/core/template.py:114-121 | only the values of the holes the template refers to matter to the result |
| Template.SerializeOps | celor/core/template.py:190-198 | one stored record per operation, in order |
| Template.OpRoundTrip | celor/core/template.py:151-217 | one operation survives storing and reading back when no concrete argument is a dictionary with a `$hole` key |
| Template.OpsRoundTrip | celor/core/template.py:190-217 | the operation list survives storing and reading back, in order |
| Template.TemplateRoundTrip | celor/core/template.py:181-217 | `deserialize_template(serialize_template(t)) == t` whenever no concrete argument is a dictionary with a `$hole` key |
| Template.MarkerArgDoesNotRoundTrip | celor/core/template.py:176-178 | a concrete dictionary argument with a `$hole` key comes back as a placeholder, so that side condition is needed |
| Template.SerializeValue | celor/core/template.py:131-153 | `serialize_value`: a placeholder becomes the `{"$hole": name}` marker and every other value passes through; `OpRoundTrip` proves it inverted by `DeserializeValue` |
| Template.DeserializeValue | celor/core/template.py:156-178 | `deserialize_value`: a dictionary holding `$hole` becomes a placeholder and every other value passes through; `MarkerArgDoesNotRoundTrip` shows the marker case |
| Template.SerializeTemplate | celor/core/template.py:181-198 | `serialize_template`: one record per operation with its serialised arguments; `SerializeOps` and `TemplateRoundTrip` state it |
| Template.DeserializeTemplate | celor/core/template.py:201-217 | `deserialize_template`: the operations read back in order; `TemplateRoundTrip` proves it inverts `SerializeTemplate` |
| Synthesizer.ExtractConstraints | celor/core/cegis/synthesizer.py:61-116 | the loop returns the constraints of every violation's hints, in violation order; the candidate is not consulted |
| Synthesizer.ViolationHints | celor/core/cegis/synthesizer.py:89-114 | only non-empty dictionary evidence is read: one `forbidden_value` per well-formed `forbid_value` hint, then one `forbidden_tuple` per well-formed `forbid_tuple` hint |
| Synthesizer.LearnedFromAppend | celor/core/cegis/synthesizer.py:88-116 | the constraints learned from two violation lists in turn are the two results one after the other |
| Synthesizer.LearnedShape | celor/core/cegis/synthesizer.py:98-113 | every learned constraint is `forbidden_value` with data keys `hole`/`value` or `forbidden_tuple` with data keys `holes`/`values` |
| Synthesizer.LearnedCount | celor/core/cegis/synthesizer.py:88-116 | each violation teaches at most two constraints, and violations without dictionary evidence teach none |
| Synthesizer.GatheredEmpty | celor/core/cegis/synthesizer.py:216-228 | a candidate passes exactly when every oracle either raises or reports nothing |
| Synthesizer.GatherViolations | celor/core/cegis/synthesizer.py:216-225 | the violations of the oracles that run to completion, in oracle order; an oracle that raises is skipped |
| Synthesizer.Synthesize | celor/core/cegis/synthesizer.py:119-257 | the loop over the generator returns the run that the reference `Synthesis` describes from the initial constraints; its properties are the lemmas below |
| Synthesizer.TryCandidate | celor/core/cegis/synthesizer.py:202-228 | a candidate is skipped when the template does not instantiate or the patch does not apply; otherwise it passes or fails on the gathered violations |
| Synthesizer.AfterTrialSpec | celor/core/cegis/synthesizer.py:239-247 | after a failed candidate the constraints only grow, and every candidate still pending lies in the space and breaks no constraint |
| Synthesizer.RunKeepsConstraints | celor/core/cegis/synthesizer.py:157-244 | the returned constraints begin with the constraints the run started from, in order |
| Synthesizer.RunStep | celor/core/cegis/synthesizer.py:172-247 | a candidate that is within budget and time and does not pass moves the run on with the learned constraints and one more try |
| Synthesizer.RunStops | celor/core/cegis/synthesizer.py:172-257 | when the run stops, it returns its constraints as they are and has drawn at most one more candidate, and a stop over budget is `unsat` with `max_candidates + 1` tries |
| Synthesizer.RunBudget | celor/core/cegis/synthesizer.py:172-185 | `tried_candidates` counts every drawn candidate, skipped ones too, and an over-budget run ends `unsat` with no patch and exactly `max_candidates + 1` tries |
| Synthesizer.RunSuccess | celor/core/cegis/synthesizer.py:228-257 | a patch is returned exactly on success, and a success is sound: its candidate is in the space and breaks no returned constraint, and its patch applies with no oracle reporting a violation |
| Synthesizer.SynthesisSpec | celor/core/cegis/synthesizer.py:156-257 | `synthesize` keeps its initial constraints as a prefix, respects the budget, returns a patch exactly on success, and succeeds only soundly |
| Synthesizer.WarmStart | celor/core/cegis/synthesizer.py:157-163 | candidates the initial constraints forbid are never drawn, so a first allowed candidate that passes succeeds after one try |
| Synthesizer.ThrowingOraclesAccept | celor/core/cegis/synthesizer.py:218-237 | when every oracle raises on the patched artifact, the first candidate that instantiates and applies is accepted as a success |
| Synthesizer.ViolatesAppend | celor/core/synth.py:170-185 | a candidate breaks two constraint lists in turn exactly when it breaks one of them |
| Synthesizer.UnknownHoleInert | celor/core/cegis/synthesizer.py:240-247 | a `forbid_value` hint naming a hole outside the hole space (value not `None`) prunes nothing |
| Synthesizer.RestartsUntilBudget | celor/core/cegis/synthesizer.py:172-247 | hints are neither deduplicated nor checked against the space, so a run whose first candidate fails with hints that prune nothing restarts at that candidate until the budget is used up, ending `unsat` |
| Synthesizer.RestartInPlace | celor/core/cegis/synthesizer.py:240-247 | one such failure adds constraints that still prune nothing, and the generator restarts at the same candidate |
| Synthesizer.RunOverBudget | celor/core/cegis/synthesizer.py:177-185 | drawing a candidate past the budget ends the run `unsat` with `max_candidates + 1` tries |
| Synthesizer.SynthesisRestartsUntilBudget | celor/core/cegis/synthesizer.py:157-247 | a synthesis whose first candidate fails with hints that prune nothing ends `unsat` with exactly `max_candidates + 1` tries |
| Synthesizer.InertKeepsCandidates | celor/core/synth.py:100-138 | constraints that forbid no assignment of the space leave the enumeration unchanged |
| Loop.DefaultConfig | celor/core/cegis/synthesizer.py:39-40 | the default synthesis limits: 1000 candidates, on the caller's clock |
| Loop.CheckArtifact | celor/core/cegis/loop.py:96-103 | the verification at the head of a turn: the oracles' reports concatenated in order, or the error of the first oracle that raises |
| Loop.CheckAllOne | celor/core/cegis/loop.py:97-103 | verifying against one oracle gives its report or its error |
| Loop.CheckAllAppend | celor/core/cegis/loop.py:97-103 | verifying against two oracle lists in turn: the first error wins, otherwise the reports are concatenated |
| Loop.Repair | celor/core/cegis/loop.py:21-190 | the loop returns what the reference `Repairing` describes: at most `max_iters` turns of verify, synthesize from the constraints so far, apply |
| Loop.Turn | celor/core/cegis/loop.py:91-179 | one turn: an oracle error raises `SynthesisError`, a clean artifact is a success after `turn` iterations, otherwise synthesis runs from the constraints learned so far |
| Loop.AfterSynthesis | celor/core/cegis/loop.py:139-179 | after synthesis the candidate count grows by that run's count and its constraints replace the learned ones; a success applies the patch (a failure raises `PatchApplyError`), and `unsat`/`timeout` stop with `iterations = turn + 1` and that turn's violations |
| Loop.CheckAllSpec | celor/core/cegis/loop.py:96-103 | the loop's verification fails exactly when some oracle raises; otherwise it reports what `verify` and the synthesizer's collection report |
| Loop.CleanInputSucceeds | celor/core/cegis/loop.py:105-118 | an artifact that already passes comes back unchanged: `success`, 0 iterations, 0 candidates, the initial constraints, no assignment |
| Loop.NoTurns | celor/core/cegis/loop.py:91-190 | with `max_iters = 0` the result is `max_iters` with nothing tried, and no oracle is run |
| Loop.SynthesisOnSound | celor/core/cegis/synthesizer.py:156-257 | every synthesis run keeps the constraints as a prefix, stays within the budget, and returns a patch exactly on success, one that applies and passes |
| Loop.ResumeSpec | celor/core/cegis/loop.py:139-179 | the end of a failing turn either finishes with the loop's promises kept or hands the next turn more candidates (at most one budget), more constraints and the turn's violations |
| Loop.PromisedEarlier | celor/core/cegis/loop.py:91-190 | the promises of a later turn carry back to the turn that moved on to it |
| Loop.RepairFromSpec | celor/core/cegis/loop.py:91-190 | from any turn: iterations within `max_iters`, constraints only extended, at most one synthesis budget per turn, success only on a clean artifact, `unsat`/`timeout` with that turn's violations, `max_iters` with every turn's violations, and `PatchApplyError` never raised |
| Loop.RepairSpec | celor/core/cegis/loop.py:21-190 | `repair`: `iterations` never exceeds `max_iters`, the initial constraints stay a prefix, a success returns a clean artifact with no assignment, `unsat`/`timeout` return that turn's artifact and violations, and `max_iters` has no assignment |
| Loop.PatchedTurnPasses | celor/core/cegis/loop.py:105-157 | after a turn whose synthesis succeeds, the patched artifact either passes at once on the next turn or makes an oracle raise |
| Accumulator.KeyIgnoresMetadata | celor/core/accumulator.py:165-193 | the deduplication key does not depend on a violation's id, message or severity |
| Accumulator.KeyByContent | celor/core/accumulator.py:184-189 | two violations with the same evidence inputs, expected output, file and function get the same key |
| Accumulator.CounterexampleAccumulator.constructor | celor/core/accumulator.py:47-50 | a new accumulator has no records and no seen keys, and its invariant holds |
| Accumulator.CounterexampleAccumulator.Add | celor/core/accumulator.py:52-71 | keeps the seen-key set equal to the records' keys with no key repeated; the new records and the flag are those of `Adding` |
| Accumulator.CounterexampleAccumulator.AddAll | celor/core/accumulator.py:73-87 | adding each violation in turn keeps the invariant; records and the count of new ones are those of `AddingAll` |
| Accumulator.CounterexampleAccumulator.GetAll | celor/core/accumulator.py:89-95 | returns the violations of the unsatisfied records, in insertion order |
| Accumulator.CounterexampleAccumulator.GetAllWithMetadata | celor/core/accumulator.py:97-103 | returns every record, satisfied or not |
| Accumulator.CounterexampleAccumulator.MarkSatisfied | celor/core/accumulator.py:105-119 | flags the first record carrying the violation's key, keeps the seen keys and the invariant, and reports whether such a record existed |
| Accumulator.CounterexampleAccumulator.MarkAllSatisfied | celor/core/accumulator.py:121-134 | marks each violation in turn; records and the count found are those of `MarkingAll` |
| Accumulator.CounterexampleAccumulator.Count | celor/core/accumulator.py:143-149 | the number of records, satisfied or not |
| Accumulator.CounterexampleAccumulator.CountUnsatisfied | celor/core/accumulator.py:151-157 | the number of unsatisfied records, never more than the total |
| Accumulator.CounterexampleAccumulator.Clear | celor/core/accumulator.py:159-162 | no records and no seen keys remain |
| Accumulator.AddingSpec | celor/core/accumulator.py:52-71 | a violation is appended, unsatisfied, exactly when its key is new; the old records stay a prefix, the keys grow by its key and stay distinct |
| Accumulator.DistinctKeysCount | celor/core/accumulator.py:52-71 | with distinct keys, there are exactly as many keys as records |
| Accumulator.AddingAllShape | celor/core/accumulator.py:73-87 | adding a batch keeps the old records as a prefix and the keys distinct, adds the batch's keys, and the count is the number of records appended |
| Accumulator.AddingAllCount | celor/core/accumulator.py:73-87 | the count is the number of the batch's distinct keys not already present |
| Accumulator.UnsatisfiedSpec | celor/core/accumulator.py:89-95 | every unsatisfied record's violation is listed and every listed violation comes from an unsatisfied record; with no flag raised the list is as long as the records |
| Accumulator.MarkingAt | celor/core/accumulator.py:105-119 | when record `i` is the first with the key, marking flags exactly record `i` |
| Accumulator.MarkingNone | celor/core/accumulator.py:105-119 | when no record has the key, marking changes nothing and reports not found |
| Accumulator.MarkingSpec | celor/core/accumulator.py:105-119 | marking keeps the length, keys, violations and iterations, never clears a flag, reports found exactly when the key is present, and then flags only the first record with it |
| Accumulator.MarkingAllSpec | celor/core/accumulator.py:121-134 | marking a batch keeps the records and their keys, finds at most one per violation, and never grows the unsatisfied list |
| Accumulator.UnsatisfiedShrinks | celor/core/accumulator.py:89-134 | raising flags can only shrink the unsatisfied list |
| Accumulator.HashViolation | celor/core/accumulator.py:165-193 | the content key: falsy inputs read as `[]`, the expected output, and the first two path entries with `""` for a missing one; `KeyIgnoresMetadata` and `KeyByContent` state what it depends on |
| FixBankStore.MatchIsEquivalence | celor/core/fixbank.py:268-292 | signature matching is reflexive, symmetric and transitive, and ignores every key but the failed oracles and the error codes |
| FixBankStore.OracleOf | celor/core/fixbank.py:220-222 | the oracle name taken from a violation id occurs in the id and contains no dot |
| FixBankStore.CodesOf | celor/core/fixbank.py:225-229 | a value is collected exactly when some violation's dictionary evidence carries it as its error code |
| FixBankStore.ErrorCodesSpec | celor/core/fixbank.py:225-230 | the error codes can be sorted exactly when all of them are strings, and then each string code is listed |
| FixBankStore.SignatureMap | celor/core/fixbank.py:261-265 | a signature has exactly the keys failed_oracles, error_codes and context, holding the given values |
| FixBankStore.SortedStrs | celor/core/fixbank.py:220-230 | `sorted(set(...))` lists each name once, in strictly increasing order |
| FixBankStore.CodeNamesSpec | celor/core/fixbank.py:225-230 | a collected code is in the signature's set exactly when it is a string naming one of the codes |
| FixBankStore.BuildSignatureSpec | celor/core/fixbank.py:193-265 | with string codes, the signature lists every failed oracle and every error code exactly once in sorted order, and carries the context |
| FixBankStore.SameFailuresMatch | celor/core/fixbank.py:193-292 | two failures with the same failed oracles and error codes give matching signatures, whatever their order, duplicates or context |
| FixBankStore.Unknown | celor/core/fixbank.py:118-124 | keeps exactly the incoming constraints whose key is not already known |
| FixBankStore.MergeSpec | celor/core/fixbank.py:108-124 | merging keeps the stored constraints as a prefix, appends only incoming ones with unknown keys, knows every incoming key afterwards, and is idempotent |
| FixBankStore.IncomingRepeatsKept | celor/core/fixbank.py:121-124 | an unknown constraint arriving twice in one `add` is appended twice |
| FixBankStore.SuccessCount | celor/core/fixbank.py:105 | a missing success count reads as zero |
| FixBankStore.FindIndex | celor/core/fixbank.py:87-93 | the position found holds a matching entry and no earlier entry matches; none found means no entry matches |
| FixBankStore.AddMiss | celor/core/fixbank.py:127-135 | without a match, `add` appends one entry with the incoming signature and constraints, a success count of one and last used now |
| FixBankStore.AddHit | celor/core/fixbank.py:101-126 | on a match, `add` changes only the first matching entry: one more success, same signature, template and hole space, merged constraints |
| FixBankStore.AddHitBadCount | celor/core/fixbank.py:105 | a stored success count that is not a number makes `add` fail |
| FixBankStore.AddKeepsDistinct | celor/core/fixbank.py:95-137 | a bank whose entries have pairwise non-matching signatures keeps that property through `add` |
| FixBankStore.DomainRoundTrip | celor/core/fixbank.py:295-326 | one domain written as a `str`-sorted list reads back as the same set |
| FixBankStore.HoleSpaceRoundTrip | celor/core/fixbank.py:295-326 | a hole space deserialises back to itself after serialisation, and each domain is stored in `str` order |
| FixBankStore.ConstraintsRoundTrip | celor/core/fixbank.py:174-187 | a list of learned constraints reads back unchanged |
| FixBankStore.EntryRoundTrip | celor/core/fixbank.py:168-190 | an entry reads back unchanged, provided no concrete template argument looks like a stored hole |
| FixBankStore.EntriesRoundTrip | celor/core/fixbank.py:146-162 | a list of entries reads back unchanged under the same proviso |
| FixBankStore.LoadSaveRoundTrip | celor/core/fixbank.py:139-166 | loading the saved document gives back the same entries |
| FixBankStore.LoadFailsEmpty | celor/core/fixbank.py:160-166 | a document that cannot be read loads as an empty bank |
| FixBankStore.FixBank.constructor | celor/core/fixbank.py:65-76 | a bank with an existing file starts with the entries loaded from it, otherwise empty |
| FixBankStore.FixBank.Find | celor/core/fixbank.py:87-93 | the search loop finds the first matching position |
| FixBankStore.FixBank.Lookup | celor/core/fixbank.py:78-93 | returns an entry exactly when one matches, and then the first matching one in insertion order |
| FixBankStore.FixBank.Save | celor/core/fixbank.py:139-153 | writes the entries' document when the bank has a file, and otherwise nothing changes |
| FixBankStore.FixBank.Add | celor/core/fixbank.py:95-137 | the new entries are those of `AddTo` and are saved, the result says whether it was a hit; on failure nothing changes |
| FixBankStore.SignaturesMatch | celor/core/fixbank.py:268-292 | two signatures match when `failed_oracles` and `error_codes` are equal, context ignored; `MatchIsEquivalence` proves it an equivalence |
| FixBankStore.BuildSignature | celor/core/fixbank.py:193-265 | `build_signature` with the context supplied by the caller; `BuildSignatureSpec` states the sorted, deduplicated oracle prefixes and error codes |
| FixBankStore.Merge | celor/core/fixbank.py:101-126 | the constraints of a hit after `add`: the stored ones, then the incoming ones with unknown keys; `MergeSpec` and `IncomingRepeatsKept` state it |
| FixBankStore.AddTo | celor/core/fixbank.py:95-137 | the entries after `add`: a hit is merged in place, a miss is appended; `AddMiss`, `AddHit` and `AddKeepsDistinct` state it |
| FixBankStore.SerializeHoleSpace | celor/core/fixbank.py:295-310 | `serialize_hole_space`: each domain as a list sorted by `str`; `HoleSpaceRoundTrip` proves the order and the round trip |
| FixBankStore.DeserializeHoleSpace | celor/core/fixbank.py:312-326 | `deserialize_hole_space`: each list back to a set; `HoleSpaceRoundTrip` proves it inverts `SerializeHoleSpace` |
| FixBankStore.EntryToDict | celor/core/fixbank.py:168-177 | `_entry_to_dict`: the six stored fields of an entry; `EntryRoundTrip` proves it inverted by `DictToEntry` |
| FixBankStore.DictToEntry | celor/core/fixbank.py:179-190 | `_dict_to_entry`: signature, template and hole space required, the rest defaulted; `EntryRoundTrip` proves it inverts `EntryToDict` |
| Controller.DetermineTemplateSource | celor/core/controller.py:24-102 | the cascade's result is `SourceOf`: a Fix Bank hit, then a proposal that does not raise, then the default template, then the caller's template and hole space, else `ValueError` |
| Controller.HitWins | celor/core/controller.py:55-63 | a Fix Bank hit supplies the stored template, hole space and constraints, marks the hit and makes no proposer call |
| Controller.ProposerOnMiss | celor/core/controller.py:66-86 | without a hit, a proposer that answers is used with one call counted; one that raises is as if there were none |
| Controller.FallbackOrder | celor/core/controller.py:88-100 | without a hit or a proposal, the default template wins over the caller's; with neither the cascade raises `ValueError` |
| Controller.LlmCallsBounded | celor/core/controller.py:49-102 | at most one proposer call is counted, none on a hit; only a hit brings initial constraints and a hit needs a Fix Bank |
| Controller.HitIffMatch | celor/core/controller.py:56-63 | with a Fix Bank, the source is a hit exactly when some stored signature matches the failure's |
| Controller.RepairArtifact | celor/core/controller.py:105-234 | the result is that of `RepairRun`; the Fix Bank's entries change, and are saved, exactly when `RepairRun` says a success was added |
| Controller.CleanArtifactUntouched | celor/core/controller.py:157-171 | an artifact that already passes comes back unchanged as a success with no turns, no candidates, no calls and no Fix Bank write |
| Controller.WrittenOnlyOnSuccess | celor/core/controller.py:204-228 | the Fix Bank is written exactly when there is one, the artifact was failing and the repair succeeded; otherwise its entries are unchanged |
| Controller.RecordedWhen | celor/core/controller.py:204-232 | the result keeps the loop's outcome, and the entry is added exactly when there is a Fix Bank and the status is success |
| Controller.CallerConstraintsOverride | celor/core/controller.py:187-189 | constraints given by the caller are what the loop starts from, whatever the Fix Bank holds |
| Controller.RecordedSuccess | celor/core/controller.py:204-228 | a success on a new signature appends one entry with no recorded assignment and a success count of one; on a hit the number of entries stays the same |
| Controller.SuccessRecorded | celor/core/controller.py:105-234 | when a run stores its success, the repaired artifact passes every oracle and the Fix Bank grows by one entry on a miss and keeps its size on a hit |
| Controller.SourceOf | celor/core/controller.py:24-101 | the template-source cascade: Fix Bank hit, then proposer, then default template, then the caller's template; `HitWins`, `ProposerOnMiss` and `FallbackOrder` state it |
| K8sPatch.Profile | celor/k8s/patch_dsl.py:32-45 | exactly the three profiles small, medium and large exist, with their CPU and memory requests and limits |
| K8sPatch.NewImage | celor/k8s/patch_dsl.py:179-195 | a full ECR path or URL replaces the image; a bare version replaces the tag of the current image, or follows the image or container name when there is no tag |
| K8sPatch.EditFile | celor/k8s/patch_dsl.py:118-123 | a document that is not a dictionary raises, a manifest that is not a Deployment is kept, a Deployment is edited |
| K8sPatch.ProfileOf | celor/k8s/patch_dsl.py:259-265 | a profile argument is accepted exactly when it names a known profile, and then gives that profile |
| K8sPatch.EnsureResourceProfile | celor/k8s/patch_dsl.py:251-263 | an unknown profile raises its `ValueError` before any file is looked at; `ResourceProfileSpec` states the edit |
| K8sPatch.ResourceProfileSpec | celor/k8s/patch_dsl.py:280-285 | a named container gets the profile's request and limit cpu and memory under `resources`, never fails, and keeps its other keys |
| K8sPatch.ApplyOp | celor/k8s/patch_dsl.py:74-100 | an operation name outside the six known ones raises `ValueError` naming it |
| K8sPatch.EditContainerList | celor/k8s/patch_dsl.py:175-195 | the container loop edits exactly the containers `EditNamed` describes, or raises its exception |
| K8sPatch.EditContainersIn | celor/k8s/patch_dsl.py:174-195 | a container operation on one Deployment gives the manifest `EditContainersOf` describes |
| K8sPatch.EditEachFile | celor/k8s/patch_dsl.py:118-151 | the file loop gives the files `EditFiles` describes, stopping at the first file that raises |
| K8sPatch.ApplyK8sOp | celor/k8s/patch_dsl.py:74-100 | dispatches on the name and reads the required arguments as `ApplyOp` does, a missing one raising `KeyError` |
| K8sPatch.ApplyK8sPatch | celor/k8s/patch_dsl.py:48-71 | the operations are applied in order, each to the previous result, and the first failure ends the patch |
| K8sPatch.EditFilesPrefixErr | celor/k8s/patch_dsl.py:118-151 | a file that raises ends the whole operation with that exception |
| K8sPatch.EditNamedAppend | celor/k8s/patch_dsl.py:177-195 | editing a container list in two parts is editing it whole |
| K8sPatch.EditFilesAppend | celor/k8s/patch_dsl.py:118-151 | editing the files in two parts is editing them all |
| K8sPatch.EditFilesSpec | celor/k8s/patch_dsl.py:115-151 | an operation succeeds exactly when every file does; it keeps the files' number, order and paths, edits each Deployment and keeps all other files |
| K8sPatch.ApplyOpsAppend | celor/k8s/patch_dsl.py:66-71 | applying `p + q` is applying `p` and then `q` |
| K8sPatch.UnknownOpFailsPatch | celor/k8s/patch_dsl.py:66-100 | a patch holding an unknown operation fails with its `ValueError`, whatever follows it |
| K8sPatch.LabelSpec | celor/k8s/patch_dsl.py:111-143 | each label dictionary the scope names holds the key's value, an unknown scope changes nothing, other top-level keys are kept; it fails exactly on an existing non-dictionary on a named path |
| K8sPatch.ReplicasSpec | celor/k8s/patch_dsl.py:303-318 | `spec.replicas` holds the value and every other key is kept; it fails exactly when `spec` is not a dictionary |
| K8sPatch.PriorityClassSpec | celor/k8s/patch_dsl.py:336-356 | a name sets `spec.priorityClassName` and `None` removes it, other keys are kept; it fails exactly when `spec` is not a dictionary |
| K8sPatch.ReplicasOverwriteFile | celor/k8s/patch_dsl.py:316-318 | on one file, setting the replica count twice is setting it to the second value |
| K8sPatch.ReplicasOverwrite | celor/k8s/patch_dsl.py:296-326 | on all files, the second replica count wins |
| K8sPatch.SecurityBaselineSpec | celor/k8s/patch_dsl.py:229-240 | the container runs as non-root with a read-only root filesystem, no privilege escalation and all capabilities dropped; other keys are kept; it fails exactly on a non-dictionary security context or capabilities |
| K8sPatch.BaselineOpen | celor/k8s/patch_dsl.py:230-240 | the baseline fails exactly on a `securityContext` or `capabilities` that is not a dictionary |
| K8sPatch.EditNamedKeepsNames | celor/k8s/patch_dsl.py:177-178 | a container operation keeps the list's length and edits only the containers with the given name |
| K8sPatch.WithContainersSpec | celor/k8s/patch_dsl.py:175-177 | after edited containers are written back, the manifest's container list is that list and other top-level keys are kept |
| K8sPatch.EnsureLabel | celor/k8s/patch_dsl.py:103-151 | EnsureLabel over every file; `LabelSpec` states the scope-directed label setting and what stays unchanged |
| K8sPatch.EnsureImageVersion | celor/k8s/patch_dsl.py:154-203 | EnsureImageVersion over every file; `NewImage` states the new image and `EditNamedKeepsNames` that only named containers change |
| K8sPatch.EnsureSecurityBaseline | celor/k8s/patch_dsl.py:206-248 | EnsureSecurityBaseline over every file; `SecurityBaselineSpec` states the four settings and that other keys are kept |
| K8sPatch.EnsureReplicas | celor/k8s/patch_dsl.py:296-326 | EnsureReplicas over every file; `ReplicasSpec` and `ReplicasOverwrite` state it |
| K8sPatch.EnsurePriorityClass | celor/k8s/patch_dsl.py:329-365 | EnsurePriorityClass over every file; `PriorityClassSpec` states that a name sets the key and `None` removes it |
| K8sPatch.ApplyPatch | celor/k8s/artifact.py:51-70 | `K8sArtifact.apply_patch`: the folded operations, any exception a failed application; `ApplyOpsAppend` and `UnknownOpFailsPatch` state the fold |
| Manifest.AsOracleError | celor/core/cegis/verifier.py:42-50 | an exception raised inside an oracle is reported by its type name, and a `ValueError` keeps its message |
| Manifest.GetOr | celor/k8s/utils.py:23-42 | `d.get(key, default)` succeeds exactly on a dictionary, and gives the key's value or the default |
| Manifest.ContainerItems | celor/k8s/patch_dsl.py:175-177 | iterating a container list yields its items; anything else that iterates without raising is empty |
| Manifest.PyIn | celor/k8s/patch_dsl.py:184 | Python's `in` is substring search on a string, membership on a list and key lookup on a dictionary, and raises on anything else |
| Manifest.AsKey | celor/k8s/patch_dsl.py:112-131 | a label key is accepted exactly when it is a string |
| Manifest.Arg | celor/k8s/patch_dsl.py:112-162 | `args[key]` gives the argument when present and raises `KeyError` naming the key otherwise |
| Manifest.ChildObj | celor/k8s/patch_dsl.py:127-130 | a missing child becomes an empty dictionary, an existing dictionary is used, and anything else raises |
| Manifest.SetInSpec | celor/k8s/patch_dsl.py:126-143 | setting a nested key succeeds exactly when the path runs through dictionaries or missing keys; the value is then at the path, and other top-level keys are kept |
| Manifest.SetInOpen | celor/k8s/patch_dsl.py:126-143 | setting a nested key fails exactly on a path through something that is not a dictionary |
| Manifest.SetInValue | celor/k8s/patch_dsl.py:126-143 | a nested key that could be set holds the value, and the top-level keys grow only by the path's head |
| Manifest.Pop | celor/k8s/patch_dsl.py:352-354 | `pop` removes exactly that key and keeps every other |
| Manifest.AsOutcome | celor/core/cegis/verifier.py:38-52 | an oracle's result passes through, and an exception becomes the oracle failure it raises |
| Manifest.JoinedAppend | celor/k8s/oracles.py:47-159 | the reports over two runs of files joined are the reports over all files |
| Manifest.JoinedPrefixErr | celor/k8s/oracles.py:47-159 | a file whose check raises ends the whole loop with that exception |
| Manifest.JoinEach | celor/k8s/oracles.py:43-159 | the per-file loop collects every file's reports in order, or the first exception |
| K8sOracles.FirstContainer | celor/k8s/oracles.py:169-210 | a first container is returned only when the container list is a non-empty list, and then it is the list's first element |
| K8sOracles.ExactProfile | celor/k8s/oracles.py:184-188 | a profile name is returned exactly when the CPU and memory requests equal that profile's, and none when they match no profile |
| K8sOracles.ImageTag | celor/k8s/oracles.py:212-217 | the tag is the text after the image's last ':', or empty when there is none |
| K8sOracles.IndexOfIs | celor/k8s/oracles.py:235 | the first occurrence of a character is where it first appears |
| K8sOracles.AfterRegionOf | celor/k8s/oracles.py:235 | a region without '.' followed by the ECR domain is skipped, leaving the repository part |
| K8sOracles.LineGroupOf | celor/k8s/oracles.py:235 | a non-empty single line, with or without a final line break, is what `(.+)$` captures |
| K8sOracles.EcrImageMatches | celor/k8s/oracles.py:235-236 | every reference with a 12-digit account, a region without '.' and a non-empty one-line repository matches the ECR pattern and gives back its repository and tag |
| K8sOracles.AfterRegionShape | celor/k8s/oracles.py:235 | what the region step accepts is a non-empty region without '.', the ECR domain and the rest |
| K8sOracles.LineGroupShape | celor/k8s/oracles.py:235 | what `(.+)$` accepts is one non-empty line, optionally followed by a final line break |
| K8sOracles.EcrMatchShape | celor/k8s/oracles.py:235-236 | the pattern matches only references of the ECR shape: 12 digits, a region, the domain, then the captured repository and tag |
| K8sOracles.EcrPrefix | celor/k8s/oracles.py:235 | a matching reference starts with twelve digits and ".dkr.ecr." |
| K8sOracles.Assemble | celor/k8s/oracles.py:235 | the pieces the pattern reads put back together are the reference, up to a final line break |
| K8sOracles.CheckEcr | celor/k8s/oracles.py:219-287 | a non-ECR image is reported with a hint forbidding it as the version; an ECR image passes without env, and with env passes exactly when the lower-cased env occurs in its repository path or tag |
| K8sOracles.MissingLabels | celor/k8s/oracles.py:137-147 | every reported label is one of the required labels, and its value is falsy; `MissingLabelsComplete` gives the converse |
| K8sOracles.MissingLabelsComplete | celor/k8s/oracles.py:137-147 | every required label whose value is falsy is reported |
| K8sOracles.ReadPolicyFacts | celor/k8s/oracles.py:64-81 | a finding read from an image is one of the two ECR violations |
| K8sOracles.PolicyOracle | celor/k8s/oracles.py:34-159 | the file loop reports every Deployment's policy violations, in file order, or the first exception |
| K8sOracles.PolicyIgnoresOtherKinds | celor/k8s/oracles.py:59-61 | a manifest that is not a Deployment raises no policy violation |
| K8sOracles.ReplicaRule | celor/k8s/oracles.py:84-100 | under env=prod a set replica count outside 3, 4, 5 is reported and any other is not; the hint forbids the pair (prod, replicas) |
| K8sOracles.ReplicaHint | celor/k8s/oracles.py:95-98 | the replica violation's hint is learned as a forbidden (env, replicas) tuple |
| K8sOracles.ReplicaNotReported | celor/k8s/oracles.py:84 | a replica count the rule allows is never reported |
| K8sOracles.LabelIds | celor/k8s/oracles.py:137-147 | missing-label violations carry `MISSING_LABEL_` ids, and ENV only when the env label is falsy |
| K8sOracles.ProdHasEnvLabel | celor/k8s/oracles.py:137-147 | under env=prod the env label is never reported missing |
| K8sOracles.ProfileAndTagRules | celor/k8s/oracles.py:102-134 | under env=prod a small profile and a latest or staging tag are reported; the profile hint forbids (prod, small) |
| K8sOracles.ProfileAndTagAllowed | celor/k8s/oracles.py:102-134 | a profile or tag that its rule allows is not reported |
| K8sOracles.ProdLabelAndPriorityRules | celor/k8s/oracles.py:137-157 | under env=prod a falsy team or tier label is reported missing, and the missing priority class is reported exactly when `priorityClassName` is falsy |
| K8sOracles.ProfileRecognised | celor/k8s/oracles.py:184-188 | requests set from a profile are recognised as that profile |
| K8sOracles.SecurityContainer | celor/k8s/oracles.py:462-484 | a container is reported when `runAsNonRoot` is falsy, and when `allowPrivilegeEscalation` is anything but `False` |
| K8sOracles.SecurityOracle | celor/k8s/oracles.py:437-486 | the file loop around the container loop reports every Deployment container's security violations in order |
| K8sOracles.BaselinePassesSecurity | celor/k8s/patch_dsl.py:229-240 | a container given the security baseline passes both security rules |
| K8sOracles.ResourceContainer | celor/k8s/oracles.py:520-567 | a container without resources is reported as an error; for string requests, a `NONSTANDARD_PROFILE` warning exactly when no profile matches exactly, both cpu and memory are non-empty and cpu contains `100m` or memory `128Mi`, and nothing otherwise; at most one violation per container |
| K8sOracles.ResourceOracle | celor/k8s/oracles.py:495-569 | the file loop around the container loop reports every Deployment container's resource violations in order |
| K8sOracles.ProfilePassesResources | celor/k8s/patch_dsl.py:280-285 | a container given a known resource profile passes the resource rules |
| K8sOracles.GetLabel | celor/k8s/oracles.py:161-167 | `_get_label`: the pod-template label, `""` when absent |
| K8sOracles.ProfileFromRequests | celor/k8s/oracles.py:180-198 | an exact profile gives its name; otherwise `100m`/`128Mi` gives small, `500m`/`512Mi` medium, `1000m`/`1Gi` large, in that order, else `unknown` |
| K8sOracles.ExtractProfile | celor/k8s/oracles.py:169-198 | `_extract_profile`: `""` without containers, otherwise the profile the first container's requests resemble |
| K8sOracles.ExtractImage | celor/k8s/oracles.py:200-210 | `_extract_image`: the first container's image, `""` without containers |
| K8sOracles.EcrRepoAndTag | celor/k8s/oracles.py:235-236 | the ECR regular expression's third group; `EcrImageMatches` and `EcrMatchShape` prove it matches exactly the ECR shape |
| K8sOracles.SplitTag | celor/k8s/oracles.py:258-262 | `rsplit(":", 1)` of the repository part, the tag `""` without a ':'; `Assemble` proves the pieces reassemble |
| K8sOracles.PolicyViolations | celor/k8s/oracles.py:77-157 | the rules on one Deployment in source order; `ReplicaRule`, `ProfileAndTagRules`, `ProfileAndTagAllowed`, `ProdLabelAndPriorityRules`, `LabelIds` and `CheckEcr` state them |
| K8sOracles.PolicyFile | celor/k8s/oracles.py:47-157 | PolicyOracle on one file: Deployments checked, other kinds pass (`PolicyIgnoresOtherKinds`) |
| K8sOracles.SecurityIgnoresOtherKinds | celor/k8s/oracles.py:454-455 | a manifest of another kind produces no security violations |
| K8sOracles.ResourceIgnoresOtherKinds | celor/k8s/oracles.py:512-513 | a manifest of another kind produces no resource violations |
| EcrOracle.NonStandardEnv | celor/k8s/simple_oracles.py:136 | the set lookup succeeds exactly on a hashable label, and reports it non-standard exactly when it is not one of the three standard names |
| EcrOracle.EcrContainer | celor/k8s/simple_oracles.py:92-149 | a container without an image reports nothing, one that is not a dictionary raises, and no container reports more than two violations |
| EcrOracle.Enumerate | celor/k8s/simple_oracles.py:92 | `enumerate` pairs each container with its position |
| EcrOracle.EcrPolicyOracle | celor/k8s/simple_oracles.py:45-151 | the file loop reports every Deployment container's findings in order, or the first exception |
| EcrOracle.CheckContainers | celor/k8s/simple_oracles.py:92-149 | the numbered container loop reports each container's findings in order, or the first exception |
| EcrOracle.PublicImageRule | celor/k8s/simple_oracles.py:99-115 | an image outside the company registry gets exactly the invalid-source violation, whose hint forbids that image in the container's image hole |
| EcrOracle.RegistryImageRule | celor/k8s/simple_oracles.py:117-149 | for a registry image and any set env label, the findings are exactly a mismatch when the path does not hold the label between slashes, followed by an invalid-label finding when the label is not a standard name; the mismatch hint forbids the pair of label and image |
| EcrOracle.NonStandardEnvRule | celor/k8s/simple_oracles.py:135-149 | a non-standard env label is reported for a registry image, and its hint forbids that label |
| EcrOracle.NoContainersNoFindings | celor/k8s/simple_oracles.py:86-92 | a Deployment with no containers reports nothing, even with a non-standard env label |
| EcrOracle.OtherKindsIgnored | celor/k8s/simple_oracles.py:82-84 | manifests of other kinds are not looked into |
| EcrOracle.FromCompanyEcr | celor/k8s/simple_oracles.py:100 | the image names `.dkr.ecr.` and the account id; `PublicImageRule` states the violation when it does not |
| EcrOracle.EcrFile | celor/k8s/simple_oracles.py:82-149 | one file: only Deployments are checked, each container against the env label; `OtherKindsIgnored` and `NoContainersNoFindings` state the skips |
| Values.FromJson | celor/core/fixbank.py:323-326 | exactly the scalars read back as hole values, and a value read back writes out as the same JSON |
| Values.FromJsonToJson | celor/core/fixbank.py:295-326 | every hole value written as JSON reads back as itself |
| Sorting.SortSet | celor/core/fixbank.py:220-230 | `sorted(set(...))` lists each element of the set exactly once |
| Sorting.SortSetSorted | celor/core/fixbank.py:220-230 | the listing is strictly increasing |
| Sorting.SortedListingUnique | celor/core/fixbank.py:220-230 | a set has only one strictly increasing listing, so equal sets give equal signature lists |
| Strings.StrLessTotal | celor/core/fixbank.py:220-222 | Python's string order compares any two different strings |
| Strings.StrLessTransitive | celor/core/fixbank.py:220-222 | Python's string order is transitive |
| Strings.Lower | celor/k8s/oracles.py:267-268 | lower-casing keeps the length and maps each character |
| Synth.SuccSuffix | celor/core/synth.py:145-160 | a successor of a suffix of the counter is a successor of the whole counter, the prefix kept |
| Synth.Matches | celor/core/synth.py:161-185 | whether one constraint forbids a candidate: `forbidden_value` compares `candidate.get(hole)` with the value, `forbidden_tuple` compares every zipped pair, list items or string characters; its properties are `AllPairsMatch`, `FilterSpec` and `PrunedSpec` |
| Synth.StringTupleZipsCharacters | celor/core/synth.py:180-183 | a `forbidden_tuple` whose holes and values are strings is zipped character by character, so `"env"`/`"prod"` forbids no candidate that lacks a hole `e` |
| Synthesizer.RestartStep | celor/core/cegis/synthesizer.py:172-247 | a failing candidate with hints adds the learned constraints, rebuilds the pruned candidate list and counts one more candidate |
| Synthesizer.FilterKeepsAll | celor/core/synth.py:126-142 | when no constraint forbids any candidate, pruning keeps the list as it is |

## Left out

- YAML parsing and dumping: files are modelled as already-parsed documents, so `policy.INVALID_YAML`, `ecr.INVALID_YAML` and the multi-document fallback of the oracles are not modelled.
- File I/O of the Fix Bank (`save`/`load` read and write a JSON text file): the file is the bank's `saved` field holding a JSON value, and `LoadSaveRoundTrip` proves that loading what was saved gives back the entries. JSON text encoding is not modelled.
- MD5 hashing in `hash_violation` and `build_signature`: the model keys violations by the tuple that is hashed, which identifies the same violations as long as MD5 has no collision.
- Logging, `__repr__` and exception message texts are not modelled.
- The LLM adapter, its automatic creation from configuration (celor/core/controller.py:67-73) and the CLI: the template proposer is an optional function parameter of the controller.
- The wall clock: the loop's and the synthesizer's timeouts are an `expired` predicate over the number of steps taken, and `datetime.now()` in the Fix Bank is the caller's `now` parameter.
- Python's `True == 1`, floats, and the placeholder text that `str()` prints for containers: values are a JSON-like tree with integers, booleans, strings, `None`, lists and dictionaries, and the model distinguishes booleans from integers.
- K8sPatch.EnsureLabel: a label key that is an integer, a boolean or `None` is stored by Python as a dictionary key; the model's dictionaries have string keys, so `AsKey` fails with `TypeError` on every key that is not a string.
- `SchemaOracle` and the Checkov-based oracles, which run external tools: they are not part of this model.
- Two files with the same path in one artifact, and aliasing between parts of a parsed YAML document.
- The region argument of `ECRPolicyOracle`, which none of its checks uses.
- The artifact context of the controller (the K8s domain context) is the caller's `contextOf` function.
- Controller.SourceOf: the default template is an optional value rather than a function, so a `default_template_fn` that raises (celor/core/controller.py:90-92) is not modelled; in the model that step of the cascade never fails.
- Template.SerializeTemplate: argument keys are emitted in the model's map order, whereas Python keeps insertion order; the round trip is unaffected.
- Synth.Matches: a `forbidden_tuple` operand that is a dictionary is zipped by its keys in Python, in an insertion order a map does not keep; the model zips it as empty, so such a tuple forbids every candidate. An operand that is `None`, an integer or a boolean, and a hole name that is a list or a dictionary, make Python raise `TypeError` while filtering, which `synthesize` reports as a synthesis error; the model does not raise there: such a tuple operand zips as empty and such a hole reads as unassigned. Oracles write list operands and string hole names, which the model follows exactly.
- Strings.Lower and the image-tag check: `lower()` and the regular expression's `\d` are taken over ASCII only.
- Ties in `sorted(domain, key=str)`: Python keeps two distinct values that print the same string in set-iteration order; the model's order (`ValueLess`) breaks such ties by the kind of the value, then numerically.
- FixBankStore.ErrorCodesSpec: the model fails with `TypeError` as soon as an error code is not a string, whereas Python fails only on an unhashable code or on codes it cannot compare with each other: it sorts a single code of any hashable type, and any set of integers and booleans. The oracles write string codes.
- FixBankStore.EntryRoundTrip: DictToEntry also rejects a stored entry whose signature or metadata is not a dictionary, where Python would fail later or not at all.
- FixBankStore.DictToEntry: a `learned_constraints` that is not a list is rejected, whereas Python iterates any iterable, so an empty dictionary or an empty string loads as no constraints.
- FixBankStore.HoleSpaceRoundTrip: DeserializeHoleSpace reads back only lists of scalar values, which is what SerializeHoleSpace writes.
- Template.TemplateRoundTrip: DeserializeValue rejects a `$hole` marker whose name is not a string, where Python would build a placeholder with that name.

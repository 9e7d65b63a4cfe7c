// Running every oracle on an artifact and collecting what they report; a crashing oracle is
// reported as a violation of its own instead of stopping the run.
module Verifier {
  import opened Wrappers
  import opened Values
  import opened Schema

  /** The violation standing for an oracle that raised `e`. */
  function CrashViolation(name: Option<string>, e: OracleError): (v: Violation)
    ensures v.id == "oracle_error:" + (if name.Some? then name.value else "unknown")
    ensures v.path == [JStr("verifier"), JStr("oracle_error")] && v.severity == "error"
    ensures v.message == "Oracle execution failed: " + e.message
    ensures v.evidence == Raw(JObj(map["exception" := JStr(e.message), "exception_type" := JStr(e.typeName)]))
  {
    Violation("oracle_error:" + name.GetOr("unknown"), "Oracle execution failed: " + e.message,
      [JStr("verifier"), JStr("oracle_error")], "error",
      Raw(JObj(map["exception" := JStr(e.message), "exception_type" := JStr(e.typeName)])))
  }

  /** What one oracle adds: its violations, or the single crash violation. */
  function Contribution<A>(o: Oracle<A>, a: A): seq<Violation>
  {
    match o.check(a)
    case Ok(vs) => vs
    case Err(e) => [CrashViolation(o.name, e)]
  }

  /** The oracles' contributions, concatenated in oracle order. */
  function VerifyAll<A>(a: A, oracles: seq<Oracle<A>>): seq<Violation>
  {
    if oracles == [] then [] else Contribution(oracles[0], a) + VerifyAll(a, oracles[1..])
  }

  /** `verify`: every oracle runs once, in order, on the same artifact. */
  method Verify<A>(a: A, oracles: seq<Oracle<A>>) returns (vs: seq<Violation>)
    ensures vs == VerifyAll(a, oracles)
  {
    if |oracles| == 0 {
      return [];
    }
    vs := [];
    for i := 0 to |oracles|
      invariant vs == VerifyAll(a, oracles[..i])
    {
      VerifyAllAppend(a, oracles[..i], [oracles[i]]);
      assert oracles[..i + 1] == oracles[..i] + [oracles[i]];
      match oracles[i].check(a)
      case Ok(found) => {
        vs := vs + found;
      }
      case Err(e) => {
        var crash := CrashViolation(oracles[i].name, e);
        vs := vs + [crash];
      }
    }
    assert oracles[..|oracles|] == oracles;
  }

  /** Verifying against two oracle lists in turn gives the two results one after the other. */
  lemma {:induction false} VerifyAllAppend<A>(a: A, p: seq<Oracle<A>>, q: seq<Oracle<A>>)
    ensures VerifyAll(a, p + q) == VerifyAll(a, p) + VerifyAll(a, q)
    decreases |p|
  {
    if p == [] {
      assert p + q == q;
    } else {
      assert (p + q)[1..] == p[1..] + q;
      VerifyAllAppend(a, p[1..], q);
    }
  }

  /** An artifact verifies clean exactly when every oracle runs without error and reports nothing. */
  lemma {:induction false} VerifyAllEmpty<A>(a: A, oracles: seq<Oracle<A>>)
    ensures VerifyAll(a, oracles) == [] <==> forall i | 0 <= i < |oracles| :: oracles[i].check(a) == Ok([])
    decreases |oracles|
  {
    if oracles != [] {
      VerifyAllEmpty(a, oracles[1..]);
      if VerifyAll(a, oracles) == [] {
        forall i | 0 <= i < |oracles| ensures oracles[i].check(a) == Ok([]) {
          if i > 0 {
            assert oracles[i] == oracles[1..][i - 1];
          }
        }
      }
      if forall i | 0 <= i < |oracles| :: oracles[i].check(a) == Ok([]) {
        forall i | 0 <= i < |oracles| - 1 ensures oracles[1..][i].check(a) == Ok([]) {
          assert oracles[1..][i] == oracles[i + 1];
        }
      }
    }
  }

  /**
   * Each oracle's share of the result sits at its own offset: a crashing oracle contributes
   * exactly its one crash violation, and the oracles after it still contribute theirs.
   */
  lemma VerifyAllAt<A>(a: A, oracles: seq<Oracle<A>>, i: nat)
    requires i < |oracles|
    ensures VerifyAll(a, oracles) ==
      VerifyAll(a, oracles[..i]) + Contribution(oracles[i], a) + VerifyAll(a, oracles[i + 1..])
    ensures oracles[i].check(a).Err? ==> Contribution(oracles[i], a) == [CrashViolation(oracles[i].name, oracles[i].check(a).error)]
  {
    var p, q := oracles[..i], oracles[i + 1..];
    var rest := [oracles[i]] + q;
    SplitAt(oracles, i);
    VerifyAllAppend(a, p, rest);
    VerifyAllCons(a, oracles[i], q);
    var head, x, y := Contribution(oracles[i], a), VerifyAll(a, p), VerifyAll(a, q);
    assert x + (head + y) == x + head + y;
  }

  lemma VerifyAllCons<A>(a: A, o: Oracle<A>, q: seq<Oracle<A>>)
    ensures VerifyAll(a, [o] + q) == Contribution(o, a) + VerifyAll(a, q)
  {
    assert ([o] + q)[0] == o && ([o] + q)[1..] == q;
  }

  lemma SplitAt<T>(s: seq<T>, i: nat)
    requires i < |s|
    ensures s == s[..i] + ([s[i]] + s[i + 1..])
  {
  }
}

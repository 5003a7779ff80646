/** Lint findings and the result object the passes fill (internal/lint/result.go). */
module Findings {

  datatype Severity = Error | Warn | Info

  /** The finding codes; the two conformance parts are the tier and the clause. */
  datatype Code =
    | RefsEmpty | RefsExternal | RefsUnresolved | RefsBadTrigger | RefsUnknownAlert
    | BackendsDuplicateId | BackendsEmptyRef | BackendsExternal | BackendsUnresolvedRef
    | RegistryUnknownProduct | VersionsBelowMin | VersionsAboveMax
    | ConformanceClause(tier: string, clause: string)

  datatype Finding = Finding(severity: Severity, code: Code, path: string)

  /** One rubric clause and its verdict. */
  datatype Check = Check(id: string, pass: bool)

  predicate HasError(fs: seq<Finding>) {
    exists f | f in fs :: f.severity == Error
  }

  /** The error findings, in order. */
  function ErrorsOf(fs: seq<Finding>): seq<Finding> {
    if fs == [] then []
    else ErrorsOf(fs[..|fs| - 1]) + (if fs[|fs| - 1].severity == Error then [fs[|fs| - 1]] else [])
  }

  lemma {:induction false} ErrorsOfConcat(a: seq<Finding>, b: seq<Finding>)
    ensures ErrorsOf(a + b) == ErrorsOf(a) + ErrorsOf(b)
  {
    if b == [] {
      assert a + b == a;
    } else {
      var n := |b| - 1;
      assert (a + b)[..|a| + n] == a + b[..n];
      ErrorsOfConcat(a, b[..n]);
    }
  }

  lemma {:induction false} ErrorsOfEmpty(fs: seq<Finding>)
    ensures ErrorsOf(fs) == [] <==> !HasError(fs)
  {
    if fs != [] {
      var n := |fs| - 1;
      ErrorsOfEmpty(fs[..n]);
      assert fs == fs[..n] + [fs[n]];
    }
  }

  /** Each error is kept as often as it was found, and nothing else is kept. */
  lemma {:induction false} ErrorsOfExactly(fs: seq<Finding>, f: Finding)
    ensures multiset(ErrorsOf(fs))[f] == if f.severity == Error then multiset(fs)[f] else 0
  {
    if fs != [] {
      var n := |fs| - 1;
      ErrorsOfExactly(fs[..n], f);
      assert fs == fs[..n] + [fs[n]];
    }
  }

  class LintResult {
    var findings: seq<Finding>
    var refsOK: bool
    var tierTarget: string
    var tierReached: string
    var tier3: seq<Check>
    var tier2: seq<Check>
    var tier1: seq<Check>

    constructor ()
      ensures findings == [] && !refsOK && tierTarget == tierReached == ""
      ensures tier3 == tier2 == tier1 == []
    {
      findings, refsOK, tierTarget, tierReached := [], false, "", "";
      tier3, tier2, tier1 := [], [], [];
    }

    method AddFinding(severity: Severity, code: Code, path: string)
      modifies this`findings
      ensures findings == old(findings) + [Finding(severity, code, path)]
    {
      findings := findings + [Finding(severity, code, path)];
    }

    method HasErrors() returns (found: bool)
      ensures found == HasError(findings)
    {
      for i := 0 to |findings|
        invariant !HasError(findings[..i])
      {
        if findings[i].severity == Error {
          return true;
        }
        assert findings[..i + 1] == findings[..i] + [findings[i]];
      }
      assert findings[..|findings|] == findings;
      return false;
    }
  }
}

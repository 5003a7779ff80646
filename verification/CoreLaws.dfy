/** What the core hands back, in terms of the manifest (internal/operator/operator.go:55-107). */
module CoreLaws {
  import opened Wrappers
  import opened Manifest
  import opened Findings
  import opened Operator
  import H = PlanHash
  import P = Planner
  import R = Refs
  import Report = RefsReport

  lemma CoreKeepsFindings(lib: H.Library, m: Document, target: Target, namespace: string,
                          azure: Option<AzureRef>, res: CoreResult)
    requires CoreOutcome(lib, m, target, namespace, azure) == Ok(res)
    ensures m.Parsed? && res.findings == R.RefsFindings(m.pack)
    ensures res.blocked <==> HasError(res.findings)
  {
    if !res.blocked {
      CoreStages(lib, m, target, namespace, azure, res);
      RenderingKeeps(H.BuildOutcome(lib, m.pack, Effective(target), azure).value, target, namespace, azure,
                     R.RefsFindings(m.pack), res);
    } else {
      BlockedKeeps(lib, m, target, namespace, azure, res);
    }
  }

  lemma RenderingKeeps(pl: P.Plan, target: Target, namespace: string, azure: Option<AzureRef>,
                       findings: seq<Finding>, res: CoreResult)
    requires Rendering(pl, target, namespace, azure, findings) == Ok(res)
    ensures res.findings == findings && !res.blocked
  {
  }

  lemma BlockedKeeps(lib: H.Library, m: Document, target: Target, namespace: string,
                     azure: Option<AzureRef>, res: CoreResult)
    requires CoreOutcome(lib, m, target, namespace, azure) == Ok(res) && res.blocked
    ensures m.Parsed? && res.findings == R.RefsFindings(m.pack) && HasError(res.findings)
  {
  }

  /** The core passes on every finding of the reference pass, and blocks exactly the packs that are not clean. */
  lemma CoreFindings(lib: H.Library, m: Document, target: Target, namespace: string,
                     azure: Option<AzureRef>, res: CoreResult, f: Finding)
    requires CoreOutcome(lib, m, target, namespace, azure) == Ok(res)
    ensures m.Parsed?
    ensures f in res.findings <==> Report.Reported(m.pack, f)
    ensures res.blocked <==> !Report.Clean(m.pack)
  {
    CoreKeepsFindings(lib, m, target, namespace, azure, res);
    Report.ReportExactly(m.pack, f);
    Report.CleanExactly(m.pack);
  }

  /** The request carries the caller's pipeline reference, the plan and its digest. */
  lemma CoreRequest(lib: H.Library, m: Document, target: Target, namespace: string,
                    azure: Option<AzureRef>, res: CoreResult)
    requires CoreOutcome(lib, m, target, namespace, azure) == Ok(res) && res.request.Some?
    ensures res.plan.Some? && azure.Some?
    ensures res.request.value.ref == azure.value && res.request.value.plan == res.plan.value
    ensures res.request.value.hash == res.plan.value.hash
  {
    CoreStages(lib, m, target, namespace, azure, res);
  }
}

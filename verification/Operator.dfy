/** The pure core: validate, plan, render (internal/operator/operator.go). */
module Operator {
  import opened Wrappers
  import opened Lists
  import opened Manifest
  import opened Findings
  import opened Planner
  import opened Render
  import H = PlanHash
  import J = PlanJson
  import R = Refs

  /** The manifest field of the custom resource, as JSON decoding leaves it. */
  datatype Document = NoDocument | Malformed | Parsed(pack: Pack)

  datatype RequestError = WrongTarget | ReferenceRequired

  /** The trigger payload; its parameters are the plan and its pipeline call. */
  datatype Request = Request(ref: AzureRef, hash: string, plan: Plan)

  datatype CoreError =
    | EmptyManifest | MalformedManifest | PlanFailed(build: H.BuildError)
    | RequestFailed(request: RequestError) | UnknownTarget(target: Target)

  datatype CoreResult = CoreResult(
    plan: Option<Plan>, objects: seq<Object>, request: Option<Request>,
    findings: seq<Finding>, blocked: bool)

  /** The core reads an absent target as SKE. */
  function Effective(target: Target): Target {
    if target == "" then TARGET_SKE else target
  }

  predicate InCluster(target: Target) {
    target == TARGET_SKE || target == TARGET_BARE
  }

  /** `azure.BuildRequest`. */
  function BuildRequest(pl: Plan, azure: Option<AzureRef>): Result<Request, RequestError> {
    if pl.target != TARGET_AZURE then Err(WrongTarget)
    else if azure == None || azure.value.pipeline == "" then Err(ReferenceRequired)
    else Ok(Request(azure.value, pl.hash, pl))
  }

  function CoreOutcome(lib: H.Library, m: Document, target: Target, namespace: string,
                       azure: Option<AzureRef>): Result<CoreResult, CoreError>
  {
    if m == NoDocument then Err(EmptyManifest)
    else if m == Malformed then Err(MalformedManifest)
    else if HasError(R.RefsFindings(m.pack))
    then Ok(CoreResult(None, [], None, R.RefsFindings(m.pack), true))
    else match H.BuildOutcome(lib, m.pack, Effective(target), azure)
      case Err(e) => Err(PlanFailed(e))
      case Ok(pl) => Rendering(pl, target, namespace, azure, R.RefsFindings(m.pack))
  }

  /** The switch over the target once a plan is built. */
  function Rendering(pl: Plan, target: Target, namespace: string, azure: Option<AzureRef>,
                     findings: seq<Finding>): Result<CoreResult, CoreError>
  {
    if InCluster(Effective(target)) then
      Ok(CoreResult(Some(pl), Objects(pl, namespace), None, findings, false))
    else if target == TARGET_AZURE then
      match BuildRequest(pl, azure)
      case Err(e) => Err(RequestFailed(e))
      case Ok(request) => Ok(CoreResult(Some(pl), [], Some(request), findings, false))
    else Err(UnknownTarget(target))
  }

  method RenderFor(pl: Plan, target: Target, namespace: string, azure: Option<AzureRef>,
                findings: seq<Finding>) returns (r: Result<CoreResult, CoreError>)
    ensures r == Rendering(pl, target, namespace, azure, findings)
  {
    var effective := Effective(target);
    if effective == TARGET_SKE || effective == TARGET_BARE {
      var objs := RenderObjects(pl, namespace);
      return Ok(CoreResult(Some(pl), objs, None, findings, false));
    } else if effective == TARGET_AZURE {
      var request := BuildRequest(pl, azure);
      if request.Err? {
        return Err(RequestFailed(request.error));
      }
      return Ok(CoreResult(Some(pl), [], Some(request.value), findings, false));
    }
    return Err(UnknownTarget(target));
  }

  /** `operator.Reconcile`. */
  method Reconcile(lib: H.Library, m: Document, target: Target, namespace: string,
                   azure: Option<AzureRef>)
    returns (r: Result<CoreResult, CoreError>)
    requires H.Sorts(lib)
    ensures r == CoreOutcome(lib, m, target, namespace, azure)
  {
    if m == NoDocument {
      return Err(EmptyManifest);
    }
    if m == Malformed {
      return Err(MalformedManifest);
    }
    var lint := new LintResult();
    R.Refs(m.pack, lint);
    var findings := lint.findings;
    assert findings == R.RefsFindings(m.pack);
    var blocked := FirstError(findings);
    if blocked {
      return Ok(CoreResult(None, [], None, findings, true));
    }
    var built := H.Build(lib, m.pack, Effective(target), azure);
    if built.Err? {
      return Err(PlanFailed(built.error));
    }
    r := RenderFor(built.value, target, namespace, azure, findings);
  }

  /** The scan that stops at the first error finding. */
  method FirstError(findings: seq<Finding>) returns (found: bool)
    ensures found <==> HasError(findings)
  {
    for i := 0 to |findings|
      invariant !HasError(findings[..i])
    {
      if findings[i].severity == Error {
        return true;
      }
      assert findings[..i + 1] == findings[..i] + [findings[i]];
    }
    assert findings[..|findings|] == findings;
    return false;
  }

  lemma RenderingPartition(pl: Plan, target: Target, namespace: string, azure: Option<AzureRef>,
                           findings: seq<Finding>, res: CoreResult)
    requires Rendering(pl, target, namespace, azure, findings) == Ok(res)
    ensures !res.blocked && res.plan == Some(pl)
    ensures res.objects != [] <==> target == "" || InCluster(target)
    ensures res.request.Some? <==> target == TARGET_AZURE
    ensures res.objects != [] <==> res.request == None
  {
  }

  /**
   The outcome partition: an error-free pass is either blocked, with nothing planned, or planned
   with exactly one of objects and an Azure request, chosen by the target.
   */
  lemma CorePartition(lib: H.Library, m: Document, target: Target, namespace: string,
                      azure: Option<AzureRef>, res: CoreResult)
    requires CoreOutcome(lib, m, target, namespace, azure) == Ok(res)
    ensures m.Parsed?
    ensures res.blocked <==> exists s | s in R.Sites(m.pack) :: R.Defective(m.pack, s)
    ensures res.blocked <==> res.plan == None
    ensures res.blocked ==> res.objects == [] && res.request == None
    ensures !res.blocked ==>
              && (res.objects != [] <==> target == "" || InCluster(target))
              && (res.request.Some? <==> target == TARGET_AZURE)
              && (res.objects != [] <==> res.request == None)
  {
    R.BlocksExactly(m.pack);
    if !res.blocked {
      var pl := H.BuildOutcome(lib, m.pack, Effective(target), azure).value;
      RenderingPartition(pl, target, namespace, azure, R.RefsFindings(m.pack), res);
    }
  }

  lemma RenderingResult(pl: Plan, target: Target, namespace: string, azure: Option<AzureRef>,
                        findings: seq<Finding>, res: CoreResult)
    requires Rendering(pl, target, namespace, azure, findings) == Ok(res)
    ensures res.plan == Some(pl)
    ensures target != TARGET_AZURE ==> res.objects == Objects(pl, namespace)
    ensures target == TARGET_AZURE ==> res.request.Some? && res.request.value.hash == pl.hash
  {
  }

  /** An unblocked outcome comes from a reference-clean manifest and a built plan. */
  lemma CoreStages(lib: H.Library, m: Document, target: Target, namespace: string, azure: Option<AzureRef>,
                   res: CoreResult)
    requires CoreOutcome(lib, m, target, namespace, azure) == Ok(res) && !res.blocked
    ensures m.Parsed? && !HasError(R.RefsFindings(m.pack))
    ensures H.BuildOutcome(lib, m.pack, Effective(target), azure).Ok?
    ensures Rendering(H.BuildOutcome(lib, m.pack, Effective(target), azure).value, target, namespace, azure,
                      R.RefsFindings(m.pack)) == Ok(res)
  {
  }

  /** The unblocked plan is the plan of this manifest, digest included. */
  lemma CorePlan(lib: H.Library, m: Document, target: Target, namespace: string,
                 azure: Option<AzureRef>, res: CoreResult)
    requires CoreOutcome(lib, m, target, namespace, azure) == Ok(res) && !res.blocked
    ensures m.Parsed? && res.plan.Some?
    ensures var intents := Intents(m.pack, Effective(target), azure);
            res.plan.value == intents.(hash := H.Digest(lib, intents))
  {
    CoreStages(lib, m, target, namespace, azure, res);
    H.BuiltPlan(lib, m.pack, Effective(target), azure);
    RenderingResult(H.BuildOutcome(lib, m.pack, Effective(target), azure).value, target, namespace, azure,
                    R.RefsFindings(m.pack), res);
  }

  /** The unblocked objects are the rendering of that plan, and a request carries its digest. */
  lemma CoreRendered(lib: H.Library, m: Document, target: Target, namespace: string,
                     azure: Option<AzureRef>, res: CoreResult)
    requires CoreOutcome(lib, m, target, namespace, azure) == Ok(res) && !res.blocked
    ensures res.plan.Some?
    ensures target != TARGET_AZURE ==> res.objects == Objects(res.plan.value, namespace)
    ensures target == TARGET_AZURE ==> res.request.Some? && res.request.value.hash == res.plan.value.hash
  {
    CoreStages(lib, m, target, namespace, azure, res);
    RenderingResult(H.BuildOutcome(lib, m.pack, Effective(target), azure).value, target, namespace, azure,
                    R.RefsFindings(m.pack), res);
  }

  /** Exactly when the core fails, and that a built Azure plan never lacks its request. */
  lemma CoreErrors(lib: H.Library, m: Document, target: Target, namespace: string, azure: Option<AzureRef>)
    ensures var r := CoreOutcome(lib, m, target, namespace, azure);
            && (r.Err? ==> !r.error.RequestFailed?)
            && (r.Err? <==>
                  || !m.Parsed?
                  || (!HasError(R.RefsFindings(m.pack)) &&
                      (m.pack.name == ""
                       || (target == TARGET_AZURE && (azure == None || azure.value.pipeline == ""))
                       || !(target == "" || InCluster(target) || target == TARGET_AZURE))))
  {
  }

  // ----- no dangling SLO label leaves the core -----

  /** A rendered alert entry and the SLO its label carries. */
  predicate CarriesSlo(entry: Json, slo: string) {
    && entry.JObject? && "alert" in entry.fields
    && "labels" in entry.fields && entry.fields["labels"].JObject?
    && "slo" in entry.fields["labels"].fields
    && entry.fields["labels"].fields["slo"] == JString(slo)
  }

  lemma AlertEntryLabels(p: Pack, b: Burn)
    ensures CarriesSlo(AlertEntry(AlertFor(p, b)), b.slo)
  {
    var labels := AlertFor(p, b).labels;
    assert "slo" in labels && labels["slo"] == b.slo;
    var texts := J.Texts(labels);
    assert "slo" in texts && texts["slo"] == JString(b.slo);
    assert texts != map[];
  }

  lemma InSecond<T>(a: seq<T>, b: seq<T>, x: T) returns (j: nat)
    requires x in a + b && x !in a
    ensures j < |b| && b[j] == x
  {
    var k :| 0 <= k < |a + b| && (a + b)[k] == x;
    assert k >= |a|;
    j := k - |a|;
  }

  lemma RecordEntryNoAlert(r: RecordingRule, entry: Json)
    requires entry.JObject? && "alert" in entry.fields
    ensures entry != RecordEntry(r)
  {
    assert "alert" !in RecordEntry(r).fields;
  }

  lemma EntryOrigin(p: Pack, entry: Json)
    requires entry in Rules(PlanPrometheus(p))
    requires entry.JObject? && "alert" in entry.fields
    ensures exists b | b in p.spec.policy.burnRateAlerts :: CarriesSlo(entry, b.slo)
  {
    var intent := PlanPrometheus(p);
    var i := AlertIndex(intent, entry);
    var burn := Burns(p)[i];
    assert intent.alertRules[i] == AlertFor(p, burn);
    assert burn in Burns(p);
    AlertEntryLabels(p, burn);
    BurnMember(p, burn);
  }

  lemma AlertIndex(intent: PrometheusIntent, entry: Json) returns (i: nat)
    requires entry in Rules(intent)
    requires entry.JObject? && "alert" in entry.fields
    ensures i < |intent.alertRules| && entry == AlertEntry(intent.alertRules[i])
  {
    var records, alerts := Map(RecordEntry, intent.recordingRules), Map(AlertEntry, intent.alertRules);
    forall k | 0 <= k < |records|
      ensures records[k] != entry
    {
      RecordEntryNoAlert(intent.recordingRules[k], entry);
    }
    i := InSecond(records, alerts, entry);
  }

  /**
   Every alert entry rendered from an unblocked pack carries the SLO reference it was built
   from, and that reference is external or names a declared SLO.
   */
  lemma RenderedAlertsResolve(lib: H.Library, m: Document, target: Target, namespace: string,
                              azure: Option<AzureRef>, res: CoreResult, entry: Json)
    requires CoreOutcome(lib, m, target, namespace, azure) == Ok(res) && !res.blocked
    requires entry in Rules(res.plan.value.prometheus)
    requires entry.JObject? && "alert" in entry.fields
    ensures exists b | b in m.pack.spec.policy.burnRateAlerts ::
              && CarriesSlo(entry, b.slo)
              && b.slo != ""
              && (R.IsExternal(b.slo) || R.Names(b.slo, "slos", R.SloIds(m.pack)))
  {
    CorePlan(lib, m, target, namespace, azure, res);
    CoreStages(lib, m, target, namespace, azure, res);
    EntryOrigin(m.pack, entry);
    var b :| b in m.pack.spec.policy.burnRateAlerts && CarriesSlo(entry, b.slo);
    R.BurnReferencesSound(m.pack, b);
  }
}

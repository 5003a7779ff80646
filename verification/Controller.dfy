/** One reconcile pass over the persisted status and the cluster (internal/operator/controller/pack_controller.go). */
module Controller {
  import opened Wrappers
  import opened Manifest
  import opened Conditions
  import opened Apply
  import opened Render
  import O = Operator
  import H = PlanHash

  datatype PackSpec = PackSpec(
    target: Target, namespace: string, azure: Option<AzureRef>, manifest: O.Document)

  /** The parts of the custom resource that no pass changes. */
  datatype Identity = Identity(namespace: string, uid: string)

  datatype Fetched = Found(spec: PackSpec, generation: int) | NotFound | FetchFailed

  /**
   The environment of one pass: what the API server returns, one clock value, the outcome of each
   apply in attempt order, the tool report in whatever order map iteration gave it, the Azure
   trigger, and whether the status write succeeds.
   */
  datatype Pass = Pass(
    fetched: Fetched,
    now: int,
    outcomes: Outcomes,
    report: seq<ToolStatus>,
    azureConfigured: bool,
    trigger: Result<RunInfo, string>,
    writeOk: bool)

  /** What the pass amounts to before the status is touched. */
  datatype Verdict =
    | Blocked
    | Failed(validated: bool, partial: Option<seq<ToolStatus>>, reason: Reason, error: PassError)
    | Applied(report: seq<ToolStatus>, hash: string)
    | Triggered(run: RunInfo, hash: string)
  {
    predicate Succeeded() {
      Applied? || Triggered?
    }
  }

  function Core(lib: H.Library, id: Identity, spec: PackSpec): Result<O.CoreResult, O.CoreError> {
    O.CoreOutcome(lib, spec.manifest, spec.target,
                  if spec.namespace == "" then id.namespace else spec.namespace, spec.azure)
  }

  /** The objects a pass sends to the cluster. */
  function SentBy(core: Result<O.CoreResult, O.CoreError>, target: Target): seq<Object> {
    if core.Ok? && !core.value.blocked && O.InCluster(target) then core.value.objects else []
  }

  function Sent(lib: H.Library, id: Identity, spec: PackSpec): seq<Object> {
    SentBy(Core(lib, id, spec), spec.target)
  }

  function ApplyVerdict(res: O.CoreResult, outcomes: Outcomes, report: seq<ToolStatus>): Verdict
    requires res.plan.Some?
  {
    var n := |FailedKinds(res.objects, outcomes)|;
    if n > 0 then Failed(true, Some(report), ReasonApplyFailed, AdaptersDegraded(n))
    else Applied(report, res.plan.value.hash)
  }

  function TriggerVerdict(res: O.CoreResult, azureConfigured: bool, trigger: Result<RunInfo, string>): Verdict
    requires res.plan.Some?
  {
    if !azureConfigured then Failed(true, None, ReasonPipelineFailed, AzureNotConfigured)
    else if res.request == None then Failed(true, None, ReasonPipelineFailed, NoAzureRequest)
    else if trigger.Err? then Failed(true, None, ReasonPipelineFailed, TriggerFailed(trigger.error))
    else Triggered(trigger.value, res.plan.value.hash)
  }

  function VerdictOf(core: Result<O.CoreResult, O.CoreError>, target: Target, pass: Pass): Verdict
    requires core.Ok? && !core.value.blocked ==> core.value.plan.Some?
  {
    if core.Err? then Failed(false, None, ReasonValidationFailed, CoreFailed(core.error))
    else if core.value.blocked then Blocked
    else if O.InCluster(target) then ApplyVerdict(core.value, pass.outcomes, pass.report)
    else if target == TARGET_AZURE then TriggerVerdict(core.value, pass.azureConfigured, pass.trigger)
    else Failed(true, None, ReasonValidationFailed, TargetUnknown(target))
  }

  lemma PlanPresent(lib: H.Library, id: Identity, spec: PackSpec)
    ensures Core(lib, id, spec).Ok? && !Core(lib, id, spec).value.blocked ==> Core(lib, id, spec).value.plan.Some?
  {
    if Core(lib, id, spec).Ok? {
      O.CorePartition(lib, spec.manifest, spec.target,
                      if spec.namespace == "" then id.namespace else spec.namespace, spec.azure,
                      Core(lib, id, spec).value);
    }
  }

  function Judge(lib: H.Library, id: Identity, spec: PackSpec, pass: Pass): Verdict {
    PlanPresent(lib, id, spec);
    VerdictOf(Core(lib, id, spec), spec.target, pass)
  }

  // ----- what a verdict does to the status -----

  /** The announcement every pass starts with. */
  function Announced(st: Status, g: int, now: int): Status {
    AsProgressing(st, ReconcilingGeneration(g), g, now).(phase := PhasePlanning)
  }

  /** `fail`, up to the status write. */
  function AsFailed(st: Status, reason: Reason, error: PassError, g: int, now: int): Status {
    AsDegraded(st.(phase := PhaseDegraded, lastError := Failure(error), observedGeneration := g),
               reason, FailedWith(error), g, now)
  }

  /** Lint passed, so the pass also records Validated. */
  predicate Validates(v: Verdict) {
    v.Succeeded() || (v.Failed? && v.validated)
  }

  /** From the status the pass has announced (and validated) to the one it writes. */
  function Conclude(s: Status, g: int, now: int, v: Verdict): Status {
    match v
    case Blocked =>
      AsBlocked(s, BlockedByLint, g, now).(phase := PhaseBlocked, lastError := BlockedReason, observedGeneration := g)
    case Failed(_, partial, reason, error) =>
      AsFailed(if partial == None then s else s.(tools := partial.value), reason, error, g, now)
    case Applied(report, hash) =>
      AsReady(s.(tools := report, phase := PhaseReady),
              AppliedObjects(TotalObjects(report), |report|), g, now)
        .(lastError := NoError, effectiveHash := hash, observedGeneration := g)
    case Triggered(run, hash) =>
      AsReady(s.(pipelineRun := Some(run), phase := PhaseApplying,
                 tools := [ToolStatus("azure-pipeline", PhaseApplying, 0, Some(run.status))]),
              PipelineTriggered(run.runId), g, now)
        .(lastError := NoError, effectiveHash := hash, observedGeneration := g)
  }

  function Settle(st: Status, g: int, now: int, v: Verdict): Status {
    var s := Announced(st, g, now);
    Conclude(if Validates(v) then AsValidated(s, g, now) else s, g, now, v)
  }

  // ----- one step of the world -----

  datatype World = World(status: Status, cluster: map<Key, Object>)

  /** The report the environment claims is one the aggregation can produce. */
  ghost predicate ValidPass(lib: H.Library, id: Identity, pass: Pass) {
    pass.fetched.Found? && Sent(lib, id, pass.fetched.spec) != [] ==>
      IsReport(Sent(lib, id, pass.fetched.spec), pass.outcomes, pass.report)
  }

  function Next(lib: H.Library, id: Identity, w: World, pass: Pass): World {
    if !pass.fetched.Found? then w
    else
      var spec, g := pass.fetched.spec, pass.fetched.generation;
      World(if pass.writeOk then Settle(w.status, g, pass.now, Judge(lib, id, spec, pass)) else w.status,
            Upserted(w.cluster, Accepted(Sent(lib, id, spec), pass.outcomes, id.uid)))
  }

  /** When the work queue looks at the pack again. */
  datatype Requeue = Never | InOneMinute | InTenMinutes | WithError

  function RequeueOf(v: Verdict, writeOk: bool): Requeue {
    if !writeOk then WithError
    else match v
      case Blocked => Never
      case Failed(_, _, _, _) => InOneMinute
      case _ => InTenMinutes
  }

  // ----- the controller -----

  /** The status subresource in the API server. */
  class StatusStore {
    var status: Status

    method Update(p: PackObject, writeOk: bool) returns (ok: bool)
      modifies this
      ensures ok == writeOk
      ensures status == if writeOk then p.View() else old(status)
    {
      if writeOk {
        status := p.View();
      }
      ok := writeOk;
    }
  }

  /** `fail`. */
  method Fail(store: StatusStore, p: PackObject, reason: Reason, error: PassError, writeOk: bool)
    returns (requeue: Requeue)
    modifies store, p
    ensures store.status == if writeOk then AsFailed(old(p.View()), reason, error, p.generation, p.now)
                            else old(store.status)
    ensures requeue == if writeOk then InOneMinute else WithError
  {
    p.phase := PhaseDegraded;
    p.lastError := Failure(error);
    p.observedGeneration := p.generation;
    p.MarkDegraded(reason, FailedWith(error));
    var ok := store.Update(p, writeOk);
    requeue := if ok then InOneMinute else WithError;
  }

  /** The blocked branch. */
  method Block(store: StatusStore, p: PackObject, writeOk: bool) returns (requeue: Requeue)
    modifies store, p
    ensures store.status == if writeOk then Conclude(old(p.View()), p.generation, p.now, Blocked)
                            else old(store.status)
    ensures requeue == RequeueOf(Blocked, writeOk)
  {
    p.MarkBlocked(BlockedByLint);
    p.phase := PhaseBlocked;
    p.lastError := BlockedReason;
    p.observedGeneration := p.generation;
    var ok := store.Update(p, writeOk);
    requeue := if ok then Never else WithError;
  }

  /** The tail every successful pass shares. */
  method Succeed(store: StatusStore, p: PackObject, hash: string, writeOk: bool) returns (requeue: Requeue)
    modifies store, p
    ensures store.status == if writeOk then old(p.View()).(lastError := NoError, effectiveHash := hash,
                                                           observedGeneration := p.generation)
                            else old(store.status)
    ensures requeue == if writeOk then InTenMinutes else WithError
  {
    p.lastError := NoError;
    p.effectiveHash := hash;
    p.observedGeneration := p.generation;
    var ok := store.Update(p, writeOk);
    requeue := if ok then InTenMinutes else WithError;
  }

  /** `triggerAzure`. */
  method TriggerAzure(res: O.CoreResult, pass: Pass) returns (r: Result<RunInfo, PassError>)
    ensures r == if !pass.azureConfigured then Err(AzureNotConfigured)
                 else if res.request == None then Err(NoAzureRequest)
                 else if pass.trigger.Err? then Err(TriggerFailed(pass.trigger.error))
                 else Ok(pass.trigger.value)
  {
    if !pass.azureConfigured {
      return Err(AzureNotConfigured);
    }
    if res.request == None {
      return Err(NoAzureRequest);
    }
    if pass.trigger.Err? {
      return Err(TriggerFailed(pass.trigger.error));
    }
    return Ok(pass.trigger.value);
  }

  /** What follows the apply loop: the report, and failure or success. */
  method ReportApplied(store: StatusStore, p: PackObject, report: seq<ToolStatus>, failed: nat,
                       hash: string, writeOk: bool, ghost s: Status)
    returns (requeue: Requeue)
    requires p.View() == s.(phase := PhaseApplying)
    modifies store, p
    ensures var v := if failed > 0 then Failed(true, Some(report), ReasonApplyFailed, AdaptersDegraded(failed))
                     else Applied(report, hash);
            && store.status == (if writeOk then Conclude(s, p.generation, p.now, v) else old(store.status))
            && requeue == RequeueOf(v, writeOk)
  {
    p.tools := report;
    if failed > 0 {
      requeue := Fail(store, p, ReasonApplyFailed, AdaptersDegraded(failed), writeOk);
      return;
    }
    p.phase := PhaseReady;
    var total := SumObjects(report);
    p.MarkReady(AppliedObjects(total, |report|));
    requeue := Succeed(store, p, hash, writeOk);
  }

  /** The in-cluster branch of the target switch. */
  method ApplyTarget(store: StatusStore, cluster: Cluster, id: Identity, p: PackObject,
                     res: O.CoreResult, pass: Pass)
    returns (report: seq<ToolStatus>, requeue: Requeue)
    requires res.plan.Some?
    modifies store, cluster, p
    ensures cluster.objects == Upserted(old(cluster.objects), Accepted(res.objects, pass.outcomes, id.uid))
    ensures cluster.requests == old(cluster.requests) + Owned(res.objects, id.uid)
    ensures IsReport(res.objects, pass.outcomes, report)
    ensures var v := ApplyVerdict(res, pass.outcomes, report);
            && store.status == (if pass.writeOk then Conclude(old(p.View()), p.generation, p.now, v)
                                else old(store.status))
            && requeue == RequeueOf(v, pass.writeOk)
  {
    p.phase := PhaseApplying;
    var failed;
    report, failed := ApplyObjects(cluster, res.objects, id.uid, pass.outcomes);
    requeue := ReportApplied(store, p, report, failed, res.plan.value.hash, pass.writeOk, old(p.View()));
  }

  /** The Azure branch of the target switch. */
  method TriggerTarget(store: StatusStore, p: PackObject, res: O.CoreResult, pass: Pass)
    returns (requeue: Requeue)
    requires res.plan.Some?
    modifies store, p
    ensures var v := TriggerVerdict(res, pass.azureConfigured, pass.trigger);
            && store.status == (if pass.writeOk then Conclude(old(p.View()), p.generation, p.now, v)
                                else old(store.status))
            && requeue == RequeueOf(v, pass.writeOk)
  {
    p.phase := PhaseApplying;
    var run := TriggerAzure(res, pass);
    if run.Err? {
      requeue := Fail(store, p, ReasonPipelineFailed, run.error, pass.writeOk);
      return;
    }
    p.pipelineRun := Some(run.value);
    p.tools := [ToolStatus("azure-pipeline", PhaseApplying, 0, Some(run.value.status))];
    p.phase := PhaseApplying;
    p.MarkReady(PipelineTriggered(run.value.runId));
    requeue := Succeed(store, p, res.plan.value.hash, pass.writeOk);
  }

  /** The rest of a pass once the core has answered, on an announced copy of the status. */
  method Dispatch(store: StatusStore, cluster: Cluster, id: Identity, p: PackObject,
                  core: Result<O.CoreResult, O.CoreError>, target: Target, pass: Pass, ghost st: Status)
    returns (ghost step: Pass, requeue: Requeue)
    requires core.Ok? && !core.value.blocked ==> core.value.plan.Some?
    requires p.View() == Announced(st, p.generation, p.now)
    modifies store, cluster, p
    ensures step == pass.(report := step.report)
    ensures SentBy(core, target) != [] ==> IsReport(SentBy(core, target), pass.outcomes, step.report)
    ensures store.status == if pass.writeOk then Settle(st, p.generation, p.now, VerdictOf(core, target, step))
                            else old(store.status)
    ensures cluster.objects == Upserted(old(cluster.objects), Accepted(SentBy(core, target), pass.outcomes, id.uid))
    ensures requeue == RequeueOf(VerdictOf(core, target, step), pass.writeOk)
  {
    step := pass;
    if core.Err? {
      requeue := Fail(store, p, ReasonValidationFailed, CoreFailed(core.error), pass.writeOk);
      return;
    }
    var res := core.value;
    if res.blocked {
      requeue := Block(store, p, pass.writeOk);
      return;
    }
    p.MarkValidated();
    step, requeue := SwitchTarget(store, cluster, id, p, core, target, pass);
  }

  /** The switch over the target, on a validated copy. */
  method SwitchTarget(store: StatusStore, cluster: Cluster, id: Identity, p: PackObject,
                      core: Result<O.CoreResult, O.CoreError>, target: Target, pass: Pass)
    returns (ghost step: Pass, requeue: Requeue)
    requires core.Ok? && !core.value.blocked && core.value.plan.Some?
    modifies store, cluster, p
    ensures step == pass.(report := step.report)
    ensures SentBy(core, target) != [] ==> IsReport(SentBy(core, target), pass.outcomes, step.report)
    ensures store.status == if pass.writeOk
                            then Conclude(old(p.View()), p.generation, p.now, VerdictOf(core, target, step))
                            else old(store.status)
    ensures cluster.objects == Upserted(old(cluster.objects), Accepted(SentBy(core, target), pass.outcomes, id.uid))
    ensures requeue == RequeueOf(VerdictOf(core, target, step), pass.writeOk)
    ensures Validates(VerdictOf(core, target, step))
  {
    step := pass;
    if target == TARGET_SKE || target == TARGET_BARE {
      var report;
      report, requeue := ApplyTarget(store, cluster, id, p, core.value, pass);
      step := pass.(report := report);
    } else if target == TARGET_AZURE {
      requeue := TriggerTarget(store, p, core.value, pass);
    } else {
      requeue := Fail(store, p, ReasonValidationFailed, TargetUnknown(target), pass.writeOk);
    }
  }

  /** `Reconcile`: a pass is one `Next` step, with the tool report the pass itself produced. */
  method Reconcile(lib: H.Library, store: StatusStore, cluster: Cluster, id: Identity, pass: Pass)
    returns (ghost step: Pass, requeue: Requeue)
    requires H.Sorts(lib)
    modifies store, cluster
    ensures step == pass.(report := step.report) && ValidPass(lib, id, step)
    ensures World(store.status, cluster.objects)
         == Next(lib, id, World(old(store.status), old(cluster.objects)), step)
    ensures requeue == match pass.fetched
                       case Found(spec, _) => RequeueOf(Judge(lib, id, spec, step), pass.writeOk)
                       case NotFound => Never
                       case FetchFailed => WithError
  {
    step := pass;
    if !pass.fetched.Found? {
      requeue := if pass.fetched.NotFound? then Never else WithError;
      return;
    }
    var spec, g := pass.fetched.spec, pass.fetched.generation;
    var p := new PackObject(store.status, g, pass.now);
    p.MarkProgressing(ReconcilingGeneration(g));
    p.phase := PhasePlanning;
    var ns := spec.namespace;
    if ns == "" {
      ns := id.namespace;
    }
    var core := O.Reconcile(lib, spec.manifest, spec.target, ns, spec.azure);
    assert core == Core(lib, id, spec);
    PlanPresent(lib, id, spec);
    step, requeue := Dispatch(store, cluster, id, p, core, spec.target, pass, store.status);
  }

  // ----- branches the core rules out -----

  lemma CoreFacts(lib: H.Library, id: Identity, spec: PackSpec)
    ensures var core := Core(lib, id, spec);
            && (core.Ok? && !core.value.blocked ==>
                  && core.value.plan.Some?
                  && (core.value.objects != [] <==> spec.target == "" || O.InCluster(spec.target))
                  && (core.value.request.Some? <==> spec.target == TARGET_AZURE)
                  && (spec.target == "" || O.InCluster(spec.target) || spec.target == TARGET_AZURE))
  {
    var core := Core(lib, id, spec);
    if core.Ok? {
      var ns := if spec.namespace == "" then id.namespace else spec.namespace;
      O.CorePartition(lib, spec.manifest, spec.target, ns, spec.azure, core.value);
    }
  }

  /**
   The nil-request branch is unreachable, and the unknown-target branch is reached only for the
   empty target, which the core itself reads as SKE.
   */
  lemma UnreachableBranches(lib: H.Library, id: Identity, spec: PackSpec, pass: Pass)
    ensures var v := Judge(lib, id, spec, pass);
            && (v.Failed? ==> v.error != NoAzureRequest)
            && (v.Failed? && v.error.TargetUnknown? ==> spec.target == "")
            && (spec.target == "" ==> !v.Succeeded())
  {
    CoreFacts(lib, id, spec);
    VerdictBranches(Core(lib, id, spec), spec.target, pass);
  }

  lemma VerdictBranches(core: Result<O.CoreResult, O.CoreError>, target: Target, pass: Pass)
    requires core.Ok? && !core.value.blocked ==> core.value.plan.Some?
    requires core.Ok? && !core.value.blocked ==> (core.value.request.Some? <==> target == TARGET_AZURE)
    requires core.Ok? && !core.value.blocked ==> target == "" || O.InCluster(target) || target == TARGET_AZURE
    ensures var v := VerdictOf(core, target, pass);
            && (v.Failed? ==> v.error != NoAzureRequest)
            && (v.Failed? && v.error.TargetUnknown? ==> target == "")
            && (target == "" ==> !v.Succeeded())
  {
  }

  /**
   Core and controller disagree about the target exactly when it is empty and the core result is
   unblocked: the core has rendered objects, and the controller degrades with an unknown target.
   */
  lemma EmptyTargetDegrades(lib: H.Library, id: Identity, spec: PackSpec, pass: Pass)
    ensures var core, v := Core(lib, id, spec), Judge(lib, id, spec, pass);
            && (v.Failed? && v.error.TargetUnknown? <==> spec.target == "" && core.Ok? && !core.value.blocked)
            && (v.Failed? && v.error.TargetUnknown? ==>
                  core.value.objects != [] && v == Failed(true, None, ReasonValidationFailed, TargetUnknown("")))
  {
    CoreFacts(lib, id, spec);
    UnknownExactly(Core(lib, id, spec), spec.target, pass);
  }

  lemma UnknownExactly(core: Result<O.CoreResult, O.CoreError>, target: Target, pass: Pass)
    requires core.Ok? && !core.value.blocked ==> core.value.plan.Some?
    ensures var v := VerdictOf(core, target, pass);
            && (v.Failed? && v.error.TargetUnknown? <==>
                  core.Ok? && !core.value.blocked && !O.InCluster(target) && target != TARGET_AZURE)
            && (v.Failed? && v.error.TargetUnknown? ==>
                  v == Failed(true, None, ReasonValidationFailed, TargetUnknown(target)))
  {
  }
}

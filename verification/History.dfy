/** What every run of the controller keeps: whole sequences of passes from an empty status. */
module History {
  import opened Wrappers
  import opened Lists
  import opened Manifest
  import opened Conditions
  import opened Apply
  import opened Render
  import opened Controller
  import O = Operator
  import P = Planner
  import R = Refs
  import H = PlanHash

  // ----- one pass, condition by condition -----

  /** The condition was written in a pass: its words, its generation, and the transition time rule. */
  predicate Sets(f: seq<Condition>, h: seq<Condition>, kind: Kind, holds: bool, reason: Reason, message: Message,
                 g: int, now: int)
  {
    Find(h, kind) == Some(Condition(kind, holds, reason, message, g, Since(Find(f, kind), holds, now)))
  }

  predicate Keeps(f: seq<Condition>, h: seq<Condition>, kind: Kind) {
    Find(h, kind) == Find(f, kind)
  }

  lemma ReadyFinds(st: Status, message: Message, g: int, now: int)
    ensures var f, h := st.conditions, AsReady(st, message, g, now).conditions;
            && Sets(f, h, Ready, true, ReasonReady, message, g, now)
            && Sets(f, h, Progressing, false, ReasonReady, message, g, now)
            && Sets(f, h, Degraded, false, ReasonReady, NoMessage, g, now)
            && Keeps(f, h, Validated)
            && (OnePerKind(f) ==> OnePerKind(h))
  {
    var c1 := SetCondition(st.conditions, Ready, true, ReasonReady, message, g, now);
    var c2 := SetCondition(c1, Progressing, false, ReasonReady, message, g, now);
    SetConditionFinds(st.conditions, Ready, true, ReasonReady, message, g, now);
    SetConditionFinds(c1, Progressing, false, ReasonReady, message, g, now);
    SetConditionFinds(c2, Degraded, false, ReasonReady, NoMessage, g, now);
  }

  lemma DegradedFinds(st: Status, reason: Reason, message: Message, g: int, now: int)
    ensures var f, h := st.conditions, AsDegraded(st, reason, message, g, now).conditions;
            && Sets(f, h, Ready, false, reason, message, g, now)
            && Sets(f, h, Degraded, true, reason, message, g, now)
            && Keeps(f, h, Validated) && Keeps(f, h, Progressing)
            && (OnePerKind(f) ==> OnePerKind(h))
  {
    var c1 := SetCondition(st.conditions, Ready, false, reason, message, g, now);
    SetConditionFinds(st.conditions, Ready, false, reason, message, g, now);
    SetConditionFinds(c1, Degraded, true, reason, message, g, now);
  }

  lemma BlockedFinds(st: Status, message: Message, g: int, now: int)
    ensures var f, h := st.conditions, AsBlocked(st, message, g, now).conditions;
            && Sets(f, h, Validated, false, ReasonValidationFailed, message, g, now)
            && Sets(f, h, Ready, false, ReasonBlocked, message, g, now)
            && Sets(f, h, Progressing, false, ReasonBlocked, message, g, now)
            && Keeps(f, h, Degraded)
            && (OnePerKind(f) ==> OnePerKind(h))
  {
    var c1 := SetCondition(st.conditions, Validated, false, ReasonValidationFailed, message, g, now);
    var c2 := SetCondition(c1, Ready, false, ReasonBlocked, message, g, now);
    SetConditionFinds(st.conditions, Validated, false, ReasonValidationFailed, message, g, now);
    SetConditionFinds(c1, Ready, false, ReasonBlocked, message, g, now);
    SetConditionFinds(c2, Progressing, false, ReasonBlocked, message, g, now);
  }

  /** The status a verdict is concluded from. */
  function Opening(st: Status, g: int, now: int, v: Verdict): Status {
    var s := Announced(st, g, now);
    if Validates(v) then AsValidated(s, g, now) else s
  }

  /** What the opening of a pass does to the conditions. */
  predicate Opens(f: seq<Condition>, h: seq<Condition>, g: int, now: int, v: Verdict) {
    && Sets(f, h, Progressing, true, ReasonReconciling, ReconcilingGeneration(g), g, now)
    && (if Validates(v) then Sets(f, h, Validated, true, ReasonValidated, NoMessage, g, now) else Keeps(f, h, Validated))
    && Keeps(f, h, Ready) && Keeps(f, h, Degraded)
    && (OnePerKind(f) ==> OnePerKind(h))
  }

  lemma OpeningFinds(st: Status, g: int, now: int, v: Verdict)
    ensures Opens(st.conditions, Opening(st, g, now, v).conditions, g, now, v)
  {
    var c := SetCondition(st.conditions, Progressing, true, ReasonReconciling, ReconcilingGeneration(g), g, now);
    SetConditionFinds(st.conditions, Progressing, true, ReasonReconciling, ReconcilingGeneration(g), g, now);
    SetConditionFinds(c, Validated, true, ReasonValidated, NoMessage, g, now);
  }

  /** A blocked pass and a failed one that applied nothing keep the earlier tool entries. */
  function ToolsAfter(st: Status, v: Verdict): seq<ToolStatus> {
    match v
    case Blocked => st.tools
    case Failed(_, partial, _, _) => if partial.Some? then partial.value else st.tools
    case Applied(report, _) => report
    case Triggered(run, _) => [ToolStatus("azure-pipeline", PhaseApplying, 0, Some(run.status))]
  }

  /**
   The effect of one pass on the persisted status. Progressing is announced first, so a pass
   that does not fail moves its transition time every time; Degraded is left alone by a blocked
   pass, and Validated by a pass whose core failed.
   */
  predicate Effect(st: Status, t: Status, g: int, now: int, v: Verdict) {
    ConditionEffect(st.conditions, t.conditions, g, now, v) && FieldEffect(st, t, g, v)
  }

  predicate ConditionEffect(f: seq<Condition>, h: seq<Condition>, g: int, now: int, v: Verdict) {
    && Sets(f, h, Ready, v.Succeeded(), ReadyReason(v), ReadyMessage(v), g, now)
    && (if v.Failed? then Sets(f, h, Progressing, true, ReasonReconciling, ReconcilingGeneration(g), g, now)
        else Find(h, Progressing) == Some(Condition(Progressing, false, ReadyReason(v), ReadyMessage(v), g, now)))
    && (if v.Blocked? then Keeps(f, h, Degraded)
        else if v.Failed? then Sets(f, h, Degraded, true, v.reason, FailedWith(v.error), g, now)
        else Sets(f, h, Degraded, false, ReasonReady, NoMessage, g, now))
    && (if v.Blocked? then Sets(f, h, Validated, false, ReasonValidationFailed, BlockedByLint, g, now)
        else if Validates(v) then Sets(f, h, Validated, true, ReasonValidated, NoMessage, g, now)
        else Keeps(f, h, Validated))
    && (OnePerKind(f) ==> OnePerKind(h))
  }

  /** What the Ready condition gives as its reason, and as its message. */
  function ReadyReason(v: Verdict): Reason {
    if v.Succeeded() then ReasonReady else if v.Blocked? then ReasonBlocked else v.reason
  }

  function ReadyMessage(v: Verdict): Message {
    match v
    case Blocked => BlockedByLint
    case Failed(_, _, _, error) => FailedWith(error)
    case Applied(report, _) => AppliedObjects(TotalObjects(report), |report|)
    case Triggered(run, _) => PipelineTriggered(run.runId)
  }

  predicate FieldEffect(st: Status, t: Status, g: int, v: Verdict) {
    && t.observedGeneration == g
    && t.phase == (match v case Blocked => PhaseBlocked case Failed(_, _, _, _) => PhaseDegraded
                           case Applied(_, _) => PhaseReady case Triggered(_, _) => PhaseApplying)
    && t.lastError == (if v.Succeeded() then NoError else if v.Blocked? then BlockedReason else Failure(v.error))
    && t.effectiveHash == (if v.Succeeded() then v.hash else st.effectiveHash)
    && t.tools == ToolsAfter(st, v)
    && t.pipelineRun == (if v.Triggered? then Some(v.run) else st.pipelineRun)
  }

  lemma SettleEffect(st: Status, g: int, now: int, v: Verdict)
    ensures Effect(st, Settle(st, g, now, v), g, now, v)
  {
    SettleConditions(st, g, now, v);
    SettleFields(st, g, now, v);
  }

  lemma SettleFields(st: Status, g: int, now: int, v: Verdict)
    ensures FieldEffect(st, Settle(st, g, now, v), g, v)
  {
  }

  /** Opening and then blocking, degrading or succeeding, on the conditions alone. */
  lemma BlockedEffect(f: seq<Condition>, m: seq<Condition>, h: seq<Condition>, g: int, now: int)
    requires Opens(f, m, g, now, Blocked)
    requires Sets(m, h, Validated, false, ReasonValidationFailed, BlockedByLint, g, now)
    requires Sets(m, h, Ready, false, ReasonBlocked, BlockedByLint, g, now)
    requires Sets(m, h, Progressing, false, ReasonBlocked, BlockedByLint, g, now)
    requires Keeps(m, h, Degraded) && (OnePerKind(m) ==> OnePerKind(h))
    ensures ConditionEffect(f, h, g, now, Blocked)
  {
  }

  lemma FailedEffect(f: seq<Condition>, m: seq<Condition>, h: seq<Condition>, g: int, now: int, v: Verdict)
    requires v.Failed? && Opens(f, m, g, now, v)
    requires Sets(m, h, Ready, false, v.reason, FailedWith(v.error), g, now)
    requires Sets(m, h, Degraded, true, v.reason, FailedWith(v.error), g, now)
    requires Keeps(m, h, Validated) && Keeps(m, h, Progressing) && (OnePerKind(m) ==> OnePerKind(h))
    ensures ConditionEffect(f, h, g, now, v)
  {
  }

  lemma SucceededEffect(f: seq<Condition>, m: seq<Condition>, h: seq<Condition>, g: int, now: int, v: Verdict)
    requires v.Succeeded() && Opens(f, m, g, now, v)
    requires Sets(m, h, Ready, true, ReasonReady, ReadyMessage(v), g, now)
    requires Sets(m, h, Progressing, false, ReasonReady, ReadyMessage(v), g, now)
    requires Sets(m, h, Degraded, false, ReasonReady, NoMessage, g, now)
    requires Keeps(m, h, Validated) && (OnePerKind(m) ==> OnePerKind(h))
    ensures ConditionEffect(f, h, g, now, v)
  {
  }

  lemma BlockedConditions(st: Status, g: int, now: int)
    ensures ConditionEffect(st.conditions, Settle(st, g, now, Blocked).conditions, g, now, Blocked)
  {
    var s := Opening(st, g, now, Blocked);
    OpeningFinds(st, g, now, Blocked);
    BlockedFinds(s, BlockedByLint, g, now);
    BlockedEffect(st.conditions, s.conditions, Settle(st, g, now, Blocked).conditions, g, now);
  }

  lemma FailedConditions(st: Status, g: int, now: int, v: Verdict)
    requires v.Failed?
    ensures ConditionEffect(st.conditions, Settle(st, g, now, v).conditions, g, now, v)
  {
    var s := Opening(st, g, now, v);
    var s2 := if v.partial == None then s else s.(tools := v.partial.value);
    OpeningFinds(st, g, now, v);
    DegradedFinds(s2.(phase := PhaseDegraded, lastError := Failure(v.error), observedGeneration := g),
                  v.reason, FailedWith(v.error), g, now);
    FailedEffect(st.conditions, s.conditions, Settle(st, g, now, v).conditions, g, now, v);
  }

  lemma AppliedConditions(st: Status, g: int, now: int, v: Verdict)
    requires v.Applied?
    ensures ConditionEffect(st.conditions, Settle(st, g, now, v).conditions, g, now, v)
  {
    var s := Opening(st, g, now, v);
    OpeningFinds(st, g, now, v);
    ReadyFinds(s.(tools := v.report, phase := PhaseReady), AppliedObjects(TotalObjects(v.report), |v.report|), g, now);
    SucceededEffect(st.conditions, s.conditions, Settle(st, g, now, v).conditions, g, now, v);
  }

  lemma TriggeredConditions(st: Status, g: int, now: int, v: Verdict)
    requires v.Triggered?
    ensures ConditionEffect(st.conditions, Settle(st, g, now, v).conditions, g, now, v)
  {
    var s := Opening(st, g, now, v);
    OpeningFinds(st, g, now, v);
    ReadyFinds(s.(pipelineRun := Some(v.run), phase := PhaseApplying,
                  tools := [ToolStatus("azure-pipeline", PhaseApplying, 0, Some(v.run.status))]),
               PipelineTriggered(v.run.runId), g, now);
    SucceededEffect(st.conditions, s.conditions, Settle(st, g, now, v).conditions, g, now, v);
  }

  lemma SettleConditions(st: Status, g: int, now: int, v: Verdict)
    ensures ConditionEffect(st.conditions, Settle(st, g, now, v).conditions, g, now, v)
  {
    match v {
      case Blocked => BlockedConditions(st, g, now);
      case Failed(_, _, _, _) => FailedConditions(st, g, now, v);
      case Applied(_, _) => AppliedConditions(st, g, now, v);
      case Triggered(_, _) => TriggeredConditions(st, g, now, v);
    }
  }

  // ----- runs -----

  function Run(lib: H.Library, id: Identity, w: World, passes: seq<Pass>): World {
    if passes == [] then w
    else Next(lib, id, Run(lib, id, w, passes[..|passes| - 1]), passes[|passes| - 1])
  }

  /** The pass reached the status write, and the write succeeded. */
  predicate Persisted(pass: Pass) {
    pass.fetched.Found? && pass.writeOk
  }

  /** Spec edits never lower the generation. */
  predicate Monotone(passes: seq<Pass>) {
    forall i, j | 0 <= i < j < |passes| && passes[i].fetched.Found? && passes[j].fetched.Found? ::
      passes[i].fetched.generation <= passes[j].fetched.generation
  }

  function PassVerdict(lib: H.Library, id: Identity, pass: Pass): Verdict
    requires pass.fetched.Found?
  {
    Judge(lib, id, pass.fetched.spec, pass)
  }

  /** What one pass leaves persisted. */
  function StatusAfter(lib: H.Library, id: Identity, st: Status, pass: Pass): Status {
    if Persisted(pass) then Settle(st, pass.fetched.generation, pass.now, PassVerdict(lib, id, pass)) else st
  }

  /** The persisted status after a run from an empty status. */
  function After(lib: H.Library, id: Identity, passes: seq<Pass>): Status {
    if passes == [] then EMPTY_STATUS
    else StatusAfter(lib, id, After(lib, id, passes[..|passes| - 1]), passes[|passes| - 1])
  }

  /** It is the status of the world the run ends in, whatever the cluster held before. */
  lemma {:induction false} AfterIsRun(lib: H.Library, id: Identity, cluster: map<Key, Object>, passes: seq<Pass>)
    ensures Run(lib, id, World(EMPTY_STATUS, cluster), passes).status == After(lib, id, passes)
  {
    if passes != [] {
      AfterIsRun(lib, id, cluster, passes[..|passes| - 1]);
    }
  }

  lemma StepEffect(lib: H.Library, id: Identity, passes: seq<Pass>)
    requires passes != [] && Persisted(passes[|passes| - 1])
    ensures var last := passes[|passes| - 1];
            Effect(After(lib, id, passes[..|passes| - 1]), After(lib, id, passes), last.fetched.generation,
                   last.now, PassVerdict(lib, id, last))
  {
    var last := passes[|passes| - 1];
    SettleEffect(After(lib, id, passes[..|passes| - 1]), last.fetched.generation, last.now,
                 PassVerdict(lib, id, last));
  }

  // ----- the run invariant -----

  predicate Is(st: Status, kind: Kind, holds: bool) {
    Find(st.conditions, kind).Some? && Find(st.conditions, kind).value.holds == holds
  }

  /** The relations between phase, conditions, error and generation in every persisted status. */
  predicate Consistent(st: Status) {
    && OnePerKind(st.conditions)
    && (Is(st, Ready, true) <==> st.phase == PhaseReady || st.phase == PhaseApplying)
    && (Is(st, Ready, true) ==>
          && Is(st, Validated, true) && Is(st, Progressing, false) && Is(st, Degraded, false)
          && st.lastError == NoError)
    && (st.phase == PhaseDegraded <==> Is(st, Progressing, true))
    && (st.phase == PhaseDegraded ==> Is(st, Ready, false) && Is(st, Degraded, true))
    && (st.phase == PhaseBlocked ==>
          Is(st, Validated, false) && Is(st, Ready, false) && Is(st, Progressing, false))
    && st.phase != PhasePlanning && st.phase != PhasePending
  }

  /** The generations recorded in a persisted status. */
  predicate Dated(st: Status) {
    && (forall c | c in st.conditions :: c.observedGeneration <= st.observedGeneration)
    && (Find(st.conditions, Ready).Some? ==>
          Find(st.conditions, Ready).value.observedGeneration == st.observedGeneration)
    && (Is(st, Ready, true) ==>
          forall c | c in st.conditions :: c.observedGeneration == st.observedGeneration)
  }

  lemma EffectConsistent(st: Status, t: Status, g: int, now: int, v: Verdict)
    requires OnePerKind(st.conditions) && Effect(st, t, g, now, v)
    ensures Consistent(t)
  {
  }

  lemma MemberFound(cs: seq<Condition>, c: Condition)
    requires OnePerKind(cs) && c in cs
    ensures Find(cs, c.kind) == Some(c)
  {
    var i :| 0 <= i < |cs| && cs[i] == c;
    PositionUnique(cs, c.kind, i);
  }

  lemma FoundMember(cs: seq<Condition>, kind: Kind)
    requires Find(cs, kind).Some?
    ensures Find(cs, kind).value in cs && Find(cs, kind).value.kind == kind
  {
  }

  lemma EffectDated(st: Status, t: Status, g: int, now: int, v: Verdict)
    requires OnePerKind(st.conditions) && forall c | c in st.conditions :: c.observedGeneration <= g
    requires Effect(st, t, g, now, v)
    ensures Dated(t)
  {
    forall c | c in t.conditions
      ensures c.observedGeneration <= g
      ensures v.Succeeded() ==> c.observedGeneration == g
    {
      MemberFound(t.conditions, c);
      if Find(t.conditions, c.kind) == Find(st.conditions, c.kind) {
        FoundMember(st.conditions, c.kind);
      }
    }
  }

  /** No pass of the run read a later generation. */
  predicate Bounded(passes: seq<Pass>, b: int) {
    forall i | 0 <= i < |passes| && passes[i].fetched.Found? :: passes[i].fetched.generation <= b
  }

  /** Generations in a run: dated statuses, never ahead of what the run has read. */
  lemma {:induction false} DatedBelow(lib: H.Library, id: Identity, passes: seq<Pass>, b: int)
    requires Monotone(passes) && Bounded(passes, b)
    ensures Dated(After(lib, id, passes))
    ensures After(lib, id, passes).conditions != [] ==> After(lib, id, passes).observedGeneration <= b
  {
    if passes != [] {
      var n := |passes| - 1;
      var earlier, last := passes[..n], passes[n];
      assert passes == earlier + [last];
      DatedBelow(lib, id, earlier, b);
      if Persisted(last) {
        var g := last.fetched.generation;
        assert Bounded(earlier, g) by {
          assert forall i | 0 <= i < n :: earlier[i] == passes[i];
        }
        DatedBelow(lib, id, earlier, g);
        RunInvariant(lib, id, earlier);
        StepEffect(lib, id, passes);
        EffectDated(After(lib, id, earlier), After(lib, id, passes), g, last.now, PassVerdict(lib, id, last));
      }
    }
  }

  /** The latest generation a run has read. */
  function Latest(passes: seq<Pass>): int {
    if passes == [] then 0
    else
      var last, earlier := passes[|passes| - 1], Latest(passes[..|passes| - 1]);
      if last.fetched.Found? && last.fetched.generation > earlier then last.fetched.generation else earlier
  }

  lemma {:induction false} LatestBounds(passes: seq<Pass>)
    ensures Bounded(passes, Latest(passes))
  {
    if passes != [] {
      var n := |passes| - 1;
      LatestBounds(passes[..n]);
      assert forall i | 0 <= i < n :: passes[..n][i] == passes[i];
    }
  }

  /** Generations in every run with non-decreasing generations. */
  lemma RunDated(lib: H.Library, id: Identity, passes: seq<Pass>)
    requires Monotone(passes)
    ensures Dated(After(lib, id, passes))
  {
    LatestBounds(passes);
    DatedBelow(lib, id, passes, Latest(passes));
  }

  /** Run invariant: every persisted status of every run is consistent. */
  lemma {:induction false} RunInvariant(lib: H.Library, id: Identity, passes: seq<Pass>)
    ensures Consistent(After(lib, id, passes))
  {
    if passes != [] {
      var n := |passes| - 1;
      RunInvariant(lib, id, passes[..n]);
      if Persisted(passes[n]) {
        StepEffect(lib, id, passes);
        EffectConsistent(After(lib, id, passes[..n]), After(lib, id, passes), passes[n].fetched.generation,
                         passes[n].now, PassVerdict(lib, id, passes[n]));
      }
    }
  }

  // ----- what every status says -----

  /** The reason that belongs to an error. */
  function ReasonFor(e: PassError): Reason {
    match e
    case CoreFailed(_) => ReasonValidationFailed
    case TargetUnknown(_) => ReasonValidationFailed
    case AdaptersDegraded(_) => ReasonApplyFailed
    case AzureNotConfigured => ReasonPipelineFailed
    case NoAzureRequest => ReasonPipelineFailed
    case TriggerFailed(_) => ReasonPipelineFailed
  }

  predicate Says(st: Status, kind: Kind, holds: bool, reason: Reason, message: Message) {
    && Find(st.conditions, kind).Some? && Find(st.conditions, kind).value.holds == holds
    && Find(st.conditions, kind).value.reason == reason && Find(st.conditions, kind).value.message == message
  }

  /** Reasons and messages agree with phase, error, tools and pipeline run. */
  predicate Worded(st: Status) {
    && (st.phase == PhaseDegraded ==>
          && st.lastError.Failure?
          && Says(st, Ready, false, ReasonFor(st.lastError.error), FailedWith(st.lastError.error))
          && Says(st, Degraded, true, ReasonFor(st.lastError.error), FailedWith(st.lastError.error))
          && Says(st, Progressing, true, ReasonReconciling, ReconcilingGeneration(st.observedGeneration)))
    && (st.phase == PhaseBlocked ==>
          && st.lastError == BlockedReason
          && Says(st, Validated, false, ReasonValidationFailed, BlockedByLint)
          && Says(st, Ready, false, ReasonBlocked, BlockedByLint)
          && Says(st, Progressing, false, ReasonBlocked, BlockedByLint))
    && (st.phase == PhaseApplying ==>
          && st.pipelineRun.Some?
          && st.tools == [ToolStatus("azure-pipeline", PhaseApplying, 0, Some(st.pipelineRun.value.status))]
          && Says(st, Ready, true, ReasonReady, PipelineTriggered(st.pipelineRun.value.runId))
          && Says(st, Progressing, false, ReasonReady, PipelineTriggered(st.pipelineRun.value.runId)))
    && (st.phase == PhaseReady ==>
          && Says(st, Ready, true, ReasonReady, AppliedObjects(TotalObjects(st.tools), |st.tools|))
          && Says(st, Progressing, false, ReasonReady, AppliedObjects(TotalObjects(st.tools), |st.tools|)))
    && (Is(st, Validated, true) ==> Says(st, Validated, true, ReasonValidated, NoMessage))
    && (Is(st, Validated, false) ==> Says(st, Validated, false, ReasonValidationFailed, BlockedByLint))
    && (Is(st, Degraded, false) ==> Says(st, Degraded, false, ReasonReady, NoMessage))
  }

  /**
   Which verdict a pass gets, from what the core answered and what the environment did: every
   error names its cause, only failed applies leave a partial report, and only a core error leaves
   the manifest unvalidated.
   */
  predicate Judged(core: Result<O.CoreResult, O.CoreError>, target: Target, pass: Pass, v: Verdict) {
    var clean := core.Ok? && !core.value.blocked;
    var sent := SentBy(core, target);
    var applies := exists i | 0 <= i < |sent| :: pass.outcomes(i).Some?;
    && (v.Blocked? <==> core.Ok? && core.value.blocked)
    && (v.Applied? <==> clean && O.InCluster(target) && !applies)
    && (v.Triggered? <==> clean && target == TARGET_AZURE && pass.azureConfigured && core.value.request.Some?
                          && pass.trigger.Ok?)
    && (v.Applied? ==> v.report == pass.report)
    && (v.Triggered? ==> pass.trigger == Ok(v.run))
    && (v.Failed? ==> (v.validated <==> core.Ok?) && (v.partial.Some? <==> applies) && CauseOf(core, target, pass, v))
  }

  predicate CauseOf(core: Result<O.CoreResult, O.CoreError>, target: Target, pass: Pass, v: Verdict)
    requires v.Failed?
  {
    match v.error
    case CoreFailed(e) => core == Err(e)
    case AdaptersDegraded(n) =>
      && v.partial == Some(pass.report) && n > 0
      && n == |set i | 0 <= i < |SentBy(core, target)| && pass.outcomes(i).Some? :: SentBy(core, target)[i].kind|
    case AzureNotConfigured => target == TARGET_AZURE && !pass.azureConfigured
    case NoAzureRequest => target == TARGET_AZURE && core.Ok? && core.value.request == None
    case TriggerFailed(text) => target == TARGET_AZURE && pass.trigger == Err(text)
    case TargetUnknown(t) => t == target && !O.InCluster(target) && target != TARGET_AZURE
  }

  lemma {:induction false} FailedKindsSet(objs: seq<Object>, outcomes: Outcomes)
    ensures FailedKinds(objs, outcomes) == set i | 0 <= i < |objs| && outcomes(i).Some? :: objs[i].kind
  {
    if objs != [] {
      var n := |objs| - 1;
      FailedKindsSet(objs[..n], outcomes);
      assert forall i | 0 <= i < n :: objs[..n][i] == objs[i];
    }
  }

  lemma VerdictExactly(core: Result<O.CoreResult, O.CoreError>, target: Target, pass: Pass)
    requires core.Ok? && !core.value.blocked ==> core.value.plan.Some?
    ensures Judged(core, target, pass, VerdictOf(core, target, pass))
  {
    SomeFailure(SentBy(core, target), pass.outcomes);
    FailedKindsSet(SentBy(core, target), pass.outcomes);
  }

  /** When the work queue looks again agrees with the status the pass leaves. */
  lemma RequeueExactly(lib: H.Library, id: Identity, w: World, pass: Pass)
    requires pass.fetched.Found?
    ensures var q, st := RequeueOf(PassVerdict(lib, id, pass), pass.writeOk), Next(lib, id, w, pass).status;
            && (q == WithError <==> !pass.writeOk)
            && (pass.writeOk ==>
                  && (q == Never <==> st.phase == PhaseBlocked)
                  && (q == InOneMinute <==> st.phase == PhaseDegraded)
                  && (q == InTenMinutes <==> st.phase == PhaseReady || st.phase == PhaseApplying))
  {
    SettleFields(w.status, pass.fetched.generation, pass.now, PassVerdict(lib, id, pass));
  }

  lemma VerdictReason(core: Result<O.CoreResult, O.CoreError>, target: Target, pass: Pass)
    requires core.Ok? && !core.value.blocked ==> core.value.plan.Some?
    ensures var v := VerdictOf(core, target, pass); v.Failed? ==> v.reason == ReasonFor(v.error)
  {
  }

  lemma PassReason(lib: H.Library, id: Identity, pass: Pass)
    requires pass.fetched.Found?
    ensures var v := PassVerdict(lib, id, pass); v.Failed? ==> v.reason == ReasonFor(v.error)
  {
    PlanPresent(lib, id, pass.fetched.spec);
    VerdictReason(Core(lib, id, pass.fetched.spec), pass.fetched.spec.target, pass);
  }

  lemma EffectWorded(st: Status, t: Status, g: int, now: int, v: Verdict)
    requires Worded(st) && Effect(st, t, g, now, v)
    requires v.Failed? ==> v.reason == ReasonFor(v.error)
    ensures Worded(t)
  {
  }

  /** In every run, every status gives the reasons and messages that belong to it. */
  lemma {:induction false} RunWords(lib: H.Library, id: Identity, passes: seq<Pass>)
    ensures Worded(After(lib, id, passes))
  {
    if passes != [] {
      var n := |passes| - 1;
      RunWords(lib, id, passes[..n]);
      if Persisted(passes[n]) {
        StepEffect(lib, id, passes);
        PassReason(lib, id, passes[n]);
        EffectWorded(After(lib, id, passes[..n]), After(lib, id, passes), passes[n].fetched.generation,
                     passes[n].now, PassVerdict(lib, id, passes[n]));
      }
    }
  }

  // ----- transition times -----

  function StatusOf(st: Status, kind: Kind): Option<bool> {
    if Find(st.conditions, kind) == None then None else Some(Find(st.conditions, kind).value.holds)
  }

  /** The clock of the latest persisted pass that changed the status of a condition. */
  function LastChange(lib: H.Library, id: Identity, passes: seq<Pass>, kind: Kind): Option<int> {
    if passes == [] then None
    else
      var n := |passes| - 1;
      if StatusOf(After(lib, id, passes), kind) != StatusOf(After(lib, id, passes[..n]), kind)
      then Some(passes[n].now)
      else LastChange(lib, id, passes[..n], kind)
  }

  /**
   Ready, Validated and Degraded carry the clock of the latest persisted pass that changed
   their status.
   */
  lemma {:induction false} TransitionTimes(lib: H.Library, id: Identity, passes: seq<Pass>, kind: Kind)
    requires kind != Progressing
    ensures var c := Find(After(lib, id, passes).conditions, kind);
            LastChange(lib, id, passes, kind) == if c == None then None else Some(c.value.since)
  {
    if passes != [] {
      var n := |passes| - 1;
      TransitionTimes(lib, id, passes[..n], kind);
      if Persisted(passes[n]) {
        StepEffect(lib, id, passes);
        EffectTimes(After(lib, id, passes[..n]), After(lib, id, passes), passes[n].fetched.generation,
                    passes[n].now, PassVerdict(lib, id, passes[n]), kind);
      }
    }
  }

  /** One pass either changes the status of a condition, at its clock, or keeps its time. */
  lemma EffectTimes(st: Status, t: Status, g: int, now: int, v: Verdict, kind: Kind)
    requires kind != Progressing && Effect(st, t, g, now, v)
    ensures StatusOf(t, kind) != StatusOf(st, kind) ==>
              Find(t.conditions, kind).Some? && Find(t.conditions, kind).value.since == now
    ensures StatusOf(t, kind) == StatusOf(st, kind) ==>
              (Find(t.conditions, kind) == None <==> Find(st.conditions, kind) == None)
              && (Find(t.conditions, kind).Some? ==>
                    Find(t.conditions, kind).value.since == Find(st.conditions, kind).value.since)
  {
    assert kind == Ready || kind == Degraded || kind == Validated;
  }

  /**
   The clock of the latest persisted pass that ended other than Degraded, or that started the
   current streak of Degraded passes.
   */
  function ProgressClock(lib: H.Library, id: Identity, passes: seq<Pass>): Option<int> {
    if passes == [] then None
    else
      var n := |passes| - 1;
      if Persisted(passes[n]) &&
         (After(lib, id, passes).phase != PhaseDegraded || After(lib, id, passes[..n]).phase != PhaseDegraded)
      then Some(passes[n].now)
      else ProgressClock(lib, id, passes[..n])
  }

  /** Progressing is set twice in a pass that does not fail, so it moves with every such pass. */
  lemma {:induction false} ProgressingTimes(lib: H.Library, id: Identity, passes: seq<Pass>)
    ensures var c := Find(After(lib, id, passes).conditions, Progressing);
            ProgressClock(lib, id, passes) == if c == None then None else Some(c.value.since)
  {
    if passes != [] {
      var n := |passes| - 1;
      var st := After(lib, id, passes[..n]);
      ProgressingTimes(lib, id, passes[..n]);
      RunInvariant(lib, id, passes[..n]);
      if Persisted(passes[n]) {
        StepEffect(lib, id, passes);
      }
    }
  }

  // ----- which pass a condition speaks of -----

  /** The verdict of the latest persisted pass that was not blocked. */
  function LastUnblocked(lib: H.Library, id: Identity, passes: seq<Pass>): Option<Verdict> {
    if passes == [] then None
    else
      var last := passes[|passes| - 1];
      if Persisted(last) && !PassVerdict(lib, id, last).Blocked? then Some(PassVerdict(lib, id, last))
      else LastUnblocked(lib, id, passes[..|passes| - 1])
  }

  /** The verdict of the latest persisted pass whose core answered, blocked or not. */
  function LastAnswered(lib: H.Library, id: Identity, passes: seq<Pass>): Option<Verdict> {
    if passes == [] then None
    else
      var last := passes[|passes| - 1];
      if Persisted(last) && (PassVerdict(lib, id, last).Blocked? || Validates(PassVerdict(lib, id, last)))
      then Some(PassVerdict(lib, id, last))
      else LastAnswered(lib, id, passes[..|passes| - 1])
  }

  /**
   In every persisted status, Blocked ones included, Degraded is true if and only if the latest
   persisted pass that was not blocked failed; it is absent while there is none.
   */
  lemma {:induction false} DegradedHistory(lib: H.Library, id: Identity, passes: seq<Pass>)
    ensures StatusOf(After(lib, id, passes), Degraded)
         == match LastUnblocked(lib, id, passes) case None => None case Some(v) => Some(v.Failed?)
  {
    if passes != [] {
      DegradedHistory(lib, id, passes[..|passes| - 1]);
      if Persisted(passes[|passes| - 1]) {
        StepEffect(lib, id, passes);
      }
    }
  }

  /** While it is true, it gives the reason and the error of that pass, in a Blocked status too. */
  lemma {:induction false} DegradedWords(lib: H.Library, id: Identity, passes: seq<Pass>)
    ensures var v := LastUnblocked(lib, id, passes);
            v.Some? && v.value.Failed? ==>
              Says(After(lib, id, passes), Degraded, true, ReasonFor(v.value.error), FailedWith(v.value.error))
  {
    if passes != [] {
      var n := |passes| - 1;
      DegradedWords(lib, id, passes[..n]);
      if Persisted(passes[n]) {
        StepEffect(lib, id, passes);
        PassReason(lib, id, passes[n]);
      }
    }
  }

  /**
   In every persisted status, Degraded ones included, Validated is true if and only if the latest
   persisted pass whose core answered was not blocked.
   */
  lemma {:induction false} ValidatedHistory(lib: H.Library, id: Identity, passes: seq<Pass>)
    ensures StatusOf(After(lib, id, passes), Validated)
         == match LastAnswered(lib, id, passes) case None => None case Some(v) => Some(!v.Blocked?)
  {
    if passes != [] {
      ValidatedHistory(lib, id, passes[..|passes| - 1]);
      if Persisted(passes[|passes| - 1]) {
        StepEffect(lib, id, passes);
      }
    }
  }

  // ----- hash and generation -----

  /** The latest persisted pass of a run. */
  function LastPersisted(passes: seq<Pass>): Option<Pass> {
    if passes == [] then None
    else if Persisted(passes[|passes| - 1]) then Some(passes[|passes| - 1])
    else LastPersisted(passes[..|passes| - 1])
  }

  /** The latest persisted pass that succeeded. */
  function LastSuccess(lib: H.Library, id: Identity, passes: seq<Pass>): Option<Pass> {
    if passes == [] then None
    else
      var last := passes[|passes| - 1];
      if Persisted(last) && PassVerdict(lib, id, last).Succeeded() then Some(last)
      else LastSuccess(lib, id, passes[..|passes| - 1])
  }

  /** The plan hash of a spec: the digest of the intents its manifest builds to. */
  function SpecHash(lib: H.Library, spec: PackSpec): string
    requires spec.manifest.Parsed?
  {
    H.Digest(lib, P.Intents(spec.manifest.pack, O.Effective(spec.target), spec.azure))
  }

  /**
   Two specs share a plan hash exactly when they plan the same content, whatever the order of
   their lists, given a checksum that never collides.
   */
  lemma SpecHashExactly(lib: H.Library, a: PackSpec, b: PackSpec)
    requires H.Conforms(lib) && forall x, y :: lib.sha(x) == lib.sha(y) ==> x == y
    requires a.manifest.Parsed? && b.manifest.Parsed?
    requires H.Unambiguous(P.Intents(a.manifest.pack, O.Effective(a.target), a.azure))
    ensures SpecHash(lib, a) == SpecHash(lib, b) <==>
              H.SameContent(P.Intents(a.manifest.pack, O.Effective(a.target), a.azure),
                            P.Intents(b.manifest.pack, O.Effective(b.target), b.azure))
  {
    H.DigestExactly(lib, P.Intents(a.manifest.pack, O.Effective(a.target), a.azure),
                    P.Intents(b.manifest.pack, O.Effective(b.target), b.azure));
  }

  lemma SuccessHash(lib: H.Library, id: Identity, pass: Pass)
    requires pass.fetched.Found? && PassVerdict(lib, id, pass).Succeeded()
    ensures pass.fetched.spec.manifest.Parsed?
    ensures PassVerdict(lib, id, pass).hash == SpecHash(lib, pass.fetched.spec)
  {
    var spec := pass.fetched.spec;
    PlanPresent(lib, id, spec);
    VerdictHash(Core(lib, id, spec), spec.target, pass);
    var ns := if spec.namespace == "" then id.namespace else spec.namespace;
    O.CorePlan(lib, spec.manifest, spec.target, ns, spec.azure, Core(lib, id, spec).value);
  }

  lemma VerdictHash(core: Result<O.CoreResult, O.CoreError>, target: Target, pass: Pass)
    requires core.Ok? && !core.value.blocked ==> core.value.plan.Some?
    requires VerdictOf(core, target, pass).Succeeded()
    ensures core.Ok? && !core.value.blocked && VerdictOf(core, target, pass).hash == core.value.plan.value.hash
  {
  }

  /**
   The effective hash is empty, or the plan hash of the spec the latest persisted successful
   pass read: blocked and failed passes preserve it.
   */
  lemma {:induction false} HashHistory(lib: H.Library, id: Identity, passes: seq<Pass>)
    ensures LastSuccess(lib, id, passes) == None ==> After(lib, id, passes).effectiveHash == ""
    ensures LastSuccess(lib, id, passes).Some? ==>
              && LastSuccess(lib, id, passes).value.fetched.Found?
              && LastSuccess(lib, id, passes).value.fetched.spec.manifest.Parsed?
              && After(lib, id, passes).effectiveHash == SpecHash(lib, LastSuccess(lib, id, passes).value.fetched.spec)
  {
    if passes != [] {
      var n := |passes| - 1;
      HashHistory(lib, id, passes[..n]);
      HashStep(lib, id, passes);
    }
  }

  /** One pass replaces the hash when it is persisted and succeeds, and keeps it otherwise. */
  lemma HashStep(lib: H.Library, id: Identity, passes: seq<Pass>)
    requires passes != []
    ensures var last, before := passes[|passes| - 1], After(lib, id, passes[..|passes| - 1]);
            if Persisted(last) && PassVerdict(lib, id, last).Succeeded() then
              && last.fetched.spec.manifest.Parsed?
              && After(lib, id, passes).effectiveHash == SpecHash(lib, last.fetched.spec)
            else After(lib, id, passes).effectiveHash == before.effectiveHash
  {
    var last := passes[|passes| - 1];
    if Persisted(last) {
      StepEffect(lib, id, passes);
      if PassVerdict(lib, id, last).Succeeded() {
        SuccessHash(lib, id, last);
      }
    }
  }

  /**
   When the persisted status says Ready, the latest persisted pass succeeded, and hash and
   generation are those of the spec that pass read.
   */
  lemma {:induction false} ReadyMeansCurrent(lib: H.Library, id: Identity, passes: seq<Pass>)
    requires Is(After(lib, id, passes), Ready, true)
    ensures var q := LastPersisted(passes);
            && q.Some? && Persisted(q.value) && PassVerdict(lib, id, q.value).Succeeded()
            && After(lib, id, passes).observedGeneration == q.value.fetched.generation
            && q.value.fetched.spec.manifest.Parsed?
            && After(lib, id, passes).effectiveHash == SpecHash(lib, q.value.fetched.spec)
  {
    if passes != [] {
      var n := |passes| - 1;
      if Persisted(passes[n]) {
        var v := PassVerdict(lib, id, passes[n]);
        StepEffect(lib, id, passes);
        SuccessHash(lib, id, passes[n]);
      } else {
        ReadyMeansCurrent(lib, id, passes[..n]);
      }
    }
  }

  // ----- convergence -----

  /** Every apply and the status write succeed. */
  ghost predicate Smooth(pass: Pass) {
    pass.writeOk && forall i: nat :: pass.outcomes(i) == None
  }

  /** An in-cluster spec whose core result is unblocked. */
  predicate Deployable(lib: H.Library, id: Identity, spec: PackSpec) {
    O.InCluster(spec.target) && Core(lib, id, spec).Ok? && !Core(lib, id, spec).value.blocked
  }

  /** Which specs those are: an in-cluster target and a named pack without a defective reference. */
  lemma DeployableExactly(lib: H.Library, id: Identity, spec: PackSpec)
    ensures Deployable(lib, id, spec) <==>
              && O.InCluster(spec.target) && spec.manifest.Parsed? && spec.manifest.pack.name != ""
              && forall s | s in R.Sites(spec.manifest.pack) :: !R.Defective(spec.manifest.pack, s)
  {
    var ns := if spec.namespace == "" then id.namespace else spec.namespace;
    O.CoreErrors(lib, spec.manifest, spec.target, ns, spec.azure);
    if spec.manifest.Parsed? {
      R.BlocksExactly(spec.manifest.pack);
    }
    if Core(lib, id, spec).Ok? {
      O.CorePartition(lib, spec.manifest, spec.target, ns, spec.azure, Core(lib, id, spec).value);
    }
  }

  function ConditionsOf(report: seq<ToolStatus>): Message {
    AppliedObjects(TotalObjects(report), |report|)
  }

  /** The four conditions after a successful in-cluster pass. */
  lemma AppliedFinds(st: Status, g: int, now: int, report: seq<ToolStatus>, hash: string)
    ensures var f, h := st.conditions, Settle(st, g, now, Applied(report, hash)).conditions;
            var m := ConditionsOf(report);
            && Find(h, Ready) == Some(Condition(Ready, true, ReasonReady, m, g, Since(Find(f, Ready), true, now)))
            && Find(h, Progressing) == Some(Condition(Progressing, false, ReasonReady, m, g, now))
            && Find(h, Degraded)
               == Some(Condition(Degraded, false, ReasonReady, NoMessage, g, Since(Find(f, Degraded), false, now)))
            && Find(h, Validated)
               == Some(Condition(Validated, true, ReasonValidated, NoMessage, g, Since(Find(f, Validated), true, now)))
            && Settle(st, g, now, Applied(report, hash))
               == Status(PhaseReady, g, hash, report, h, NoError, st.pipelineRun)
  {
    var m := ConditionsOf(report);
    var c0 := SetCondition(st.conditions, Progressing, true, ReasonReconciling, ReconcilingGeneration(g), g, now);
    var c1 := SetCondition(c0, Validated, true, ReasonValidated, NoMessage, g, now);
    var c2 := SetCondition(c1, Ready, true, ReasonReady, m, g, now);
    var c3 := SetCondition(c2, Progressing, false, ReasonReady, m, g, now);
    SetConditionFinds(st.conditions, Progressing, true, ReasonReconciling, ReconcilingGeneration(g), g, now);
    SetConditionFinds(c0, Validated, true, ReasonValidated, NoMessage, g, now);
    SetConditionFinds(c1, Ready, true, ReasonReady, m, g, now);
    SetConditionFinds(c2, Progressing, false, ReasonReady, m, g, now);
    SetConditionFinds(c3, Degraded, false, ReasonReady, NoMessage, g, now);
  }

  /** A smooth pass over a deployable spec has the verdict Applied, with the spec's hash. */
  lemma SmoothVerdict(lib: H.Library, id: Identity, pass: Pass)
    requires pass.fetched.Found? && Deployable(lib, id, pass.fetched.spec) && Smooth(pass)
    ensures pass.fetched.spec.manifest.Parsed?
    ensures PassVerdict(lib, id, pass) == Applied(pass.report, SpecHash(lib, pass.fetched.spec))
  {
    SomeFailure(Core(lib, id, pass.fetched.spec).value.objects, pass.outcomes);
    CoreFacts(lib, id, pass.fetched.spec);
    assert PassVerdict(lib, id, pass).Applied?;
    SuccessHash(lib, id, pass);
  }

  /**
   Convergence: from any status and cluster, one smooth pass over a deployable in-cluster spec
   ends Ready at that spec's generation and hash, with every rendered object upserted.
   */
  lemma Converges(lib: H.Library, id: Identity, w: World, pass: Pass)
    requires pass.fetched.Found? && Deployable(lib, id, pass.fetched.spec) && Smooth(pass)
    ensures pass.fetched.spec.manifest.Parsed?
    ensures var st := Next(lib, id, w, pass).status;
            && st.phase == PhaseReady && Is(st, Ready, true) && st.lastError == NoError
            && st.observedGeneration == pass.fetched.generation
            && st.effectiveHash == SpecHash(lib, pass.fetched.spec)
    ensures Next(lib, id, w, pass).cluster == Upserted(w.cluster, Owned(Sent(lib, id, pass.fetched.spec), id.uid))
  {
    SmoothVerdict(lib, id, pass);
    AppliedFinds(w.status, pass.fetched.generation, pass.now, pass.report, SpecHash(lib, pass.fetched.spec));
    AllAccepted(Sent(lib, id, pass.fetched.spec), pass.outcomes, id.uid);
  }

  lemma AppliedExactly(core: Result<O.CoreResult, O.CoreError>, target: Target, pass: Pass)
    requires core.Ok? && !core.value.blocked ==> core.value.plan.Some?
    ensures VerdictOf(core, target, pass).Applied? <==>
              && O.InCluster(target) && core.Ok? && !core.value.blocked
              && forall i | 0 <= i < |SentBy(core, target)| :: pass.outcomes(i) == None
  {
    if core.Ok? {
      SomeFailure(core.value.objects, pass.outcomes);
    }
  }

  /** A written pass ends in phase Ready exactly when its spec is deployable and every apply succeeded. */
  lemma EndsReadyExactly(lib: H.Library, id: Identity, w: World, pass: Pass)
    requires Persisted(pass)
    ensures Next(lib, id, w, pass).status.phase == PhaseReady <==>
              && Deployable(lib, id, pass.fetched.spec)
              && forall i | 0 <= i < |Sent(lib, id, pass.fetched.spec)| :: pass.outcomes(i) == None
  {
    var spec := pass.fetched.spec;
    PlanPresent(lib, id, spec);
    AppliedExactly(Core(lib, id, spec), spec.target, pass);
    SettleFields(w.status, pass.fetched.generation, pass.now, PassVerdict(lib, id, pass));
  }

  lemma {:induction false} AllAccepted(objs: seq<Object>, outcomes: Outcomes, owner: string)
    requires forall i | 0 <= i < |objs| :: outcomes(i) == None
    ensures Accepted(objs, outcomes, owner) == Owned(objs, owner)
  {
    if objs != [] {
      var n := |objs| - 1;
      AllAccepted(objs[..n], outcomes, owner);
      assert Owned(objs, owner) == Owned(objs[..n], owner) + [objs[n].(owner := owner)];
    }
  }

  lemma {:induction false} SameCounts(objs: seq<Object>, a: Outcomes, b: Outcomes, kind: string)
    requires forall i: nat :: a(i) == b(i)
    ensures KindReport(objs, a)(kind) == KindReport(objs, b)(kind)
    ensures AllSuccesses(objs, a) == AllSuccesses(objs, b)
  {
    if objs != [] {
      SameCounts(objs[..|objs| - 1], a, b, kind);
    }
  }

  lemma {:induction false} DistinctCount(xs: seq<string>, x: string)
    requires Distinct(xs)
    ensures multiset(xs)[x] == if x in xs then 1 else 0
  {
    if xs != [] {
      var n := |xs| - 1;
      assert xs == xs[..n] + [xs[n]];
      DistinctCount(xs[..n], x);
    }
  }

  /** Two reports of the same outcomes differ only in order. */
  lemma ReportsSame(objs: seq<Object>, a: Outcomes, b: Outcomes, s: seq<ToolStatus>, t: seq<ToolStatus>)
    requires forall i: nat :: a(i) == b(i)
    requires IsReport(objs, a, s) && IsReport(objs, b, t)
    ensures multiset(s) == multiset(t)
    ensures ConditionsOf(s) == ConditionsOf(t)
  {
    OneEntryPerKind(objs, a, s);
    OneEntryPerKind(objs, b, t);
    var ks :| ReportsKinds(objs, a, s, ks);
    var kt :| ReportsKinds(objs, b, t, kt);
    forall k
      ensures multiset(ks)[k] == multiset(kt)[k]
    {
      DistinctCount(ks, k);
      DistinctCount(kt, k);
    }
    MapContents(KindReport(objs, a), ks, kt);
    forall k
      ensures KindReport(objs, a)(k) == KindReport(objs, b)(k)
    {
      SameCounts(objs, a, b, k);
    }
    assert Map(KindReport(objs, a), kt) == Map(KindReport(objs, b), kt);
    AggregationExact(objs, a, s);
    AggregationExact(objs, b, t);
    SameCounts(objs, a, b, "");
  }

  /**
   Idempotence: repeating a smooth pass on the same spec leaves the cluster, the phase, the hash,
   the generation, the tools up to order and every condition as they were, except that the
   transition time of Progressing moves to the new clock.
   */
  lemma RepeatIsIdempotent(lib: H.Library, id: Identity, w: World, first: Pass, second: Pass)
    requires first.fetched.Found? && second.fetched == first.fetched
    requires Deployable(lib, id, first.fetched.spec) && Smooth(first) && Smooth(second)
    requires ValidPass(lib, id, first) && ValidPass(lib, id, second)
    ensures var w1 := Next(lib, id, w, first);
            var w2 := Next(lib, id, w1, second);
            w2.cluster == w1.cluster && Repeats(w1.status, w2.status, second.now)
  {
    var spec, g := first.fetched.spec, first.fetched.generation;
    var objs, hash := Sent(lib, id, spec), SpecHash(lib, spec);
    SmoothVerdict(lib, id, first);
    SmoothVerdict(lib, id, second);
    CoreFacts(lib, id, spec);
    ReportsSame(objs, first.outcomes, second.outcomes, first.report, second.report);
    RepeatedSettle(w.status, g, first.now, second.now, first.report, second.report, hash);
    AllAccepted(objs, first.outcomes, id.uid);
    AllAccepted(objs, second.outcomes, id.uid);
    UpsertIdempotent(w.cluster, Owned(objs, id.uid));
  }

  /** Settling the same success twice moves only the transition time of Progressing. */
  predicate Repeats(s1: Status, s2: Status, now: int) {
    && s2 == s1.(tools := s2.tools, conditions := s2.conditions)
    && multiset(s2.tools) == multiset(s1.tools)
    && (forall k | k != Progressing :: Find(s2.conditions, k) == Find(s1.conditions, k))
    && Find(s1.conditions, Progressing).Some?
    && Find(s2.conditions, Progressing) == Some(Find(s1.conditions, Progressing).value.(since := now))
  }

  lemma RepeatedSettle(st: Status, g: int, now: int, later: int, r1: seq<ToolStatus>, r2: seq<ToolStatus>, hash: string)
    requires multiset(r1) == multiset(r2) && ConditionsOf(r1) == ConditionsOf(r2)
    ensures var s1 := Settle(st, g, now, Applied(r1, hash));
            Repeats(s1, Settle(s1, g, later, Applied(r2, hash)), later)
  {
    var s1 := Settle(st, g, now, Applied(r1, hash));
    AppliedFinds(st, g, now, r1, hash);
    AppliedFinds(s1, g, later, r2, hash);
    forall k | k != Progressing
      ensures Find(Settle(s1, g, later, Applied(r2, hash)).conditions, k) == Find(s1.conditions, k)
    {
      assert k == Ready || k == Degraded || k == Validated;
    }
  }

  // ----- what a pass leaves behind -----

  /** A blocked pass does not touch Degraded: a degradation survives into Blocked. */
  lemma DegradedSurvivesBlock(lib: H.Library, id: Identity, w: World, pass: Pass)
    requires Persisted(pass) && PassVerdict(lib, id, pass).Blocked?
    requires Is(w.status, Degraded, true)
    ensures var st := Next(lib, id, w, pass).status;
            && st.phase == PhaseBlocked && Is(st, Degraded, true)
            && Find(st.conditions, Degraded) == Find(w.status.conditions, Degraded)
  {
    SettleEffect(w.status, pass.fetched.generation, pass.now, Blocked);
  }

  /** A pass whose core fails leaves Validated as it found it. */
  lemma ValidatedGoesStale(lib: H.Library, id: Identity, w: World, pass: Pass)
    requires Persisted(pass) && Core(lib, id, pass.fetched.spec).Err?
    ensures var st := Next(lib, id, w, pass).status;
            st.phase == PhaseDegraded && Find(st.conditions, Validated) == Find(w.status.conditions, Validated)
  {
    var v := PassVerdict(lib, id, pass);
    SettleEffect(w.status, pass.fetched.generation, pass.now, v);
  }
}

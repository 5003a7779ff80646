/** Status of a pack and its conditions (internal/operator/controller/conditions.go, api/v1alpha1/types.go:105-130). */
module Conditions {
  import opened Wrappers
  import opened Manifest
  import O = Operator

  datatype Phase =
    | PhaseUnset | PhasePending | PhasePlanning | PhaseApplying | PhaseReady | PhaseDegraded | PhaseBlocked

  datatype Kind = Validated | Progressing | Ready | Degraded

  datatype Reason =
    | ReasonReconciling | ReasonValidated | ReasonValidationFailed | ReasonApplyFailed
    | ReasonPipelineFailed | ReasonReady | ReasonBlocked

  /** What made a pass fail. */
  datatype PassError =
    | CoreFailed(core: O.CoreError) | AdaptersDegraded(n: nat) | AzureNotConfigured | NoAzureRequest
    | TriggerFailed(text: string) | TargetUnknown(target: Target)

  /** Condition messages by their content; the wording is left out. */
  datatype Message =
    | NoMessage | ReconcilingGeneration(g: int) | AppliedObjects(objects: nat, tools: nat)
    | PipelineTriggered(run: string) | BlockedByLint | FailedWith(error: PassError)

  /** `since` is the last transition time. */
  datatype Condition = Condition(
    kind: Kind, holds: bool, reason: Reason, message: Message, observedGeneration: int, since: int)

  datatype LastError = NoError | BlockedReason | Failure(error: PassError)

  datatype ToolStatus = ToolStatus(tool: string, phase: Phase, objects: nat, message: Option<string>)

  datatype RunInfo = RunInfo(runId: string, url: string, status: string)

  datatype Status = Status(
    phase: Phase, observedGeneration: int, effectiveHash: string, tools: seq<ToolStatus>,
    conditions: seq<Condition>, lastError: LastError, pipelineRun: Option<RunInfo>)

  const EMPTY_STATUS := Status(PhaseUnset, 0, "", [], [], NoError, None)

  /** The position of the first entry of a kind, or the length of the list. */
  function Position(cs: seq<Condition>, kind: Kind): (i: nat)
    ensures i <= |cs| && forall j | 0 <= j < i :: cs[j].kind != kind
    ensures i < |cs| ==> cs[i].kind == kind
  {
    if cs == [] || cs[0].kind == kind then 0 else 1 + Position(cs[1..], kind)
  }

  lemma PositionUnique(cs: seq<Condition>, kind: Kind, i: nat)
    requires i <= |cs| && forall j | 0 <= j < i :: cs[j].kind != kind
    requires i < |cs| ==> cs[i].kind == kind
    ensures Position(cs, kind) == i
  {
  }

  /** The condition of a kind. */
  function Find(cs: seq<Condition>, kind: Kind): Option<Condition> {
    var i := Position(cs, kind);
    if i < |cs| then Some(cs[i]) else None
  }

  predicate OnePerKind(cs: seq<Condition>) {
    forall i, j | 0 <= i < j < |cs| :: cs[i].kind != cs[j].kind
  }

  /** The transition time survives exactly while the status stays what it was. */
  function Since(old_: Option<Condition>, holds: bool, now: int): int {
    if old_.Some? && old_.value.holds == holds then old_.value.since else now
  }

  /** `meta.SetStatusCondition`: upsert by kind, in place. */
  function SetCondition(cs: seq<Condition>, kind: Kind, holds: bool, reason: Reason, message: Message,
                        generation: int, now: int): (r: seq<Condition>)
  {
    var i := Position(cs, kind);
    var c := Condition(kind, holds, reason, message, generation, Since(Find(cs, kind), holds, now));
    if i == |cs| then cs + [c] else cs[i := c]
  }

  /** The upsert changes what is found under its own kind, and nothing else. */
  lemma SetConditionFinds(cs: seq<Condition>, kind: Kind, holds: bool, reason: Reason, message: Message,
                          generation: int, now: int)
    ensures var r := SetCondition(cs, kind, holds, reason, message, generation, now);
            && Find(r, kind) == Some(Condition(kind, holds, reason, message, generation,
                                               Since(Find(cs, kind), holds, now)))
            && (forall k | k != kind :: Find(r, k) == Find(cs, k))
            && (OnePerKind(cs) ==> OnePerKind(r))
            && |r| == (if Find(cs, kind) == None then |cs| + 1 else |cs|)
  {
    var r := SetCondition(cs, kind, holds, reason, message, generation, now);
    var i := Position(cs, kind);
    PositionUnique(r, kind, i);
    forall k | k != kind
      ensures Find(r, k) == Find(cs, k)
    {
      var j := Position(cs, k);
      PositionUnique(r, k, if j == |cs| then |r| else j);
    }
  }

  // ----- the condition transitions, on values -----

  function AsReady(st: Status, message: Message, g: int, now: int): Status {
    var c1 := SetCondition(st.conditions, Ready, true, ReasonReady, message, g, now);
    var c2 := SetCondition(c1, Progressing, false, ReasonReady, message, g, now);
    st.(conditions := SetCondition(c2, Degraded, false, ReasonReady, NoMessage, g, now))
  }

  function AsDegraded(st: Status, reason: Reason, message: Message, g: int, now: int): Status {
    var c1 := SetCondition(st.conditions, Ready, false, reason, message, g, now);
    st.(conditions := SetCondition(c1, Degraded, true, reason, message, g, now))
  }

  function AsBlocked(st: Status, message: Message, g: int, now: int): Status {
    var c1 := SetCondition(st.conditions, Validated, false, ReasonValidationFailed, message, g, now);
    var c2 := SetCondition(c1, Ready, false, ReasonBlocked, message, g, now);
    st.(conditions := SetCondition(c2, Progressing, false, ReasonBlocked, message, g, now))
  }

  function AsProgressing(st: Status, message: Message, g: int, now: int): Status {
    st.(conditions := SetCondition(st.conditions, Progressing, true, ReasonReconciling, message, g, now))
  }

  function AsValidated(st: Status, g: int, now: int): Status {
    st.(conditions := SetCondition(st.conditions, Validated, true, ReasonValidated, NoMessage, g, now))
  }

  /** The copy of the custom resource one pass works on; `now` is the clock of the pass. */
  class PackObject {
    const generation: int
    const now: int
    var phase: Phase
    var observedGeneration: int
    var effectiveHash: string
    var tools: seq<ToolStatus>
    var conditions: seq<Condition>
    var lastError: LastError
    var pipelineRun: Option<RunInfo>

    constructor (st: Status, generation: int, now: int)
      ensures View() == st && this.generation == generation && this.now == now
    {
      this.generation, this.now := generation, now;
      phase, observedGeneration, effectiveHash := st.phase, st.observedGeneration, st.effectiveHash;
      tools, conditions := st.tools, st.conditions;
      lastError, pipelineRun := st.lastError, st.pipelineRun;
    }

    function View(): Status
      reads this
    {
      Status(phase, observedGeneration, effectiveHash, tools, conditions, lastError, pipelineRun)
    }

    /** Looks the kind up, then appends or updates in place. */
    method SetStatusCondition(kind: Kind, holds: bool, reason: Reason, message: Message)
      modifies this`conditions
      ensures conditions
           == SetCondition(old(conditions), kind, holds, reason, message, generation, now)
    {
      var i := 0;
      while i < |conditions| && conditions[i].kind != kind
        invariant 0 <= i <= |conditions|
        invariant forall j | 0 <= j < i :: conditions[j].kind != kind
      {
        i := i + 1;
      }
      PositionUnique(conditions, kind, i);
      if i == |conditions| {
        conditions := conditions + [Condition(kind, holds, reason, message, generation, now)];
        return;
      }
      var since := conditions[i].since;
      if conditions[i].holds != holds {
        since := now;
      }
      conditions := conditions[i := Condition(kind, holds, reason, message, generation, since)];
    }

    method MarkReady(message: Message)
      modifies this`conditions
      ensures View() == AsReady(old(View()), message, generation, now)
    {
      SetStatusCondition(Ready, true, ReasonReady, message);
      SetStatusCondition(Progressing, false, ReasonReady, message);
      SetStatusCondition(Degraded, false, ReasonReady, NoMessage);
    }

    method MarkDegraded(reason: Reason, message: Message)
      modifies this`conditions
      ensures View() == AsDegraded(old(View()), reason, message, generation, now)
    {
      SetStatusCondition(Ready, false, reason, message);
      SetStatusCondition(Degraded, true, reason, message);
    }

    method MarkBlocked(message: Message)
      modifies this`conditions
      ensures View() == AsBlocked(old(View()), message, generation, now)
    {
      SetStatusCondition(Validated, false, ReasonValidationFailed, message);
      SetStatusCondition(Ready, false, ReasonBlocked, message);
      SetStatusCondition(Progressing, false, ReasonBlocked, message);
    }

    method MarkProgressing(message: Message)
      modifies this`conditions
      ensures View() == AsProgressing(old(View()), message, generation, now)
    {
      SetStatusCondition(Progressing, true, ReasonReconciling, message);
    }

    method MarkValidated()
      modifies this`conditions
      ensures View() == AsValidated(old(View()), generation, now)
    {
      SetStatusCondition(Validated, true, ReasonValidated, NoMessage);
    }
  }
}

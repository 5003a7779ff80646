/**
 What the tallies of the apply loop count, attempt by attempt
 (internal/operator/controller/pack_controller.go:188-238).
 */
module ApplyLaws {
  import opened Wrappers
  import opened Lists
  import opened Conditions
  import opened Planner
  import opened Render
  import opened Apply
  import Hi = History

  /** The attempts of a kind that succeeded, by their place. */
  function Accepting(objs: seq<Object>, outcomes: Outcomes, kind: string): set<nat> {
    set i: nat | i < |objs| && objs[i].kind == kind && outcomes(i) == None
  }

  lemma {:induction false} SuccessesCount(objs: seq<Object>, outcomes: Outcomes, kind: string)
    ensures Successes(objs, outcomes, kind) == |Accepting(objs, outcomes, kind)|
  {
    if objs == [] {
      assert Accepting(objs, outcomes, kind) == {};
    } else {
      var n := |objs| - 1;
      SuccessesCount(objs[..n], outcomes, kind);
      AcceptingStep(objs, outcomes, kind);
    }
  }

  lemma AcceptingStep(objs: seq<Object>, outcomes: Outcomes, kind: string)
    requires objs != []
    ensures var n: nat := |objs| - 1;
            |Accepting(objs, outcomes, kind)| ==
              |Accepting(objs[..n], outcomes, kind)| + (if objs[n].kind == kind && outcomes(n) == None then 1 else 0)
  {
    var n: nat := |objs| - 1;
    var earlier := Accepting(objs[..n], outcomes, kind);
    assert n !in earlier;
    assert Accepting(objs, outcomes, kind)
        == if objs[n].kind == kind && outcomes(n) == None then earlier + {n} else earlier;
  }

  /** The failure a kind reports is the error of its last failed attempt. */
  lemma {:induction false} LastFailureMeans(objs: seq<Object>, outcomes: Outcomes, kind: string)
    ensures LastFailure(objs, outcomes, kind) == None <==>
              forall i | 0 <= i < |objs| && objs[i].kind == kind :: outcomes(i) == None
    ensures LastFailure(objs, outcomes, kind).Some? ==>
              exists i | 0 <= i < |objs| ::
                && objs[i].kind == kind && outcomes(i) == LastFailure(objs, outcomes, kind)
                && forall j | i < j < |objs| && objs[j].kind == kind :: outcomes(j) == None
  {
    if objs != [] {
      var n := |objs| - 1;
      LastFailureMeans(objs[..n], outcomes, kind);
      assert forall i | 0 <= i < n :: objs[..n][i] == objs[i];
    }
  }

  /** The entry of each kind: its tool, its successes, and the error of its last failed attempt. */
  lemma EntryMeans(objs: seq<Object>, outcomes: Outcomes, tools: seq<ToolStatus>, kinds: seq<string>, i: nat)
    requires ReportsKinds(objs, outcomes, tools, kinds) && i < |kinds|
    ensures |tools| == |kinds|
    ensures var t, kind := tools[i], kinds[i];
            && t.objects == |Accepting(objs, outcomes, kind)|
            && (t.message == None <==> forall k | 0 <= k < |objs| && objs[k].kind == kind :: outcomes(k) == None)
            && (t.message.Some? ==> exists k | 0 <= k < |objs| ::
                  && objs[k].kind == kind && outcomes(k) == t.message
                  && forall j | k < j < |objs| && objs[j].kind == kind :: outcomes(j) == None)
            && (t.phase == PhaseDegraded <==> t.message.Some?) && (t.phase == PhaseReady <==> t.message == None)
  {
    SuccessesCount(objs, outcomes, kinds[i]);
    LastFailureMeans(objs, outcomes, kinds[i]);
    assert tools[i] == KindReport(objs, outcomes)(kinds[i]);
  }

  /** The accepted objects are those whose attempt succeeded, with the owner set, as many as succeeded. */
  lemma {:induction false} AcceptedExactly(objs: seq<Object>, outcomes: Outcomes, owner: string, u: Object)
    ensures u in Accepted(objs, outcomes, owner) <==>
              exists i | 0 <= i < |objs| :: outcomes(i) == None && u == objs[i].(owner := owner)
    ensures |Accepted(objs, outcomes, owner)| == AllSuccesses(objs, outcomes)
  {
    if objs != [] {
      var n := |objs| - 1;
      AcceptedExactly(objs[..n], outcomes, owner, u);
      assert forall i | 0 <= i < n :: objs[..n][i] == objs[i];
    }
  }

  lemma LastWithStep(os: seq<Object>, o: Object, k: Key)
    ensures LastWith(os + [o], k) == if KeyOf(o) == k then Some(o) else LastWith(os, k)
  {
    assert (os + [o])[..|os|] == os;
  }

  /** Under each key, the last accepted attempt is the one that stays. */
  lemma {:induction false} LastAccepted(objs: seq<Object>, outcomes: Outcomes, owner: string, i: nat)
    requires i < |objs| && outcomes(i) == None
    requires forall j | i < j < |objs| && KeyOf(objs[j]) == KeyOf(objs[i]) :: outcomes(j).Some?
    ensures LastWith(Accepted(objs, outcomes, owner), KeyOf(objs[i])) == Some(objs[i].(owner := owner))
  {
    var n := |objs| - 1;
    var earlier := Accepted(objs[..n], outcomes, owner);
    if i < n {
      assert objs[..n][i] == objs[i];
      LastAccepted(objs[..n], outcomes, owner, i);
    }
    if outcomes(n) == None {
      LastWithStep(earlier, objs[n].(owner := owner), KeyOf(objs[i]));
    } else {
      assert earlier + [] == earlier;
    }
  }

  // ----- the report of a rendered plan -----

  /** How many objects of a kind there are. */
  function KindCount(objs: seq<Object>, kind: string): nat {
    if objs == [] then 0 else KindCount(objs[..|objs| - 1], kind) + (if objs[|objs| - 1].kind == kind then 1 else 0)
  }

  lemma {:induction false} KindCountConcat(a: seq<Object>, b: seq<Object>, kind: string)
    ensures KindCount(a + b, kind) == KindCount(a, kind) + KindCount(b, kind)
  {
    if b == [] {
      assert a + b == a;
    } else {
      var n := |b| - 1;
      assert (a + b)[..|a| + n] == a + b[..n];
      KindCountConcat(a, b[..n], kind);
    }
  }

  lemma {:induction false} KindCountAll(objs: seq<Object>, own: string, kind: string)
    requires forall o | o in objs :: o.kind == own
    ensures KindCount(objs, kind) == if kind == own then |objs| else 0
  {
    if objs != [] {
      KindCountAll(objs[..|objs| - 1], own, kind);
    }
  }

  lemma {:induction false} AllSucceed(objs: seq<Object>, outcomes: Outcomes, kind: string)
    requires forall i | 0 <= i < |objs| :: outcomes(i) == None
    ensures Successes(objs, outcomes, kind) == KindCount(objs, kind)
    ensures LastFailure(objs, outcomes, kind) == None
  {
    if objs != [] {
      AllSucceed(objs[..|objs| - 1], outcomes, kind);
    }
  }

  lemma RenderedKinds(pl: Plan, namespace: string, kind: string)
    ensures KindCount(Objects(pl, namespace), kind)
         == (if kind == "PrometheusRule" then 1 else 0)
            + (if kind == "GrafanaDashboard" then |pl.grafana.dashboards| else 0)
            + (if kind == "OpenTelemetryCollector" then 1 else 0)
  {
    var a, b, c := [PrometheusObject(pl, namespace)], GrafanaObjects(pl, namespace), [OTelObject(pl, namespace)];
    KindCountConcat(a + b, c, kind);
    KindCountConcat(a, b, kind);
    KindCountAll(a, "PrometheusRule", kind);
    KindCountAll(b, "GrafanaDashboard", kind);
    KindCountAll(c, "OpenTelemetryCollector", kind);
  }

  /** The kinds of a rendering: dashboards only if there are any. */
  function PlanKinds(pl: Plan): seq<string> {
    ["PrometheusRule", "OpenTelemetryCollector"] + (if pl.grafana.dashboards == [] then [] else ["GrafanaDashboard"])
  }

  lemma {:induction false} KindCounted(objs: seq<Object>, kind: string)
    ensures kind in Kinds(objs) <==> KindCount(objs, kind) > 0
  {
    if objs != [] {
      var n := |objs| - 1;
      KindCounted(objs[..n], kind);
      assert objs == objs[..n] + [objs[n]];
    }
  }

  lemma SameEnumeration(a: seq<string>, b: seq<string>, s: set<string>)
    requires Enumerates(a, s) && Enumerates(b, s)
    ensures multiset(a) == multiset(b)
  {
    forall k
      ensures multiset(a)[k] == multiset(b)[k]
    {
      Hi.DistinctCount(a, k);
      Hi.DistinctCount(b, k);
    }
  }

  lemma PlanKindsEnumerate(pl: Plan, namespace: string)
    ensures Enumerates(PlanKinds(pl), Kinds(Objects(pl, namespace)))
  {
    forall k
      ensures k in PlanKinds(pl) <==> k in Kinds(Objects(pl, namespace))
    {
      KindCounted(Objects(pl, namespace), k);
      RenderedKinds(pl, namespace, k);
    }
  }

  lemma SmoothEntry(pl: Plan, namespace: string, outcomes: Outcomes, kind: string)
    requires forall i | 0 <= i < |Objects(pl, namespace)| :: outcomes(i) == None
    ensures var count := KindCount(Objects(pl, namespace), kind);
            KindReport(Objects(pl, namespace), outcomes)(kind) == ToolStatus(ToolFromKind(kind), PhaseReady, count, None)
  {
    AllSucceed(Objects(pl, namespace), outcomes, kind);
  }

  /**
   What the status lists after a rendering was applied without failure: prometheus and otel with
   one object each, and grafana with one per dashboard if there is any.
   */
  lemma SmoothReport(pl: Plan, namespace: string, outcomes: Outcomes, tools: seq<ToolStatus>)
    requires IsReport(Objects(pl, namespace), outcomes, tools)
    requires forall i | 0 <= i < |Objects(pl, namespace)| :: outcomes(i) == None
    ensures multiset(tools)
         == multiset{ToolStatus("prometheus", PhaseReady, 1, None), ToolStatus("otel", PhaseReady, 1, None)}
            + (if pl.grafana.dashboards == [] then multiset{}
               else multiset{ToolStatus("grafana", PhaseReady, |pl.grafana.dashboards|, None)})
  {
    var os, ks := Objects(pl, namespace), PlanKinds(pl);
    OneEntryPerKind(os, outcomes, tools);
    var kinds :| ReportsKinds(os, outcomes, tools, kinds);
    PlanKindsEnumerate(pl, namespace);
    SameEnumeration(kinds, ks, Kinds(os));
    MapContents(KindReport(os, outcomes), kinds, ks);
    SmoothEntries(pl, namespace, outcomes);
  }

  lemma SmoothEntries(pl: Plan, namespace: string, outcomes: Outcomes)
    requires forall i | 0 <= i < |Objects(pl, namespace)| :: outcomes(i) == None
    ensures Map(KindReport(Objects(pl, namespace), outcomes), PlanKinds(pl))
         == [ToolStatus("prometheus", PhaseReady, 1, None), ToolStatus("otel", PhaseReady, 1, None)]
            + (if pl.grafana.dashboards == [] then []
               else [ToolStatus("grafana", PhaseReady, |pl.grafana.dashboards|, None)])
  {
    SmoothEntry(pl, namespace, outcomes, "PrometheusRule");
    SmoothEntry(pl, namespace, outcomes, "OpenTelemetryCollector");
    SmoothEntry(pl, namespace, outcomes, "GrafanaDashboard");
    RenderedKinds(pl, namespace, "PrometheusRule");
    RenderedKinds(pl, namespace, "OpenTelemetryCollector");
    RenderedKinds(pl, namespace, "GrafanaDashboard");
  }
}

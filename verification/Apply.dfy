/** Applying rendered objects and aggregating per kind (internal/operator/controller/pack_controller.go:173-238). */
module Apply {
  import opened Wrappers
  import opened Lists
  import opened Conditions
  import opened Render

  /** The outcome of each apply call, by its place in the attempt order: nothing, or an error. */
  type Outcomes = nat -> Option<string>

  function ToolFromKind(kind: string): string {
    if kind == "PrometheusRule" then "prometheus"
    else if kind == "GrafanaDashboard" then "grafana"
    else if kind == "OpenTelemetryCollector" || kind == "Instrumentation" then "otel"
    else kind
  }

  // ----- what the attempts amount to, kind by kind -----

  function Successes(objs: seq<Object>, outcomes: Outcomes, kind: string): nat {
    if objs == [] then 0
    else
      var n := |objs| - 1;
      Successes(objs[..n], outcomes, kind)
      + (if objs[n].kind == kind && outcomes(n) == None then 1 else 0)
  }

  /** The error of the last failed attempt of a kind. */
  function LastFailure(objs: seq<Object>, outcomes: Outcomes, kind: string): Option<string> {
    if objs == [] then None
    else
      var n := |objs| - 1;
      if objs[n].kind == kind && outcomes(n).Some? then outcomes(n)
      else LastFailure(objs[..n], outcomes, kind)
  }

  function AllSuccesses(objs: seq<Object>, outcomes: Outcomes): nat {
    if objs == [] then 0
    else AllSuccesses(objs[..|objs| - 1], outcomes) + (if outcomes(|objs| - 1) == None then 1 else 0)
  }

  function FailedKinds(objs: seq<Object>, outcomes: Outcomes): set<string> {
    if objs == [] then {}
    else
      var n := |objs| - 1;
      FailedKinds(objs[..n], outcomes) + (if outcomes(n).Some? then {objs[n].kind} else {})
  }

  function AppliedKinds(objs: seq<Object>, outcomes: Outcomes): set<string> {
    if objs == [] then {}
    else
      var n := |objs| - 1;
      AppliedKinds(objs[..n], outcomes) + (if outcomes(n) == None then {objs[n].kind} else {})
  }

  function Kinds(objs: seq<Object>): set<string> {
    set o | o in objs :: o.kind
  }

  /** The objects whose attempt succeeded, with the owner reference the controller sets. */
  function Accepted(objs: seq<Object>, outcomes: Outcomes, owner: string): seq<Object> {
    if objs == [] then []
    else
      var n := |objs| - 1;
      Accepted(objs[..n], outcomes, owner)
      + (if outcomes(n) == None then [objs[n].(owner := owner)] else [])
  }

  /** The objects with the owner reference the controller sets. */
  function Owned(objs: seq<Object>, owner: string): seq<Object> {
    Map((o: Object) => o.(owner := owner), objs)
  }

  function KindReport(objs: seq<Object>, outcomes: Outcomes): string -> ToolStatus {
    kind =>
      var failure := LastFailure(objs, outcomes, kind);
      ToolStatus(ToolFromKind(kind), if failure.Some? then PhaseDegraded else PhaseReady,
                 Successes(objs, outcomes, kind), failure)
  }

  ghost predicate Enumerates(kinds: seq<string>, names: set<string>) {
    Distinct(kinds) && forall k :: k in kinds <==> k in names
  }

  /**
   A report one run may produce: the kinds with a success in some order, then the kinds that only
   failed, in some order; map iteration leaves both orders open.
   */
  ghost predicate IsReport(objs: seq<Object>, outcomes: Outcomes, tools: seq<ToolStatus>) {
    exists applied, failed ::
      && Enumerates(applied, AppliedKinds(objs, outcomes))
      && Enumerates(failed, FailedKinds(objs, outcomes) - AppliedKinds(objs, outcomes))
      && tools == Map(KindReport(objs, outcomes), applied + failed)
  }

  // ----- the cluster and the loop -----

  class Cluster {
    var objects: map<Key, Object>
    ghost var requests: seq<Object>

    /** One server-side apply: an upsert, unless it fails. */
    method Apply(o: Object, outcome: Option<string>) returns (failure: Option<string>)
      modifies this
      ensures failure == outcome
      ensures objects == if outcome == None then old(objects)[KeyOf(o) := o] else old(objects)
      ensures requests == old(requests) + [o]
    {
      requests := requests + [o];
      if outcome == None {
        objects := objects[KeyOf(o) := o];
      }
      failure := outcome;
    }
  }

  /** What the two maps of the loop hold after attempting `objs`. */
  predicate Tally(objs: seq<Object>, outcomes: Outcomes, counts: map<string, nat>, errs: map<string, string>) {
    && counts.Keys == AppliedKinds(objs, outcomes)
    && errs.Keys == FailedKinds(objs, outcomes)
    && (forall k | k in counts :: counts[k] == Successes(objs, outcomes, k))
    && (forall k | k in errs :: LastFailure(objs, outcomes, k) == Some(errs[k]))
  }

  lemma TallyFailure(objs: seq<Object>, i: nat, outcomes: Outcomes, counts: map<string, nat>, errs: map<string, string>)
    requires i < |objs| && Tally(objs[..i], outcomes, counts, errs)
    requires outcomes(i).Some?
    ensures Tally(objs[..i + 1], outcomes, counts, errs[objs[i].kind := outcomes(i).value])
  {
    assert objs[..i + 1][..i] == objs[..i];
  }

  lemma TallySuccess(objs: seq<Object>, i: nat, outcomes: Outcomes, counts: map<string, nat>, errs: map<string, string>)
    requires i < |objs| && Tally(objs[..i], outcomes, counts, errs)
    requires outcomes(i) == None
    ensures var kind := objs[i].kind;
            Tally(objs[..i + 1], outcomes, counts[kind := (if kind in counts then counts[kind] else 0) + 1], errs)
  {
    assert objs[..i + 1][..i] == objs[..i];
    FailureMeaning(objs[..i], outcomes, objs[i].kind);
  }

  lemma AcceptedStep(objs: seq<Object>, i: nat, outcomes: Outcomes, owner: string, cluster: map<Key, Object>)
    requires i < |objs|
    ensures outcomes(i) == None ==>
              var u := objs[i].(owner := owner);
              Upserted(cluster, Accepted(objs[..i + 1], outcomes, owner))
              == Upserted(cluster, Accepted(objs[..i], outcomes, owner))[KeyOf(u) := u]
    ensures outcomes(i).Some? ==> Accepted(objs[..i + 1], outcomes, owner) == Accepted(objs[..i], outcomes, owner)
    ensures Owned(objs[..i + 1], owner) == Owned(objs[..i], owner) + [objs[i].(owner := owner)]
  {
    assert objs[..i + 1][..i] == objs[..i];
    if outcomes(i) == None {
      var u := objs[i].(owner := owner);
      var earlier := Accepted(objs[..i], outcomes, owner);
      assert Accepted(objs[..i + 1], outcomes, owner) == earlier + [u];
      assert (earlier + [u])[..|earlier|] == earlier;
    }
  }

  /** One turn of the apply loop. */
  method AttemptOne(cluster: Cluster, objs: seq<Object>, i: nat, owner: string, outcomes: Outcomes,
                    counts: map<string, nat>, errs: map<string, string>)
    returns (counts': map<string, nat>, errs': map<string, string>)
    requires i < |objs| && Tally(objs[..i], outcomes, counts, errs)
    modifies cluster
    ensures var u := objs[i].(owner := owner);
            && cluster.objects == (if outcomes(i) == None then old(cluster.objects)[KeyOf(u) := u]
                                   else old(cluster.objects))
            && cluster.requests == old(cluster.requests) + [u]
    ensures Tally(objs[..i + 1], outcomes, counts', errs')
  {
    counts', errs' := counts, errs;
    var u := objs[i].(owner := owner);
    var failure := cluster.Apply(u, outcomes(i));
    if failure.Some? {
      TallyFailure(objs, i, outcomes, counts, errs);
      errs' := errs[u.kind := failure.value];
      return;
    }
    TallySuccess(objs, i, outcomes, counts, errs);
    counts' := counts[u.kind := (if u.kind in counts then counts[u.kind] else 0) + 1];
  }

  /** The apply loop: every object is attempted once, in order, and failures do not stop it. */
  method Attempt(cluster: Cluster, objs: seq<Object>, owner: string, outcomes: Outcomes)
    returns (counts: map<string, nat>, errs: map<string, string>)
    modifies cluster
    ensures cluster.objects == Upserted(old(cluster.objects), Accepted(objs, outcomes, owner))
    ensures cluster.requests == old(cluster.requests) + Owned(objs, owner)
    ensures Tally(objs, outcomes, counts, errs)
  {
    counts, errs := map[], map[];
    for i := 0 to |objs|
      invariant cluster.objects == Upserted(old(cluster.objects), Accepted(objs[..i], outcomes, owner))
      invariant cluster.requests == old(cluster.requests) + Owned(objs[..i], owner)
      invariant Tally(objs[..i], outcomes, counts, errs)
    {
      AcceptedStep(objs, i, outcomes, owner, old(cluster.objects));
      counts, errs := AttemptOne(cluster, objs, i, owner, outcomes, counts, errs);
    }
    assert objs[..|objs|] == objs;
  }

  lemma ReportOf(objs: seq<Object>, outcomes: Outcomes, counts: map<string, nat>, errs: map<string, string>,
                 kind: string)
    requires Tally(objs, outcomes, counts, errs) && (kind in counts || kind in errs)
    ensures KindReport(objs, outcomes)(kind)
         == ToolStatus(ToolFromKind(kind), if kind in errs then PhaseDegraded else PhaseReady,
                       if kind in counts then counts[kind] else 0,
                       if kind in errs then Some(errs[kind]) else None)
  {
    FailureMeaning(objs, outcomes, kind);
  }

  lemma EnumerateOne(kinds: seq<string>, names: set<string>, kind: string)
    requires Enumerates(kinds, names) && kind !in names
    ensures Enumerates(kinds + [kind], names + {kind})
  {
  }

  /** First loop over a map: the kinds with a success, in any order. */
  method ReportApplied(counts: map<string, nat>, errs: map<string, string>,
                       ghost objs: seq<Object>, ghost outcomes: Outcomes)
    returns (out: seq<ToolStatus>, ghost applied: seq<string>)
    requires Tally(objs, outcomes, counts, errs)
    ensures Enumerates(applied, counts.Keys)
    ensures out == Map(KindReport(objs, outcomes), applied)
  {
    out, applied := [], [];
    var keys := counts.Keys;
    while keys != {}
      invariant keys <= counts.Keys
      invariant Enumerates(applied, counts.Keys - keys)
      invariant out == Map(KindReport(objs, outcomes), applied)
    {
      var kind :| kind in keys;
      ReportOf(objs, outcomes, counts, errs, kind);
      EnumerateOne(applied, counts.Keys - keys, kind);
      assert counts.Keys - (keys - {kind}) == (counts.Keys - keys) + {kind};
      keys := keys - {kind};
      var ts := ToolStatus(ToolFromKind(kind), PhaseReady, counts[kind], None);
      if kind in errs {
        ts := ts.(phase := PhaseDegraded, message := Some(errs[kind]));
      }
      out := out + [ts];
      applied := applied + [kind];
    }
    assert counts.Keys - keys == counts.Keys;
  }

  /** Second loop: the kinds that only failed. */
  method ReportFailed(counts: map<string, nat>, errs: map<string, string>,
                      ghost objs: seq<Object>, ghost outcomes: Outcomes)
    returns (out: seq<ToolStatus>, ghost failed: seq<string>)
    requires Tally(objs, outcomes, counts, errs)
    ensures Enumerates(failed, errs.Keys - counts.Keys)
    ensures out == Map(KindReport(objs, outcomes), failed)
  {
    out, failed := [], [];
    var keys := errs.Keys;
    while keys != {}
      invariant keys <= errs.Keys
      invariant Enumerates(failed, errs.Keys - counts.Keys - keys)
      invariant out == Map(KindReport(objs, outcomes), failed)
    {
      var kind :| kind in keys;
      ghost var done := errs.Keys - counts.Keys - keys;
      keys := keys - {kind};
      if kind in counts {
        assert errs.Keys - counts.Keys - keys == done;
        continue;
      }
      ReportOf(objs, outcomes, counts, errs, kind);
      EnumerateOne(failed, done, kind);
      assert errs.Keys - counts.Keys - keys == done + {kind};
      out := out + [ToolStatus(ToolFromKind(kind), PhaseDegraded, 0, Some(errs[kind]))];
      failed := failed + [kind];
    }
    assert errs.Keys - counts.Keys - keys == errs.Keys - counts.Keys;
  }

  /** `applyObjects`. */
  method ApplyObjects(cluster: Cluster, objs: seq<Object>, owner: string, outcomes: Outcomes)
    returns (out: seq<ToolStatus>, failed: nat)
    modifies cluster
    ensures cluster.objects == Upserted(old(cluster.objects), Accepted(objs, outcomes, owner))
    ensures cluster.requests == old(cluster.requests) + Owned(objs, owner)
    ensures IsReport(objs, outcomes, out)
    ensures failed == |FailedKinds(objs, outcomes)|
  {
    var counts, errs := Attempt(cluster, objs, owner, outcomes);
    var applied, rest;
    ghost var first, second;
    applied, first := ReportApplied(counts, errs, objs, outcomes);
    rest, second := ReportFailed(counts, errs, objs, outcomes);
    out := applied + rest;
    MapConcat(KindReport(objs, outcomes), first, second);
    failed := |errs|;
    assert |errs| == |errs.Keys|;
  }

  function TotalObjects(ts: seq<ToolStatus>): nat {
    if ts == [] then 0 else TotalObjects(ts[..|ts| - 1]) + ts[|ts| - 1].objects
  }

  /** `totalObjects`. */
  method SumObjects(ts: seq<ToolStatus>) returns (n: nat)
    ensures n == TotalObjects(ts)
  {
    n := 0;
    for i := 0 to |ts|
      invariant n == TotalObjects(ts[..i])
    {
      assert ts[..i + 1][..i] == ts[..i];
      n := n + ts[i].objects;
    }
    assert ts[..|ts|] == ts;
  }

  // ----- the aggregation is exact -----

  lemma {:induction false} FailureMeaning(objs: seq<Object>, outcomes: Outcomes, kind: string)
    ensures LastFailure(objs, outcomes, kind).Some? <==> kind in FailedKinds(objs, outcomes)
    ensures Successes(objs, outcomes, kind) > 0 <==> kind in AppliedKinds(objs, outcomes)
  {
    if objs != [] {
      var n := |objs| - 1;
      FailureMeaning(objs[..n], outcomes, kind);
    }
  }

  function SuccessesOver(objs: seq<Object>, outcomes: Outcomes, kinds: seq<string>): nat {
    if kinds == [] then 0
    else SuccessesOver(objs, outcomes, kinds[..|kinds| - 1]) + Successes(objs, outcomes, kinds[|kinds| - 1])
  }

  lemma {:induction false} TotalIsSum(objs: seq<Object>, outcomes: Outcomes, kinds: seq<string>)
    ensures TotalObjects(Map(KindReport(objs, outcomes), kinds)) == SuccessesOver(objs, outcomes, kinds)
  {
    if kinds != [] {
      var m := |kinds| - 1;
      TotalIsSum(objs, outcomes, kinds[..m]);
      assert Map(KindReport(objs, outcomes), kinds)[..m] == Map(KindReport(objs, outcomes), kinds[..m]);
    }
  }

  /** One more object adds its success to the sum over distinct kinds that include its own. */
  lemma {:induction false} SumStep(objs: seq<Object>, outcomes: Outcomes, kinds: seq<string>)
    requires objs != [] && Distinct(kinds)
    ensures SuccessesOver(objs, outcomes, kinds)
         == SuccessesOver(objs[..|objs| - 1], outcomes, kinds)
            + (if objs[|objs| - 1].kind in kinds && outcomes(|objs| - 1) == None then 1 else 0)
  {
    if kinds != [] {
      var m := |kinds| - 1;
      SumStep(objs, outcomes, kinds[..m]);
      assert kinds == kinds[..m] + [kinds[m]];
    }
  }

  lemma {:induction false} SumCovers(objs: seq<Object>, outcomes: Outcomes, kinds: seq<string>)
    requires Distinct(kinds)
    requires forall o | o in objs :: o.kind in kinds
    ensures SuccessesOver(objs, outcomes, kinds) == AllSuccesses(objs, outcomes)
  {
    if objs == [] {
      ZeroSum(outcomes, kinds);
    } else {
      SumCovers(objs[..|objs| - 1], outcomes, kinds);
      SumStep(objs, outcomes, kinds);
    }
  }

  lemma {:induction false} ZeroSum(outcomes: Outcomes, kinds: seq<string>)
    ensures SuccessesOver([], outcomes, kinds) == 0
  {
    if kinds != [] {
      ZeroSum(outcomes, kinds[..|kinds| - 1]);
    }
  }

  /** The report lists the distinct kinds of the objects once each. */
  ghost predicate ReportsKinds(objs: seq<Object>, outcomes: Outcomes, tools: seq<ToolStatus>, kinds: seq<string>) {
    Enumerates(kinds, Kinds(objs)) && tools == Map(KindReport(objs, outcomes), kinds)
  }

  lemma {:induction false} KindsSplit(objs: seq<Object>, outcomes: Outcomes)
    ensures Kinds(objs) == AppliedKinds(objs, outcomes) + FailedKinds(objs, outcomes)
  {
    if objs != [] {
      var n := |objs| - 1;
      KindsSplit(objs[..n], outcomes);
      assert objs == objs[..n] + [objs[n]];
      assert Kinds(objs) == Kinds(objs[..n]) + {objs[n].kind};
    }
  }

  lemma OneEntryPerKind(objs: seq<Object>, outcomes: Outcomes, tools: seq<ToolStatus>)
    requires IsReport(objs, outcomes, tools)
    ensures exists kinds :: ReportsKinds(objs, outcomes, tools, kinds)
  {
    var applied, failed :|
      && Enumerates(applied, AppliedKinds(objs, outcomes))
      && Enumerates(failed, FailedKinds(objs, outcomes) - AppliedKinds(objs, outcomes))
      && tools == Map(KindReport(objs, outcomes), applied + failed);
    KindsSplit(objs, outcomes);
    EnumerateBoth(applied, failed, AppliedKinds(objs, outcomes), FailedKinds(objs, outcomes));
    assert ReportsKinds(objs, outcomes, tools, applied + failed);
  }

  lemma EnumerateBoth(a: seq<string>, b: seq<string>, s: set<string>, t: set<string>)
    requires Enumerates(a, s) && Enumerates(b, t - s)
    ensures Enumerates(a + b, s + t)
  {
    var ab := a + b;
    forall i, j | 0 <= i < j < |ab|
      ensures ab[i] != ab[j]
    {
      if i < |a| <= j {
        assert a[i] in a && b[j - |a|] in b;
      }
    }
  }

  lemma EntriesMeaning(objs: seq<Object>, outcomes: Outcomes, tools: seq<ToolStatus>, kinds: seq<string>)
    requires ReportsKinds(objs, outcomes, tools, kinds)
    ensures forall i | 0 <= i < |kinds| ::
              && tools[i].tool == ToolFromKind(kinds[i])
              && tools[i].objects == Successes(objs, outcomes, kinds[i])
              && (tools[i].phase == PhaseDegraded <==> kinds[i] in FailedKinds(objs, outcomes))
  {
    forall i | 0 <= i < |kinds|
      ensures tools[i] == KindReport(objs, outcomes)(kinds[i])
      ensures tools[i].phase == PhaseDegraded <==> kinds[i] in FailedKinds(objs, outcomes)
    {
      FailureMeaning(objs, outcomes, kinds[i]);
    }
  }

  lemma {:induction false} SomeFailure(objs: seq<Object>, outcomes: Outcomes)
    ensures FailedKinds(objs, outcomes) != {} <==> exists i | 0 <= i < |objs| :: outcomes(i).Some?
  {
    if objs != [] {
      var n := |objs| - 1;
      SomeFailure(objs[..n], outcomes);
      assert FailedKinds(objs, outcomes) != {} <==> FailedKinds(objs[..n], outcomes) != {} || outcomes(n).Some?;
    }
  }

  /**
   Aggregation: whatever the outcomes and the map order, the report has one entry for each
   distinct kind, an entry is Degraded exactly when its kind had a failure, the object counts
   add up to the successful attempts, and some entry is Degraded exactly when an attempt failed.
   */
  lemma AggregationExact(objs: seq<Object>, outcomes: Outcomes, tools: seq<ToolStatus>)
    requires IsReport(objs, outcomes, tools)
    ensures exists kinds :: ReportsKinds(objs, outcomes, tools, kinds)
    ensures |tools| == |Kinds(objs)|
    ensures TotalObjects(tools) == AllSuccesses(objs, outcomes)
    ensures (exists t | t in tools :: t.phase == PhaseDegraded) <==> exists i | 0 <= i < |objs| :: outcomes(i).Some?
    ensures |FailedKinds(objs, outcomes)| > 0 <==> exists i | 0 <= i < |objs| :: outcomes(i).Some?
  {
    OneEntryPerKind(objs, outcomes, tools);
    var kinds :| ReportsKinds(objs, outcomes, tools, kinds);
    CountsAddUp(objs, outcomes, tools, kinds);
    SomeFailure(objs, outcomes);
    DegradedEntries(objs, outcomes, tools, kinds);
  }

  lemma CountsAddUp(objs: seq<Object>, outcomes: Outcomes, tools: seq<ToolStatus>, kinds: seq<string>)
    requires ReportsKinds(objs, outcomes, tools, kinds)
    ensures |tools| == |Kinds(objs)|
    ensures TotalObjects(tools) == AllSuccesses(objs, outcomes)
  {
    SumCovers(objs, outcomes, kinds);
    TotalIsSum(objs, outcomes, kinds);
    EnumerationSize(kinds, Kinds(objs));
  }

  lemma DegradedEntries(objs: seq<Object>, outcomes: Outcomes, tools: seq<ToolStatus>, kinds: seq<string>)
    requires ReportsKinds(objs, outcomes, tools, kinds)
    ensures (exists t | t in tools :: t.phase == PhaseDegraded) <==> FailedKinds(objs, outcomes) != {}
  {
    EntriesMeaning(objs, outcomes, tools, kinds);
    KindsSplit(objs, outcomes);
    if k :| k in FailedKinds(objs, outcomes) {
      var i :| 0 <= i < |kinds| && kinds[i] == k;
      assert tools[i] in tools;
    }
  }

  lemma {:induction false} EnumerationSize(kinds: seq<string>, names: set<string>)
    requires Enumerates(kinds, names)
    ensures |kinds| == |names|
  {
    if kinds == [] {
      assert names == {};
    } else {
      var n := |kinds| - 1;
      assert kinds == kinds[..n] + [kinds[n]];
      EnumerationSize(kinds[..n], names - {kinds[n]});
    }
  }
}

/**
 What each finding of the conformance pass says about the manifest, clause by clause
 (internal/lint/conformance.go:100-530).
 */
module ConformanceReport {
  import opened Wrappers
  import opened Lists
  import opened Text
  import opened Numbers
  import opened Manifest
  import opened Findings
  import opened Versions
  import opened Conformance
  import R = Refs

  /** The pass reports a failed clause. */
  ghost predicate Reports(p: Pack, tier: string, id: string) {
    Finding(Error, ConformanceClause(tier, id), "spec") in Fresh(p).findings
  }

  predicate Scored(p: Pack, tier: string) {
    || tier == "tier-3"
    || (tier == "tier-2" && (TargetOf(p) == "tier-2" || TargetOf(p) == "tier-1"))
    || (tier == "tier-1" && TargetOf(p) == "tier-1")
  }

  /** The identifiers of a list of checks, in order. */
  predicate Identified(cs: seq<Check>, ids: seq<string>) {
    |cs| == |ids| && forall k | 0 <= k < |cs| :: cs[k].id == ids[k]
  }

  lemma {:induction false} FailureExactly(cs: seq<Check>, severity: Severity, tier: string, f: Finding)
    ensures f in Failures(cs, severity, tier) <==>
              exists c | c in cs :: !c.pass && f == Finding(severity, ConformanceClause(tier, c.id), "spec")
  {
    if cs != [] {
      var n := |cs| - 1;
      FailureExactly(cs[..n], severity, tier, f);
      assert cs == cs[..n] + [cs[n]];
    }
  }

  /** The findings of one tier are those of its scored checks. */
  lemma TierFindings(p: Pack, f: Finding)
    ensures f in Fresh(p).findings <==>
              || f in Failures(Tier3Of(p).Checks(), Error, "tier-3")
              || (Scored(p, "tier-2") && f in Failures(Tier2Of(p).Checks(), Error, "tier-2"))
              || (Scored(p, "tier-1") && f in Failures(Tier1Of(p).Checks(), Error, "tier-1"))
  {
    var v := Fresh(p);
    InThree(Failures(v.tier3, SeverityFor("tier-3", v.target), "tier-3"),
            Failures(v.tier2, SeverityFor("tier-2", v.target), "tier-2"),
            Failures(v.tier1, SeverityFor("tier-1", v.target), "tier-1"), f);
  }

  lemma InThree<T>(a: seq<T>, b: seq<T>, c: seq<T>, x: T)
    ensures x in a + b + c <==> x in a || x in b || x in c
  {
  }

  predicate Failed(cs: seq<Check>, id: string) {
    exists c | c in cs :: !c.pass && c.id == id
  }

  /** A clause is reported exactly when its tier is scored and the check of that name fails. */
  lemma ReportedExactly(p: Pack, tier: string, id: string)
    ensures Reports(p, tier, id) <==>
              || (tier == "tier-3" && Failed(Tier3Of(p).Checks(), id))
              || (tier == "tier-2" && Scored(p, tier) && Failed(Tier2Of(p).Checks(), id))
              || (tier == "tier-1" && Scored(p, tier) && Failed(Tier1Of(p).Checks(), id))
  {
    var f := Finding(Error, ConformanceClause(tier, id), "spec");
    TierFindings(p, f);
    FailureExactly(Tier3Of(p).Checks(), Error, "tier-3", f);
    FailureExactly(Tier2Of(p).Checks(), Error, "tier-2", f);
    FailureExactly(Tier1Of(p).Checks(), Error, "tier-1", f);
  }

  // ----- which verdict stands under which name -----

  lemma FailedAt(cs: seq<Check>, ids: seq<string>, k: nat)
    requires Identified(cs, ids) && Distinct(ids) && k < |ids|
    ensures Failed(cs, ids[k]) <==> !cs[k].pass
  {
    assert cs[k] in cs;
  }

  const TIER3_IDS := ["3.1", "3.2", "3.2b", "3.3", "3.4", "3.5", "3.6", "3.7", "3.8", "3.9", "3.10"]

  lemma Tier3IdsDistinct()
    ensures Distinct(TIER3_IDS)
  {
  }

  lemma Tier3Identified(t: Tier3)
    ensures Identified(t.Checks(), TIER3_IDS)
  {
  }

  /** The check of each name is the verdict of that clause. */
  lemma Tier3Verdict(t: Tier3, k: nat)
    requires k < |TIER3_IDS|
    ensures Failed(t.Checks(), TIER3_IDS[k]) <==> !t.Checks()[k].pass
  {
    Tier3IdsDistinct();
    Tier3Identified(t);
    FailedAt(t.Checks(), TIER3_IDS, k);
  }

  const TIER2_IDS := ["2.1", "2.2", "2.2b", "2.3", "2.4", "2.5", "2.6", "2.7", "2.8"]

  lemma Tier2IdsDistinct()
    ensures Distinct(TIER2_IDS)
  {
  }

  lemma Tier2Identified(t: Tier2)
    ensures Identified(t.Checks(), TIER2_IDS)
  {
  }

  /** The check of each name is the verdict of that clause. */
  lemma Tier2Verdict(t: Tier2, k: nat)
    requires k < |TIER2_IDS|
    ensures Failed(t.Checks(), TIER2_IDS[k]) <==> !t.Checks()[k].pass
  {
    Tier2IdsDistinct();
    Tier2Identified(t);
    FailedAt(t.Checks(), TIER2_IDS, k);
  }

  const TIER1_IDS := ["1.1", "1.2", "1.2b", "1.2c", "1.3", "1.4", "1.5", "1.6", "1.7", "1.8", "1.9", "1.10"]

  lemma Tier1IdsDistinct()
    ensures Distinct(TIER1_IDS)
  {
  }

  lemma Tier1Identified(t: Tier1)
    ensures Identified(t.Checks(), TIER1_IDS)
  {
  }

  /** The check of each name is the verdict of that clause. */
  lemma Tier1Verdict(t: Tier1, k: nat)
    requires k < |TIER1_IDS|
    ensures Failed(t.Checks(), TIER1_IDS[k]) <==> !t.Checks()[k].pass
  {
    Tier1IdsDistinct();
    Tier1Identified(t);
    FailedAt(t.Checks(), TIER1_IDS, k);
  }

  /** Reported under a name of tier 3, 2 or 1: the verdict at that place fails. */
  lemma Tier3At(p: Pack, k: nat)
    requires k < |TIER3_IDS|
    ensures Reports(p, "tier-3", TIER3_IDS[k]) <==> !Tier3Of(p).Checks()[k].pass
  {
    ReportedExactly(p, "tier-3", TIER3_IDS[k]);
    Tier3Verdict(Tier3Of(p), k);
  }

  lemma Tier2At(p: Pack, k: nat)
    requires k < |TIER2_IDS| && Scored(p, "tier-2")
    ensures Reports(p, "tier-2", TIER2_IDS[k]) <==> !Tier2Of(p).Checks()[k].pass
  {
    ReportedExactly(p, "tier-2", TIER2_IDS[k]);
    Tier2Verdict(Tier2Of(p), k);
  }

  lemma Tier1At(p: Pack, k: nat)
    requires k < |TIER1_IDS| && Scored(p, "tier-1")
    ensures Reports(p, "tier-1", TIER1_IDS[k]) <==> !Tier1Of(p).Checks()[k].pass
  {
    ReportedExactly(p, "tier-1", TIER1_IDS[k]);
    Tier1Verdict(Tier1Of(p), k);
  }

  /** The names under which the pass reports failed clauses of a tier. */
  ghost function Reported(p: Pack, tier: string): iset<string> {
    iset id | Reports(p, tier, id)
  }

  /** The names of tier 3, read off its list of checks. */
  predicate Tier3Failing(t: Tier3, failing: iset<string>) {
    && ("3.1" in failing <==> !t.objectives)
    && ("3.2" in failing <==> !t.receiver)
    && ("3.2b" in failing <==> !t.serviceName)
    && "3.3" !in failing
    && ("3.4" in failing <==> !t.recorded)
    && ("3.5" in failing <==> !t.overview)
    && ("3.6" in failing <==> !t.alerts)
    && ("3.7" in failing <==> !t.chat)
    && "3.8" !in failing
    && ("3.9" in failing <==> !t.baselines)
    && ("3.10" in failing <==> !t.probe)
  }

  lemma Tier3Named(t: Tier3, failing: iset<string>)
    requires forall k | 0 <= k < |TIER3_IDS| :: TIER3_IDS[k] in failing <==> !t.Checks()[k].pass
    ensures Tier3Failing(t, failing)
  {
    assert TIER3_IDS[0] == "3.1";
    assert TIER3_IDS[1] == "3.2";
    assert TIER3_IDS[2] == "3.2b";
    assert TIER3_IDS[3] == "3.3";
    assert TIER3_IDS[4] == "3.4";
    assert TIER3_IDS[5] == "3.5";
    assert TIER3_IDS[6] == "3.6";
    assert TIER3_IDS[7] == "3.7";
    assert TIER3_IDS[8] == "3.8";
    assert TIER3_IDS[9] == "3.9";
    assert TIER3_IDS[10] == "3.10";
  }

  /** Which verdicts the findings of the pass report. */
  lemma Tier3Findings(p: Pack)
    ensures Tier3Failing(Tier3Of(p), Reported(p, "tier-3"))
  {
    forall k | 0 <= k < |TIER3_IDS|
      ensures TIER3_IDS[k] in Reported(p, "tier-3") <==> !Tier3Of(p).Checks()[k].pass
    {
      Tier3At(p, k);
    }
    Tier3Named(Tier3Of(p), Reported(p, "tier-3"));
  }

  /** The names of tier 2, read off its list of checks. */
  predicate Tier2Failing(t: Tier2, failing: iset<string>) {
    && ("2.1" in failing <==> !t.latency)
    && ("2.2" in failing <==> !t.metrics)
    && ("2.2b" in failing <==> !t.semconv)
    && ("2.3" in failing <==> !t.derived)
    && ("2.4" in failing <==> !t.burnBoard)
    && ("2.5" in failing <==> !t.windows)
    && ("2.6" in failing <==> !t.voice)
    && ("2.7" in failing <==> !t.gate)
    && ("2.8" in failing <==> !t.chaos)
  }

  lemma Tier2Named(t: Tier2, failing: iset<string>)
    requires forall k | 0 <= k < |TIER2_IDS| :: TIER2_IDS[k] in failing <==> !t.Checks()[k].pass
    ensures Tier2Failing(t, failing)
  {
    assert TIER2_IDS[0] == "2.1";
    assert TIER2_IDS[1] == "2.2";
    assert TIER2_IDS[2] == "2.2b";
    assert TIER2_IDS[3] == "2.3";
    assert TIER2_IDS[4] == "2.4";
    assert TIER2_IDS[5] == "2.5";
    assert TIER2_IDS[6] == "2.6";
    assert TIER2_IDS[7] == "2.7";
    assert TIER2_IDS[8] == "2.8";
  }

  lemma Tier2Findings(p: Pack)
    requires Scored(p, "tier-2")
    ensures Tier2Failing(Tier2Of(p), Reported(p, "tier-2"))
  {
    forall k | 0 <= k < |TIER2_IDS|
      ensures TIER2_IDS[k] in Reported(p, "tier-2") <==> !Tier2Of(p).Checks()[k].pass
    {
      Tier2At(p, k);
    }
    Tier2Named(Tier2Of(p), Reported(p, "tier-2"));
  }

  /** The names of tier 1, read off its list of checks. */
  predicate Tier1Failing(t: Tier1, failing: iset<string>) {
    && ("1.1" in failing <==> !t.kinds)
    && ("1.2" in failing <==> !t.exporters)
    && ("1.2b" in failing <==> !t.semconv)
    && ("1.2c" in failing <==> !t.instrumented)
    && ("1.3" in failing <==> !t.rollup)
    && ("1.4" in failing <==> !t.boards)
    && ("1.5" in failing <==> !t.forecast)
    && ("1.6" in failing <==> !t.channels)
    && ("1.7" in failing <==> !t.guarded)
    && ("1.8" in failing <==> !t.gate)
    && ("1.9" in failing <==> !t.chaos)
    && ("1.10" in failing <==> !t.fastProbe)
  }

  lemma Tier1Named(t: Tier1, failing: iset<string>)
    requires forall k | 0 <= k < |TIER1_IDS| :: TIER1_IDS[k] in failing <==> !t.Checks()[k].pass
    ensures Tier1Failing(t, failing)
  {
    assert TIER1_IDS[0] == "1.1";
    assert TIER1_IDS[1] == "1.2";
    assert TIER1_IDS[2] == "1.2b";
    assert TIER1_IDS[3] == "1.2c";
    assert TIER1_IDS[4] == "1.3";
    assert TIER1_IDS[5] == "1.4";
    assert TIER1_IDS[6] == "1.5";
    assert TIER1_IDS[7] == "1.6";
    assert TIER1_IDS[8] == "1.7";
    assert TIER1_IDS[9] == "1.8";
    assert TIER1_IDS[10] == "1.9";
    assert TIER1_IDS[11] == "1.10";
  }

  lemma Tier1Findings(p: Pack)
    requires Scored(p, "tier-1")
    ensures Tier1Failing(Tier1Of(p), Reported(p, "tier-1"))
  {
    forall k | 0 <= k < |TIER1_IDS|
      ensures TIER1_IDS[k] in Reported(p, "tier-1") <==> !Tier1Of(p).Checks()[k].pass
    {
      Tier1At(p, k);
    }
    Tier1Named(Tier1Of(p), Reported(p, "tier-1"));
  }

  // ----- what each verdict says of the manifest -----

  predicate Named(m: Fields, key: string, s: string) {
    key in m && m[key] == JString(s)
  }

  /** The first dashboard of an id. */
  predicate FirstOf(ds: seq<Dashboard>, id: string, k: nat) {
    k < |ds| && ds[k].id == id && forall j | 0 <= j < k :: ds[j].id != id
  }

  lemma {:induction false} FirstFound(ds: seq<Dashboard>, id: string, k: nat)
    requires FirstOf(ds, id, k)
    ensures FindDashboard(ds, id) == Some(ds[k])
  {
    if k > 0 {
      assert ds[0].id != id;
      FirstFound(ds[1..], id, k - 1);
    }
  }

  lemma {:induction false} FoundFirst(ds: seq<Dashboard>, id: string) returns (k: nat)
    requires FindDashboard(ds, id).Some?
    ensures FirstOf(ds, id, k)
  {
    if ds[0].id == id {
      k := 0;
    } else {
      var j := FoundFirst(ds[1..], id);
      k := j + 1;
      assert forall i | 0 < i < k :: ds[i] == ds[1..][i - 1];
    }
  }

  /** Some service-overview comes first and binds every SLI. */
  predicate OverviewBinds(p: Pack) {
    exists k | 0 <= k < |p.spec.dashboards| ::
      && FirstOf(p.spec.dashboards, "service-overview", k)
      && forall s | s in p.spec.slis ::
           exists ref | ref in p.spec.dashboards[k].panelBindings :: R.StripRef(ref) == s.id
  }

  lemma OverviewExactly(p: Pack)
    ensures OverviewBindsAll(p) <==> OverviewBinds(p)
  {
    var ds := p.spec.dashboards;
    if OverviewBindsAll(p) {
      var k := FoundFirst(ds, "service-overview");
      FirstFound(ds, "service-overview", k);
      assert forall s | s in p.spec.slis :: Binds(ds[k], s);
    }
    if k :| 0 <= k < |ds| && FirstOf(ds, "service-overview", k)
            && forall s | s in p.spec.slis :: exists ref | ref in ds[k].panelBindings :: R.StripRef(ref) == s.id
    {
      FirstFound(ds, "service-overview", k);
    }
  }

  /** The verdicts of tier 3 on the manifest. */
  lemma Tier3Means(p: Pack)
    ensures var t := Tier3Of(p);
            && (t.objectives <==> p.spec.slis != [] && p.spec.slos != [])
            && (t.serviceName <==> "service.name" in p.spec.otel.required)
            && (t.overview <==> OverviewBinds(p))
            && (t.alerts <==> |p.spec.policy.burnRateAlerts| >= |p.spec.slos|)
            && (t.baselines <==> p.spec.baselines.mttdP50 != "" && p.spec.baselines.mttrP50 != "")
            && (t.probe <==> p.spec.syntheticChecks != [])
  {
    OverviewExactly(p);
  }

  lemma Tier3MeansLists(p: Pack)
    ensures var t := Tier3Of(p);
            && (t.receiver <==> exists rx | rx in p.spec.pipelines.receivers ::
                                  Named(rx, "name", "otlp") || Named(rx, "name", "prometheus"))
            && (t.recorded <==> forall slo | slo in p.spec.slos ::
                                  exists rr | rr in p.spec.recordingRules ::
                                    Contains(rr.name, slo.id) || Contains(rr.expr, slo.id))
            && (t.chat <==> exists route, ch | route in p.spec.routes && ch in route.channels ::
                              (route.severity == "SEV1" || route.severity == "SEV2" || route.severity == "SEV3")
                              && "msteams" in ch)
  {
    forall rx
      ensures DefaultReceiver(rx) <==> Named(rx, "name", "otlp") || Named(rx, "name", "prometheus")
    {
    }
  }

  predicate ExportsTo(e: Option<Fields>, kind: string) {
    e.Some? && Named(e.value, "kind", kind)
  }

  /** The verdicts of tier 2. */
  lemma Tier2Means(p: Pack)
    ensures var t := Tier2Of(p);
            && (t.latency <==> exists s | s in p.spec.slis :: s.kind == "threshold" || s.kind == "distribution")
            && (t.metrics <==> ExportsTo(p.spec.pipelines.exporters.metrics, "prometheusremotewrite"))
            && (t.semconv <==> SemverAtLeast(p.spec.otel.semconv, "1.26.0") && p.spec.otel.languages != [])
            && (t.derived <==> p.spec.derivedViews != [])
            && (t.burnBoard <==> exists d | d in p.spec.dashboards :: d.id == "slo-burn")
            && (t.gate <==> p.spec.baselines.regressionGate != "")
  {
  }

  lemma Tier2MeansLists(p: Pack)
    ensures var t := Tier2Of(p);
            && (t.windows <==>
                  && p.spec.policy.burnRateAlerts != []
                  && forall b | b in p.spec.policy.burnRateAlerts ::
                       exists v, w | v in b.windows && w in b.windows :: v.factor != w.factor)
            && (t.voice <==> exists route, ch | route in p.spec.routes && ch in route.channels ::
                               route.severity == "SEV1" && "voice" in ch)
            && (t.chaos <==> exists exp | exp in p.spec.chaosExperiments ::
                  && (Named(exp, "schedule", "monthly") || Named(exp, "schedule", "weekly")
                      || Named(exp, "schedule", "daily"))
                  && "steady_state_hypothesis" in exp)
  {
    forall exp
      ensures MonthlyChaos(exp) <==>
                && (Named(exp, "schedule", "monthly") || Named(exp, "schedule", "weekly")
                    || Named(exp, "schedule", "daily"))
                && "steady_state_hypothesis" in exp
    {
    }
  }

  /** The verdicts of tier 1. */
  lemma Tier1Means(p: Pack)
    ensures var t := Tier1Of(p);
            && (t.kinds <==> |set s | s in p.spec.slis :: s.kind| >= 3)
            && (t.semconv <==>
                  p.spec.otel.semconv == "1.27.0" && p.spec.otel.logCorrelation && |p.spec.otel.required| >= 5)
            && (t.instrumented <==> exists s | s in p.spec.syntheticChecks :: s.otelInstrumentation)
            && (t.forecast <==> p.spec.policy.forecasts != [])
            && (t.guarded <==>
                  p.spec.remediation != [] && forall rm | rm in p.spec.remediation :: rm.maxInvocationsPerHour >= 1)
            && (t.gate <==>
                  && HasPrefix(p.spec.baselines.regressionGate, "block_release_if_")
                  && p.spec.baselines.mttdP95 != "" && p.spec.baselines.mttrP95 != "")
  {
  }

  predicate Mentions(v: DerivedView, text: string) {
    Contains(v.bind, text) || Contains(v.id, text)
  }

  lemma Tier1MeansViews(p: Pack)
    ensures var t := Tier1Of(p);
            && (t.rollup <==> exists v | v in p.spec.derivedViews ::
                               Mentions(v, "per-tenant") || Mentions(v, "per-region"))
            && (t.boards <==> && (exists d | d in p.spec.dashboards :: d.id == "deployment")
                              && (exists d | d in p.spec.dashboards :: d.id == "customer-impact"))
            && (t.chaos <==> exists exp | exp in p.spec.chaosExperiments ::
                               Named(exp, "schedule", "weekly") && Named(exp, "environment", "prod"))
            && (t.fastProbe <==> exists s | s in p.spec.syntheticChecks :: ShortInterval(s.interval))
  {
    forall v
      ensures Rollup(v) <==> Mentions(v, "per-tenant") || Mentions(v, "per-region")
    {
    }
  }

  lemma KindNamed(e: Option<Fields>)
    ensures KindOf(e) == "elasticsearch" <==> ExportsTo(e, "elasticsearch")
  {
  }

  lemma Tier1MeansExporters(p: Pack)
    ensures Tier1Of(p).exporters <==>
              && ExportsTo(p.spec.pipelines.exporters.logs, "elasticsearch")
              && ExportsTo(p.spec.pipelines.exporters.traces, "elasticsearch")
              && exists pr | pr in p.spec.pipelines.processors :: Named(pr, "name", "tail_sampling")
  {
    KindNamed(p.spec.pipelines.exporters.logs);
    KindNamed(p.spec.pipelines.exporters.traces);
    forall pr
      ensures TailSampling(pr) <==> Named(pr, "name", "tail_sampling")
    {
    }
  }

  /** Some block of channels of the route has the channel. */
  predicate Routes(route: Route, channel: string) {
    exists ch | ch in route.channels :: channel in ch
  }

  /** Chat and voice, and one more way out. */
  predicate OutOfBand(route: Route) {
    && route.severity == "SEV1" && Routes(route, "msteams") && Routes(route, "voice")
    && (Routes(route, "whatsapp") || Routes(route, "email") || Routes(route, "webhook"))
  }

  lemma OutOfBandExactly(route: Route)
    ensures ThreeChannelRoute(route) <==> OutOfBand(route)
  {
  }

  lemma Tier1MeansChannels(p: Pack)
    ensures Tier1Of(p).channels <==> exists route | route in p.spec.routes :: OutOfBand(route)
  {
    forall route
      ensures ThreeChannelRoute(route) <==> OutOfBand(route)
    {
      OutOfBandExactly(route);
    }
  }

  lemma UnitEnds(n: nat, unit: string)
    requires unit != "" && !IsSpace(unit[|unit| - 1])
    ensures var d := Decimal(n) + unit;
            && TrimSpace(d) == d && d[..|d| - |unit|] == Decimal(n)
            && IsDigit(d[|d| - |unit| - 1]) && AllDigits(Decimal(n))
  {
    DecimalEnds(n);
    EndsFixed(Decimal(n), unit);
    var d := Decimal(n) + unit;
    assert d[|d| - |unit| - 1] == Decimal(n)[|Decimal(n)| - 1];
  }

  /** Seconds count up to sixty. */
  lemma IntervalSeconds(n: nat)
    requires n <= MAX_INT64
    ensures ShortInterval(Decimal(n) + "s") <==> n <= 60
  {
    UnitEnds(n, "s");
    DecimalReadsBack(n);
  }

  /** Of the minutes, only one. */
  lemma IntervalMinutes(n: nat)
    ensures ShortInterval(Decimal(n) + "m") <==> n == 1
  {
    UnitEnds(n, "m");
    assert Decimal(1) == "1";
    assert (Decimal(n) + "m")[..|Decimal(n)|] == Decimal(n);
    if Decimal(n) + "m" == "1m" {
      assert "1m"[..1] == "1" && |Decimal(n)| == 1;
      assert DecimalInt(n) == DecimalInt(1);
      DecimalInjective(n, 1);
    }
  }

  /** Milliseconds always. */
  lemma IntervalMillis(n: nat)
    ensures ShortInterval(Decimal(n) + "ms")
  {
    UnitEnds(n, "ms");
    var d := Decimal(n) + "ms";
    assert d[|d| - 2..] == "ms";
  }

  /** No clause of a tier stricter than the target is reported. */
  lemma OnlyScoredTiers(p: Pack, tier: string, id: string)
    ensures Reports(p, tier, id) ==> Scored(p, tier)
  {
    ReportedExactly(p, tier, id);
  }
}

/** The cumulative maturity rubric (internal/lint/conformance.go). */
module Conformance {
  import opened Wrappers
  import opened Lists
  import opened Text
  import opened Numbers
  import opened Manifest
  import opened Findings
  import opened Versions
  import R = Refs

  // ----- what each clause means -----

  predicate DefaultReceiver(rx: Fields) {
    StringField(rx, "name") == "otlp" || StringField(rx, "name") == "prometheus"
  }

  /** Some recording rule mentions the SLO by name or expression. */
  predicate Recorded(p: Pack, slo: SLO) {
    exists rr | rr in p.spec.recordingRules :: Contains(rr.name, slo.id) || Contains(rr.expr, slo.id)
  }

  /** The dashboard the rubric looks at: the first one with the given id. */
  function FindDashboard(ds: seq<Dashboard>, id: string): (d: Option<Dashboard>)
    ensures d == None <==> forall x | x in ds :: x.id != id
    ensures d.Some? ==> d.value in ds && d.value.id == id
  {
    if ds == [] then None else if ds[0].id == id then Some(ds[0]) else FindDashboard(ds[1..], id)
  }

  predicate Binds(d: Dashboard, sli: SLI) {
    exists b | b in d.panelBindings :: R.StripRef(b) == sli.id
  }

  predicate OverviewBindsAll(p: Pack) {
    var d := FindDashboard(p.spec.dashboards, "service-overview");
    d.Some? && forall s | s in p.spec.slis :: Binds(d.value, s)
  }

  predicate HasChannel(route: Route, channel: string) {
    exists ch | ch in route.channels :: channel in ch
  }

  predicate ChatRoute(route: Route) {
    route.severity in {"SEV1", "SEV2", "SEV3"} && HasChannel(route, "msteams")
  }

  predicate VoiceRoute(route: Route) {
    route.severity == "SEV1" && HasChannel(route, "voice")
  }

  predicate ThreeChannelRoute(route: Route) {
    && route.severity == "SEV1" && HasChannel(route, "msteams") && HasChannel(route, "voice")
    && (HasChannel(route, "whatsapp") || HasChannel(route, "email") || HasChannel(route, "webhook"))
  }

  predicate LatencySli(s: SLI) {
    s.kind == "threshold" || s.kind == "distribution"
  }

  predicate MultiWindow(b: BurnRateAlert) {
    exists v, w | v in b.windows && w in b.windows :: v.factor != w.factor
  }

  predicate MonthlyChaos(exp: Fields) {
    StringField(exp, "schedule") in {"monthly", "weekly", "daily"} && "steady_state_hypothesis" in exp
  }

  predicate WeeklyProdChaos(exp: Fields) {
    StringField(exp, "schedule") == "weekly" && StringField(exp, "environment") == "prod"
  }

  function KindOf(fields: Option<Fields>): string {
    if fields.Some? then StringField(fields.value, "kind") else ""
  }

  predicate TailSampling(pr: Fields) {
    StringField(pr, "name") == "tail_sampling"
  }

  predicate Rollup(v: DerivedView) {
    || Contains(v.bind, "per-tenant") || Contains(v.bind, "per-region")
    || Contains(v.id, "per-tenant") || Contains(v.id, "per-region")
  }

  function SliKinds(p: Pack): set<string> {
    set s | s in p.spec.slis :: s.kind
  }

  predicate HasSuffix(s: string, suffix: string) {
    |suffix| <= |s| && s[|s| - |suffix|..] == suffix
  }

  /** Sub-second units always, "1m", and up to sixty seconds as the int64 parser reads them. */
  predicate ShortInterval(interval: string) {
    var d := TrimSpace(interval);
    || d == "1m"
    || HasSuffix(d, "ms") || HasSuffix(d, "us") || HasSuffix(d, "\U{B5}s") || HasSuffix(d, "ns")
    || (HasSuffix(d, "s") && AllDigits(d[..|d| - 1]) && Wrap(Value(d[..|d| - 1])) <= 60)
  }

  // The verdicts of the three rubrics, clause by clause.

  datatype Tier3 = Tier3(
    objectives: bool, receiver: bool, serviceName: bool, recorded: bool, overview: bool,
    alerts: bool, chat: bool, baselines: bool, probe: bool)
  {
    /** Every clause that passes here passes in `o`. */
    predicate AtMost(o: Tier3) {
      && (this.objectives ==> o.objectives)
      && (this.receiver ==> o.receiver)
      && (this.serviceName ==> o.serviceName)
      && (this.recorded ==> o.recorded)
      && (this.overview ==> o.overview)
      && (this.alerts ==> o.alerts)
      && (this.chat ==> o.chat)
      && (this.baselines ==> o.baselines)
      && (this.probe ==> o.probe)
    }

    /** Every clause passes. */
    predicate Holds() {
      && objectives && receiver && serviceName && recorded && overview && alerts && chat
      && baselines && probe
    }

    function Checks(): (cs: seq<Check>)
      ensures |cs| == 11
    {
      [Check("3.1", objectives), Check("3.2", receiver), Check("3.2b", serviceName),
       Check("3.3", true), Check("3.4", recorded), Check("3.5", overview), Check("3.6", alerts),
       Check("3.7", chat), Check("3.8", true), Check("3.9", baselines), Check("3.10", probe)]
    }
  }

  datatype Tier2 = Tier2(
    latency: bool, metrics: bool, semconv: bool, derived: bool, burnBoard: bool, windows: bool,
    voice: bool, gate: bool, chaos: bool)
  {
    /** Every clause that passes here passes in `o`. */
    predicate AtMost(o: Tier2) {
      && (this.latency ==> o.latency)
      && (this.metrics ==> o.metrics)
      && (this.semconv ==> o.semconv)
      && (this.derived ==> o.derived)
      && (this.burnBoard ==> o.burnBoard)
      && (this.windows ==> o.windows)
      && (this.voice ==> o.voice)
      && (this.gate ==> o.gate)
      && (this.chaos ==> o.chaos)
    }

    function Checks(): (cs: seq<Check>)
      ensures |cs| == 9
    {
      [Check("2.1", latency), Check("2.2", metrics), Check("2.2b", semconv), Check("2.3", derived),
       Check("2.4", burnBoard), Check("2.5", windows), Check("2.6", voice), Check("2.7", gate),
       Check("2.8", chaos)]
    }
  }

  datatype Tier1 = Tier1(
    kinds: bool, exporters: bool, semconv: bool, instrumented: bool, rollup: bool, boards: bool,
    forecast: bool, channels: bool, guarded: bool, gate: bool, chaos: bool, fastProbe: bool)
  {
    /** Every clause that passes here passes in `o`. */
    predicate AtMost(o: Tier1) {
      && (this.kinds ==> o.kinds)
      && (this.exporters ==> o.exporters)
      && (this.semconv ==> o.semconv)
      && (this.instrumented ==> o.instrumented)
      && (this.rollup ==> o.rollup)
      && (this.boards ==> o.boards)
      && (this.forecast ==> o.forecast)
      && (this.channels ==> o.channels)
      && (this.guarded ==> o.guarded)
      && (this.gate ==> o.gate)
      && (this.chaos ==> o.chaos)
      && (this.fastProbe ==> o.fastProbe)
    }

    function Checks(): (cs: seq<Check>)
      ensures |cs| == 12
    {
      [Check("1.1", kinds), Check("1.2", exporters), Check("1.2b", semconv),
       Check("1.2c", instrumented), Check("1.3", rollup), Check("1.4", boards),
       Check("1.5", forecast), Check("1.6", channels), Check("1.7", guarded), Check("1.8", gate),
       Check("1.9", chaos), Check("1.10", fastProbe)]
    }
  }

  ghost function Tier3Of(p: Pack): Tier3 {
    Tier3(
      |p.spec.slis| >= 1 && |p.spec.slos| >= 1,
      exists rx | rx in p.spec.pipelines.receivers :: DefaultReceiver(rx),
      "service.name" in p.spec.otel.required,
      forall slo | slo in p.spec.slos :: Recorded(p, slo),
      OverviewBindsAll(p),
      |p.spec.policy.burnRateAlerts| >= |p.spec.slos|,
      exists route | route in p.spec.routes :: ChatRoute(route),
      p.spec.baselines.mttdP50 != "" && p.spec.baselines.mttrP50 != "",
      |p.spec.syntheticChecks| >= 1)
  }

  ghost function Tier2Of(p: Pack): Tier2 {
    Tier2(
      exists s | s in p.spec.slis :: LatencySli(s),
      KindOf(p.spec.pipelines.exporters.metrics) == "prometheusremotewrite",
      SemverAtLeast(p.spec.otel.semconv, "1.26.0") && |p.spec.otel.languages| >= 1,
      |p.spec.derivedViews| >= 1,
      exists d | d in p.spec.dashboards :: d.id == "slo-burn",
      p.spec.policy.burnRateAlerts != [] &&
        forall b | b in p.spec.policy.burnRateAlerts :: MultiWindow(b),
      exists route | route in p.spec.routes :: VoiceRoute(route),
      p.spec.baselines.regressionGate != "",
      exists exp | exp in p.spec.chaosExperiments :: MonthlyChaos(exp))
  }

  ghost function Tier1Of(p: Pack): Tier1 {
    Tier1(
      |SliKinds(p)| >= 3,
      KindOf(p.spec.pipelines.exporters.logs) == "elasticsearch" &&
        KindOf(p.spec.pipelines.exporters.traces) == "elasticsearch" &&
        exists pr | pr in p.spec.pipelines.processors :: TailSampling(pr),
      p.spec.otel.semconv == "1.27.0" && p.spec.otel.logCorrelation && |p.spec.otel.required| >= 5,
      exists s | s in p.spec.syntheticChecks :: s.otelInstrumentation,
      exists v | v in p.spec.derivedViews :: Rollup(v),
      (exists d | d in p.spec.dashboards :: d.id == "deployment") &&
        (exists d | d in p.spec.dashboards :: d.id == "customer-impact"),
      |p.spec.policy.forecasts| >= 1,
      exists route | route in p.spec.routes :: ThreeChannelRoute(route),
      p.spec.remediation != [] &&
        forall rm | rm in p.spec.remediation :: rm.maxInvocationsPerHour >= 1,
      HasPrefix(p.spec.baselines.regressionGate, "block_release_if_") &&
        p.spec.baselines.mttdP95 != "" && p.spec.baselines.mttrP95 != "",
      exists exp | exp in p.spec.chaosExperiments :: WeeklyProdChaos(exp),
      exists s | s in p.spec.syntheticChecks :: ShortInterval(s.interval))
  }

  // ----- the scorers -----

  /** The flag loop the scorers repeat: stop at the first element that satisfies the test. */
  method AnyOf<T>(xs: seq<T>, test: T -> bool) returns (found: bool)
    ensures found <==> exists x | x in xs :: test(x)
  {
    for i := 0 to |xs|
      invariant forall x | x in xs[..i] :: !test(x)
    {
      if test(xs[i]) {
        return true;
      }
      assert xs[..i + 1] == xs[..i] + [xs[i]];
    }
    assert xs[..|xs|] == xs;
    return false;
  }

  /** Clause 3.4: collect the SLO ids some rule mentions, then look for one left over. */
  method AllSlosRecorded(p: Pack) returns (ok: bool)
    ensures ok <==> forall slo | slo in p.spec.slos :: Recorded(p, slo)
  {
    var rules, slos := p.spec.recordingRules, p.spec.slos;
    var seen: set<string> := {};
    for i := 0 to |rules|
      invariant forall id :: id in seen <==>
        exists slo, rr | slo in slos && rr in rules[..i] ::
          slo.id == id && (Contains(rr.name, id) || Contains(rr.expr, id))
    {
      ghost var earlier := seen;
      for j := 0 to |slos|
        invariant forall id :: id in seen <==>
          (id in earlier ||
           exists slo | slo in slos[..j] ::
             slo.id == id && (Contains(rules[i].name, id) || Contains(rules[i].expr, id)))
      {
        if Contains(rules[i].name, slos[j].id) || Contains(rules[i].expr, slos[j].id) {
          seen := seen + {slos[j].id};
        }
        assert slos[..j + 1] == slos[..j] + [slos[j]];
      }
      assert slos[..|slos|] == slos;
      assert rules[..i + 1] == rules[..i] + [rules[i]];
    }
    assert rules[..|rules|] == rules;
    assert forall slo | slo in slos :: slo.id in seen <==> Recorded(p, slo);
    var missing := AnyOf(slos, (slo: SLO) => slo.id !in seen);
    ok := !missing;
  }

  /** `findDashboard`. */
  method LookupDashboard(p: Pack, id: string) returns (d: Option<Dashboard>)
    ensures d == FindDashboard(p.spec.dashboards, id)
  {
    var ds := p.spec.dashboards;
    for i := 0 to |ds|
      invariant FindDashboard(ds, id) == FindDashboard(ds[i..], id)
    {
      if ds[i].id == id {
        return Some(ds[i]);
      }
    }
    return None;
  }

  /** Clause 3.5. */
  method OverviewCovers(p: Pack) returns (ok: bool)
    ensures ok <==> OverviewBindsAll(p)
  {
    var d := LookupDashboard(p, "service-overview");
    if d == None {
      return false;
    }
    var bindings := d.value.panelBindings;
    var covered: set<string> := {};
    for i := 0 to |bindings|
      invariant covered == set b | b in bindings[..i] :: R.StripRef(b)
    {
      assert bindings[..i + 1] == bindings[..i] + [bindings[i]];
      covered := covered + {R.StripRef(bindings[i])};
    }
    assert bindings[..|bindings|] == bindings;
    var missing := AnyOf(p.spec.slis, (s: SLI) => s.id !in covered);
    ok := !missing;
  }

  lemma TwoOfSize<T>(s: set<T>)
    ensures |s| >= 2 <==> exists x, y | x in s && y in s :: x != y
  {
    if |s| >= 2 {
      var x :| x in s;
      assert |s - {x}| >= 1;
      var y :| y in s - {x};
      assert x != y;
    } else {
      forall x, y | x in s && y in s
        ensures x == y
      {
        assert |s - {x}| == |s| - 1;
        assert y == x || y in s - {x};
      }
    }
  }

  /** Clause 2.5. */
  method AllMultiWindow(p: Pack) returns (ok: bool)
    ensures ok <==> forall b | b in p.spec.policy.burnRateAlerts :: MultiWindow(b)
  {
    var burns := p.spec.policy.burnRateAlerts;
    for i := 0 to |burns|
      invariant forall b | b in burns[..i] :: MultiWindow(b)
    {
      var windows := burns[i].windows;
      if |windows| < 2 {
        assert burns[i] in burns && !MultiWindow(burns[i]);
        return false;
      }
      var factors: set<string> := {};
      for j := 0 to |windows|
        invariant factors == set w | w in windows[..j] :: w.factor
      {
        assert windows[..j + 1] == windows[..j] + [windows[j]];
        factors := factors + {windows[j].factor};
      }
      assert windows[..|windows|] == windows;
      DistinctFactors(burns[i], factors);
      if |factors| < 2 {
        assert burns[i] in burns;
        return false;
      }
      assert burns[..i + 1] == burns[..i] + [burns[i]];
    }
    assert burns[..|burns|] == burns;
    return true;
  }

  lemma DistinctFactors(b: BurnRateAlert, factors: set<string>)
    requires factors == set w | w in b.windows :: w.factor
    ensures |factors| >= 2 <==> MultiWindow(b)
  {
    TwoOfSize(factors);
    if MultiWindow(b) {
      var v, w :| v in b.windows && w in b.windows && v.factor != w.factor;
      assert v.factor in factors && w.factor in factors;
    }
  }

  /** Clause 1.6: the channel keys of one route, then the extras among them. */
  method RouteHasThree(route: Route) returns (ok: bool)
    ensures ok <==> ThreeChannelRoute(route)
  {
    if route.severity != "SEV1" {
      return false;
    }
    var have: set<string> := {};
    for i := 0 to |route.channels|
      invariant forall k :: k in have <==> exists ch | ch in route.channels[..i] :: k in ch
    {
      assert route.channels[..i + 1] == route.channels[..i] + [route.channels[i]];
      have := have + route.channels[i].Keys;
    }
    assert route.channels[..|route.channels|] == route.channels;
    assert forall k :: k in have <==> HasChannel(route, k);
    var extras := (if "whatsapp" in have then 1 else 0) + (if "email" in have then 1 else 0)
                  + (if "webhook" in have then 1 else 0);
    ok := extras >= 1 && "msteams" in have && "voice" in have;
  }

  /** `isDurationLEMinute`. */
  method IsDurationLEMinute(interval: string) returns (ok: bool)
    ensures ok <==> ShortInterval(interval)
  {
    var d := TrimSpace(interval);
    if d == "" {
      return false;
    }
    if d == "1m" {
      return true;
    }
    if HasSuffix(d, "ms") || HasSuffix(d, "us") || HasSuffix(d, "\U{B5}s") || HasSuffix(d, "ns") {
      return true;
    }
    if HasSuffix(d, "s") {
      var n, digits := ReadDigits(d[..|d| - 1]);
      return digits && n <= 60;
    }
    return false;
  }

  /** Clause 1.1: the distinct SLI types. */
  method CountKinds(p: Pack) returns (n: nat)
    ensures n == |SliKinds(p)|
  {
    var slis := p.spec.slis;
    var kinds: set<string> := {};
    for i := 0 to |slis|
      invariant kinds == set s | s in slis[..i] :: s.kind
    {
      assert slis[..i + 1] == slis[..i] + [slis[i]];
      kinds := kinds + {slis[i].kind};
    }
    assert slis[..|slis|] == slis;
    n := |kinds|;
  }

  /** Clause 1.6. */
  method AnyThreeChannelRoute(routes: seq<Route>) returns (found: bool)
    ensures found <==> exists route | route in routes :: ThreeChannelRoute(route)
  {
    for i := 0 to |routes|
      invariant forall route | route in routes[..i] :: !ThreeChannelRoute(route)
    {
      var third := RouteHasThree(routes[i]);
      if third {
        assert routes[i] in routes;
        return true;
      }
      assert routes[..i + 1] == routes[..i] + [routes[i]];
    }
    assert routes[..|routes|] == routes;
    return false;
  }

  /** Clause 1.10. */
  method AnyShortInterval(checks: seq<SyntheticCheck>) returns (found: bool)
    ensures found <==> exists s | s in checks :: ShortInterval(s.interval)
  {
    for i := 0 to |checks|
      invariant forall s | s in checks[..i] :: !ShortInterval(s.interval)
    {
      var fast := IsDurationLEMinute(checks[i].interval);
      if fast {
        assert checks[i] in checks;
        return true;
      }
      assert checks[..i + 1] == checks[..i] + [checks[i]];
    }
    assert checks[..|checks|] == checks;
    return false;
  }

  method ScoreTier3(p: Pack) returns (out: Tier3)
    ensures out == Tier3Of(p)
  {
    var receiver := AnyOf(p.spec.pipelines.receivers, DefaultReceiver);
    var serviceName := AnyOf(p.spec.otel.required, (s: string) => s == "service.name");
    var recorded := AllSlosRecorded(p);
    var overview := OverviewCovers(p);
    var chat := AnyOf(p.spec.routes, ChatRoute);
    out := Tier3(
      |p.spec.slis| >= 1 && |p.spec.slos| >= 1, receiver, serviceName, recorded, overview,
      |p.spec.policy.burnRateAlerts| >= |p.spec.slos|, chat,
      p.spec.baselines.mttdP50 != "" && p.spec.baselines.mttrP50 != "",
      |p.spec.syntheticChecks| >= 1);
  }

  method ScoreTier2(p: Pack) returns (out: Tier2)
    ensures out == Tier2Of(p)
  {
    var latency := AnyOf(p.spec.slis, LatencySli);
    var recent := SemverGTE(p.spec.otel.semconv, "1.26.0");
    var burn := LookupDashboard(p, "slo-burn");
    var multi := AllMultiWindow(p);
    var voice := AnyOf(p.spec.routes, VoiceRoute);
    var chaos := AnyOf(p.spec.chaosExperiments, MonthlyChaos);
    out := Tier2(
      latency, KindOf(p.spec.pipelines.exporters.metrics) == "prometheusremotewrite",
      recent && |p.spec.otel.languages| >= 1, |p.spec.derivedViews| >= 1, burn.Some?,
      multi && |p.spec.policy.burnRateAlerts| > 0, voice, p.spec.baselines.regressionGate != "",
      chaos);
  }

  method ScoreTier1(p: Pack) returns (out: Tier1)
    ensures out == Tier1Of(p)
  {
    var kinds := CountKinds(p);
    var tail := AnyOf(p.spec.pipelines.processors, TailSampling);
    var instrumented := AnyOf(p.spec.syntheticChecks, (s: SyntheticCheck) => s.otelInstrumentation);
    var rollup := AnyOf(p.spec.derivedViews, Rollup);
    var deployment := LookupDashboard(p, "deployment");
    var impact := LookupDashboard(p, "customer-impact");
    var third := AnyThreeChannelRoute(p.spec.routes);
    var unguarded := AnyOf(p.spec.remediation, (rm: Remediation) => rm.maxInvocationsPerHour < 1);
    var weekly := AnyOf(p.spec.chaosExperiments, WeeklyProdChaos);
    var fast := AnyShortInterval(p.spec.syntheticChecks);
    out := Tier1(
      kinds >= 3,
      KindOf(p.spec.pipelines.exporters.logs) == "elasticsearch" &&
        KindOf(p.spec.pipelines.exporters.traces) == "elasticsearch" && tail,
      p.spec.otel.semconv == "1.27.0" && p.spec.otel.logCorrelation && |p.spec.otel.required| >= 5,
      instrumented, rollup, deployment.Some? && impact.Some?, |p.spec.policy.forecasts| >= 1, third,
      |p.spec.remediation| >= 1 && !unguarded,
      HasPrefix(p.spec.baselines.regressionGate, "block_release_if_") &&
        p.spec.baselines.mttdP95 != "" && p.spec.baselines.mttrP95 != "",
      weekly, fast);
  }

  // ----- the pass -----

  function TargetOf(p: Pack): string {
    if p.criticality == "" then "tier-3" else p.criticality
  }

  predicate ValidTarget(t: string) {
    t == "tier-1" || t == "tier-2" || t == "tier-3"
  }

  /** Lower is stricter; anything unknown ranks with tier-3. */
  function TierRank(t: string): nat {
    if t == "tier-1" then 1 else if t == "tier-2" then 2 else 3
  }

  predicate AllPass(cs: seq<Check>) {
    forall c | c in cs :: c.pass
  }

  /** `reachedTier`: the strictest tier up to which everything scored passes. */
  function ReachedTier(t3: seq<Check>, t2: seq<Check>, t1: seq<Check>): string {
    var p3, p2, p1 := AllPass(t3), t2 != [] && AllPass(t2), t1 != [] && AllPass(t1);
    if p3 && p2 && p1 then "tier-1"
    else if p3 && p2 then "tier-2"
    else if p3 then "tier-3"
    else "none"
  }

  /** One finding for each failed check, in order. */
  function Failures(cs: seq<Check>, severity: Severity, tier: string): seq<Finding> {
    if cs == [] then []
    else
      var c := cs[|cs| - 1];
      Failures(cs[..|cs| - 1], severity, tier) +
      (if c.pass then [] else [Finding(severity, ConformanceClause(tier, c.id), "spec")])
  }

  function SeverityFor(tier: string, target: string): Severity {
    if TierRank(tier) < TierRank(target) then Info else Error
  }

  method EmitFindings(r: LintResult, checks: seq<Check>, tier: string, target: string)
    modifies r`findings
    ensures r.findings == old(r.findings) + Failures(checks, SeverityFor(tier, target), tier)
  {
    var severity := Error;
    if TierRank(tier) < TierRank(target) {
      severity := Info;
    }
    for i := 0 to |checks|
      invariant r.findings == old(r.findings) + Failures(checks[..i], severity, tier)
    {
      assert checks[..i + 1][..i] == checks[..i];
      if !checks[i].pass {
        r.AddFinding(severity, ConformanceClause(tier, checks[i].id), "spec");
      }
    }
    assert checks[..|checks|] == checks;
  }

  datatype Verdict = Verdict(
    target: string, tier3: seq<Check>, tier2: seq<Check>, tier1: seq<Check>, reached: string,
    findings: seq<Finding>)

  /** The verdict on a pack, given the tier-2 and tier-1 lists the result already held. */
  ghost function Score(p: Pack, held2: seq<Check>, held1: seq<Check>): Verdict {
    var target := TargetOf(p);
    Judge(target, Tier3Of(p).Checks(),
          if target == "tier-2" || target == "tier-1" then Tier2Of(p).Checks() else held2,
          if target == "tier-1" then Tier1Of(p).Checks() else held1)
  }

  function Judge(target: string, t3: seq<Check>, t2: seq<Check>, t1: seq<Check>): Verdict {
    Verdict(target, t3, t2, t1, ReachedTier(t3, t2, t1),
            Failures(t3, SeverityFor("tier-3", target), "tier-3")
            + Failures(t2, SeverityFor("tier-2", target), "tier-2")
            + Failures(t1, SeverityFor("tier-1", target), "tier-1"))
  }

  /** `Conformance`. */
  method Conformance(p: Pack, r: LintResult)
    modifies r`findings, r`tierTarget, r`tierReached, r`tier3, r`tier2, r`tier1
    ensures var v := Score(p, old(r.tier2), old(r.tier1));
            && r.tierTarget == v.target && r.tierReached == v.reached
            && r.tier3 == v.tier3 && r.tier2 == v.tier2 && r.tier1 == v.tier1
            && r.findings == old(r.findings) + v.findings
  {
    var target := p.criticality;
    if target == "" {
      target := "tier-3";
    }
    r.tierTarget := target;
    FillTiers(p, target, r);
    r.tierReached := ReachedTier(r.tier3, r.tier2, r.tier1);
    EmitAll(r, target);
  }

  method FillTiers(p: Pack, target: string, r: LintResult)
    modifies r`tier3, r`tier2, r`tier1
    ensures r.tier3 == Tier3Of(p).Checks()
    ensures r.tier2 == if target == "tier-2" || target == "tier-1" then Tier2Of(p).Checks() else old(r.tier2)
    ensures r.tier1 == if target == "tier-1" then Tier1Of(p).Checks() else old(r.tier1)
  {
    var s3 := ScoreTier3(p);
    r.tier3 := s3.Checks();
    if target == "tier-2" || target == "tier-1" {
      var s2 := ScoreTier2(p);
      r.tier2 := s2.Checks();
    }
    if target == "tier-1" {
      var s1 := ScoreTier1(p);
      r.tier1 := s1.Checks();
    }
  }

  method EmitAll(r: LintResult, target: string)
    modifies r`findings
    ensures r.findings == old(r.findings) + Judge(target, r.tier3, r.tier2, r.tier1).findings
  {
    ghost var a := Failures(r.tier3, SeverityFor("tier-3", target), "tier-3");
    ghost var b := Failures(r.tier2, SeverityFor("tier-2", target), "tier-2");
    ghost var c := Failures(r.tier1, SeverityFor("tier-1", target), "tier-1");
    EmitFindings(r, r.tier3, "tier-3", target);
    assert r.findings == old(r.findings) + a;
    if |r.tier2| > 0 {
      EmitFindings(r, r.tier2, "tier-2", target);
    }
    assert r.findings == old(r.findings) + a + b;
    if |r.tier1| > 0 {
      EmitFindings(r, r.tier1, "tier-1", target);
    }
    assert r.findings == old(r.findings) + a + b + c;
    Assoc(old(r.findings), a, b);
    Assoc(old(r.findings), a + b, c);
  }

  // ----- exactness -----

  /** The verdict on a fresh result, which is what every caller passes. */
  ghost function Fresh(p: Pack): Verdict {
    Score(p, [], [])
  }

  lemma {:induction false} FailuresMeaning(cs: seq<Check>, severity: Severity, tier: string)
    ensures forall f | f in Failures(cs, severity, tier) :: f.severity == severity
    ensures Failures(cs, severity, tier) == [] <==> AllPass(cs)
  {
    if cs != [] {
      var n := |cs| - 1;
      FailuresMeaning(cs[..n], severity, tier);
      assert cs == cs[..n] + [cs[n]];
    }
  }

  /** No finding is ever informational: tiers stricter than the target are not scored at all. */
  lemma OnlyErrors(p: Pack)
    ensures forall f | f in Fresh(p).findings :: f.severity == Error
    ensures HasError(Fresh(p).findings) <==>
              !(AllPass(Fresh(p).tier3) && AllPass(Fresh(p).tier2) && AllPass(Fresh(p).tier1))
  {
    JudgeErrors(TargetOf(p), Fresh(p).tier3, Fresh(p).tier2, Fresh(p).tier1);
  }

  lemma JudgeErrors(target: string, t3: seq<Check>, t2: seq<Check>, t1: seq<Check>)
    requires t2 != [] ==> target == "tier-2" || target == "tier-1"
    requires t1 != [] ==> target == "tier-1"
    ensures var fs := Judge(target, t3, t2, t1).findings;
            && (forall f | f in fs :: f.severity == Error)
            && (HasError(fs) <==> !(AllPass(t3) && AllPass(t2) && AllPass(t1)))
  {
    FailuresMeaning(t3, SeverityFor("tier-3", target), "tier-3");
    FailuresMeaning(t2, SeverityFor("tier-2", target), "tier-2");
    FailuresMeaning(t1, SeverityFor("tier-1", target), "tier-1");
    var fs := Judge(target, t3, t2, t1).findings;
    if fs != [] {
      assert fs[0] in fs;
    }
  }

  /** The tier reached is never stricter than the target, whatever the criticality says. */
  lemma NeverStricterThanTarget(p: Pack)
    ensures TierRank(Fresh(p).target) <= TierRank(Fresh(p).reached)
  {
  }

  lemma AllPassAt(cs: seq<Check>)
    ensures AllPass(cs) <==> forall i | 0 <= i < |cs| :: cs[i].pass
  {
  }

  lemma Tier3Holds(t: Tier3)
    ensures AllPass(t.Checks()) <==> t.Holds()
  {
    AllPassAt(t.Checks());
    Tier3Verdicts(t, t.Checks());
  }

  lemma Tier3Verdicts(t: Tier3, cs: seq<Check>)
    requires cs == t.Checks()
    ensures (forall i | 0 <= i < |cs| :: cs[i].pass) <==> t.Holds()
  {
    assert cs[0].pass == t.objectives && cs[1].pass == t.receiver && cs[2].pass == t.serviceName;
    assert cs[4].pass == t.recorded && cs[5].pass == t.overview && cs[6].pass == t.alerts;
    assert cs[7].pass == t.chat && cs[9].pass == t.baselines && cs[10].pass == t.probe;
  }

  /**
   "No error finding" and "target reached" are the same verdict exactly when the criticality is
   a known tier, or is unknown, not the word "none", and the pack fails some tier-3 clause. With
   an unknown criticality a tier-3 pack draws no finding yet reaches no target; with "none" a
   failing pack draws findings and reaches it.
   */
  lemma ConformanceExact(p: Pack)
    ensures (!HasError(Fresh(p).findings) <==> Fresh(p).reached == Fresh(p).target)
       <==> ValidTarget(TargetOf(p)) || (TargetOf(p) != "none" && !Tier3Of(p).Holds())
  {
    OnlyErrors(p);
    ReachedMeaning(TargetOf(p), Fresh(p).tier3, Fresh(p).tier2, Fresh(p).tier1);
    Tier3Holds(Tier3Of(p));
  }

  lemma ReachedMeaning(target: string, t3: seq<Check>, t2: seq<Check>, t1: seq<Check>)
    requires t2 != [] <==> target == "tier-2" || target == "tier-1"
    requires t1 != [] <==> target == "tier-1"
    ensures ValidTarget(target) ==>
              (ReachedTier(t3, t2, t1) == target <==> AllPass(t3) && AllPass(t2) && AllPass(t1))
    ensures !ValidTarget(target) ==>
              ReachedTier(t3, t2, t1) == if AllPass(t3) then "tier-3" else "none"
  {
  }

  lemma VerdictsIgnoreCriticality(p: Pack, t: string)
    ensures Tier3Of(p.(criticality := t)) == Tier3Of(p)
    ensures Tier2Of(p.(criticality := t)) == Tier2Of(p)
    ensures Tier1Of(p.(criticality := t)) == Tier1Of(p)
  {
    var q := p.(criticality := t);
    assert forall slo :: Recorded(q, slo) == Recorded(p, slo);
  }

  /** A pack that passes at its criticality passes at every laxer one. */
  lemma LaxerTargetPasses(p: Pack, t: string)
    requires ValidTarget(TargetOf(p)) && ValidTarget(t) && TierRank(TargetOf(p)) <= TierRank(t)
    requires !HasError(Fresh(p).findings)
    ensures !HasError(Fresh(p.(criticality := t)).findings)
    ensures Fresh(p.(criticality := t)).reached == t
  {
    var q := p.(criticality := t);
    OnlyErrors(p);
    OnlyErrors(q);
    VerdictsIgnoreCriticality(p, t);
    ConformanceExact(q);
  }

  // ----- monotonicity -----

  /** `q` is `p` with entries appended to the lists the rubric only searches or counts. */
  predicate Appended(p: Pack, q: Pack) {
    var a, b := p.spec, q.spec;
    && a.pipelines.receivers <= b.pipelines.receivers
    && a.pipelines.processors <= b.pipelines.processors
    && a.otel.required <= b.otel.required
    && a.recordingRules <= b.recordingRules
    && a.derivedViews <= b.derivedViews
    && a.dashboards <= b.dashboards
    && a.routes <= b.routes
    && a.policy.forecasts <= b.policy.forecasts
    && a.syntheticChecks <= b.syntheticChecks
    && a.chaosExperiments <= b.chaosExperiments
    && p.criticality == q.criticality
    && a.otel.(required := []) == b.otel.(required := [])
    && a.pipelines.exporters == b.pipelines.exporters
    && a.policy.burnRateAlerts == b.policy.burnRateAlerts
    && a.slis == b.slis && a.slos == b.slos
    && a.remediation == b.remediation && a.baselines == b.baselines
  }

  lemma PrefixMembers<T>(a: seq<T>, b: seq<T>)
    requires a <= b
    ensures forall x | x in a :: x in b
  {
  }

  lemma {:induction false} FindDashboardStable(a: seq<Dashboard>, b: seq<Dashboard>, id: string)
    requires a <= b && FindDashboard(a, id).Some?
    ensures FindDashboard(b, id) == FindDashboard(a, id)
  {
    if a[0].id != id {
      FindDashboardStable(a[1..], b[1..], id);
    }
  }

  lemma Tier3Monotone(p: Pack, q: Pack)
    requires Appended(p, q)
    ensures Tier3Of(p).AtMost(Tier3Of(q))
  {
    PrefixMembers(p.spec.pipelines.receivers, q.spec.pipelines.receivers);
    PrefixMembers(p.spec.otel.required, q.spec.otel.required);
    PrefixMembers(p.spec.recordingRules, q.spec.recordingRules);
    PrefixMembers(p.spec.routes, q.spec.routes);
    if FindDashboard(p.spec.dashboards, "service-overview").Some? {
      FindDashboardStable(p.spec.dashboards, q.spec.dashboards, "service-overview");
    }
    forall slo | Recorded(p, slo)
      ensures Recorded(q, slo)
    {
    }
    var a, b := Tier3Of(p), Tier3Of(q);
    assert a.overview ==> b.overview;
    assert a.recorded ==> b.recorded;
    assert a.receiver ==> b.receiver;
    assert a.chat ==> b.chat;
  }

  lemma Tier2Monotone(p: Pack, q: Pack)
    requires Appended(p, q)
    ensures Tier2Of(p).AtMost(Tier2Of(q))
  {
    PrefixMembers(p.spec.dashboards, q.spec.dashboards);
    PrefixMembers(p.spec.routes, q.spec.routes);
    PrefixMembers(p.spec.chaosExperiments, q.spec.chaosExperiments);
    var a, b := Tier2Of(p), Tier2Of(q);
    assert a.burnBoard ==> b.burnBoard;
    assert a.voice ==> b.voice;
    assert a.chaos ==> b.chaos;
  }

  lemma Tier1Monotone(p: Pack, q: Pack)
    requires Appended(p, q)
    ensures Tier1Of(p).AtMost(Tier1Of(q))
  {
    PrefixMembers(p.spec.pipelines.processors, q.spec.pipelines.processors);
    PrefixMembers(p.spec.syntheticChecks, q.spec.syntheticChecks);
    PrefixMembers(p.spec.derivedViews, q.spec.derivedViews);
    PrefixMembers(p.spec.dashboards, q.spec.dashboards);
    PrefixMembers(p.spec.routes, q.spec.routes);
    PrefixMembers(p.spec.chaosExperiments, q.spec.chaosExperiments);
    var a, b := Tier1Of(p), Tier1Of(q);
    assert SliKinds(p) == SliKinds(q);
    assert a.exporters ==> b.exporters;
    assert a.instrumented ==> b.instrumented;
    assert a.rollup ==> b.rollup;
    assert a.boards ==> b.boards;
    assert a.channels ==> b.channels;
    assert a.chaos ==> b.chaos;
    assert a.fastProbe ==> b.fastProbe;
  }

  /** Appending to those lists never loses a tier nor adds an error. */
  lemma AppendingNeverHurts(p: Pack, q: Pack)
    requires Appended(p, q)
    ensures !HasError(Fresh(p).findings) ==> !HasError(Fresh(q).findings)
    ensures Fresh(p).reached != "none" ==> Fresh(q).reached != "none"
    ensures TierRank(Fresh(q).reached) <= TierRank(Fresh(p).reached)
  {
    ListsTransfer(p, q);
    OnlyErrors(p);
    OnlyErrors(q);
    ReachedMonotone(Fresh(p), Fresh(q));
  }

  lemma ListsTransfer(p: Pack, q: Pack)
    requires Appended(p, q)
    ensures AllPass(Fresh(p).tier3) ==> AllPass(Fresh(q).tier3)
    ensures AllPass(Fresh(p).tier2) ==> AllPass(Fresh(q).tier2)
    ensures AllPass(Fresh(p).tier1) ==> AllPass(Fresh(q).tier1)
  {
    Tier3Monotone(p, q);
    Tier2Monotone(p, q);
    Tier1Monotone(p, q);
    Tier3Transfers(Tier3Of(p), Tier3Of(q));
    Tier2Transfers(Tier2Of(p), Tier2Of(q));
    Tier1Transfers(Tier1Of(p), Tier1Of(q));
  }

  lemma ReachedMonotone(v: Verdict, w: Verdict)
    requires v.reached == ReachedTier(v.tier3, v.tier2, v.tier1)
    requires w.reached == ReachedTier(w.tier3, w.tier2, w.tier1)
    requires (v.tier2 == [] <==> w.tier2 == []) && (v.tier1 == [] <==> w.tier1 == [])
    requires AllPass(v.tier3) ==> AllPass(w.tier3)
    requires AllPass(v.tier2) ==> AllPass(w.tier2)
    requires AllPass(v.tier1) ==> AllPass(w.tier1)
    ensures TierRank(w.reached) <= TierRank(v.reached)
    ensures v.reached != "none" ==> w.reached != "none"
  {
  }

  lemma PassTransfers(a: seq<Check>, b: seq<Check>)
    requires |a| == |b| && forall k | 0 <= k < |a| :: a[k].pass ==> b[k].pass
    ensures AllPass(a) ==> AllPass(b)
  {
    if AllPass(a) {
      assert forall k | 0 <= k < |a| :: a[k] in a;
    }
  }

  lemma Tier3Transfers(a: Tier3, b: Tier3)
    requires a.AtMost(b)
    ensures AllPass(a.Checks()) ==> AllPass(b.Checks())
  {
    PassTransfers(a.Checks(), b.Checks());
  }

  lemma Tier2Transfers(a: Tier2, b: Tier2)
    requires a.AtMost(b)
    ensures AllPass(a.Checks()) ==> AllPass(b.Checks())
  {
    PassTransfers(a.Checks(), b.Checks());
  }

  lemma Tier1Transfers(a: Tier1, b: Tier1)
    requires a.AtMost(b)
    ensures AllPass(a.Checks()) ==> AllPass(b.Checks())
  {
    PassTransfers(a.Checks(), b.Checks());
  }

  lemma {:induction false} FindInserted(a: seq<Dashboard>, d: Dashboard, b: seq<Dashboard>, id: string)
    ensures FindDashboard(a + [d] + b, id)
         == if FindDashboard(a, id).Some? then FindDashboard(a, id)
            else if d.id == id then Some(d) else FindDashboard(b, id)
  {
    if a == [] {
      assert a + [d] + b == [d] + b;
      assert ([d] + b)[1..] == b;
    } else {
      assert (a + [d] + b)[0] == a[0] && (a + [d] + b)[1..] == a[1..] + [d] + b;
      FindInserted(a[1..], d, b, id);
    }
  }

  lemma {:induction false} FindPrefix(a: seq<Dashboard>, b: seq<Dashboard>, id: string)
    ensures FindDashboard(a + b, id) == if FindDashboard(a, id).Some? then FindDashboard(a, id) else FindDashboard(b, id)
  {
    if a == [] {
      assert a + b == b;
    } else {
      assert (a + b)[0] == a[0] && (a + b)[1..] == a[1..] + b;
      FindPrefix(a[1..], b, id);
    }
  }

  /** The pack with one more dashboard at position `k`. */
  function WithDashboard(p: Pack, d: Dashboard, k: nat): Pack
    requires k <= |p.spec.dashboards|
  {
    p.(spec := p.spec.(dashboards := p.spec.dashboards[..k] + [d] + p.spec.dashboards[k..]))
  }

  /**
   Only the first service-overview counts: a pack that passes clause 3.5 still passes it with a
   dashboard inserted anywhere exactly when that is no service-overview, or comes after one, or
   itself binds every SLI.
   */
  lemma InsertingDashboard(p: Pack, d: Dashboard, k: nat)
    requires k <= |p.spec.dashboards| && OverviewBindsAll(p)
    ensures OverviewBindsAll(WithDashboard(p, d, k)) <==>
              || d.id != "service-overview"
              || (exists x | x in p.spec.dashboards[..k] :: x.id == "service-overview")
              || forall s | s in p.spec.slis :: Binds(d, s)
  {
    var a, b := p.spec.dashboards[..k], p.spec.dashboards[k..];
    assert p.spec.dashboards == a + b;
    FindPrefix(a, b, "service-overview");
    FindInserted(a, d, b, "service-overview");
  }

  /** For one: an empty service-overview in front of a covering one turns the clause from pass to fail. */
  lemma PrependingDashboardHurts(p: Pack)
    requires p.spec.slis != [] && OverviewBindsAll(p)
    ensures !OverviewBindsAll(WithDashboard(p, Dashboard("service-overview", "", "", map[], []), 0))
  {
    var empty := Dashboard("service-overview", "", "", map[], []);
    InsertingDashboard(p, empty, 0);
    assert !Binds(empty, p.spec.slis[0]);
  }
}

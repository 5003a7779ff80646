/** Plan building: a pack becomes per-tool intents (internal/operator/plan/plan.go:19-257). */
module Planner {
  import opened Wrappers
  import opened Lists
  import opened Manifest
  import R = Refs

  datatype AlertRule = AlertRule(
    alert: string, expr: string, wait: string, severity: string,
    labels: map<string, string>, annotations: map<string, string>)

  datatype DashboardRef = DashboardRef(id: string, source: string, template: string, params: Fields)

  /** A receiver or a processor: its name and its whole configuration. */
  datatype Stage = Stage(name: string, config: Fields)

  datatype PrometheusIntent = PrometheusIntent(
    groupName: string, recordingRules: seq<RecordingRule>, alertRules: seq<AlertRule>)

  datatype GrafanaIntent = GrafanaIntent(folder: string, dashboards: seq<DashboardRef>)

  datatype OTelIntent = OTelIntent(
    semconv: string, required: seq<string>, receivers: seq<Stage>, processors: seq<Stage>,
    exporters: Exporters)

  datatype AzureCall = AzureCall(provider: string, pipeline: string, branch: string, payload: Fields)

  datatype Plan = Plan(
    pack: string, version: string, service: string, target: Target, hash: string,
    prometheus: PrometheusIntent, grafana: GrafanaIntent, otel: OTelIntent,
    azure: Option<AzureCall>)

  // ----- what is planned -----

  function PlanRule(p: Pack): RecordingRule -> RecordingRule {
    (rr: RecordingRule) => rr.(labels := map["pack" := p.name, "service" := p.service] + rr.labels)
  }

  /** One burn-rate window together with the SLO reference it belongs to. */
  datatype Burn = Burn(slo: string, window: BurnWindow)

  function BurnOf(slo: string): BurnWindow -> Burn {
    w => Burn(slo, w)
  }

  function BurnsOf(b: BurnRateAlert): seq<Burn> {
    Map(BurnOf(b.slo), b.windows)
  }

  /** All windows of the policy, alert by alert. */
  function Burns(p: Pack): seq<Burn> {
    FlatMap(BurnsOf, p.spec.policy.burnRateAlerts)
  }

  function Rate(slo: string, window: string, factor: string): string {
    "burn_rate{slo=\"" + slo + "\",window=\"" + window + "\"} > " + factor
  }

  function AlertFor(p: Pack, b: Burn): AlertRule {
    var w := b.window;
    AlertRule(
      R.PlanAlertName(b.slo, w),
      Rate(b.slo, w.short, w.factor) + " and " + Rate(b.slo, w.long, w.factor),
      w.short,
      w.severity,
      map["pack" := p.name, "service" := p.service, "slo" := b.slo, "severity" := w.severity],
      map["summary" := "SLO " + b.slo + " burn rate exceeded (" + w.short + "/" + w.long + ")",
          "description" := "Burn rate factor " + w.factor + " over short=" + w.short
                           + " and long=" + w.long + " windows."])
  }

  function PlanAlert(p: Pack): Burn -> AlertRule {
    (b: Burn) => AlertFor(p, b)
  }

  function PlanDashboard(d: Dashboard): DashboardRef {
    DashboardRef(d.id, d.source, d.template, d.params)
  }

  function PlanStage(config: Fields): Stage {
    Stage(StringField(config, "name"), config)
  }

  function PlanPrometheus(p: Pack): PrometheusIntent {
    PrometheusIntent(p.service, Map(PlanRule(p), p.spec.recordingRules), Map(PlanAlert(p), Burns(p)))
  }

  function PlanGrafana(p: Pack): GrafanaIntent {
    GrafanaIntent(p.service, Map(PlanDashboard, p.spec.dashboards))
  }

  function PlanOTel(p: Pack): OTelIntent {
    OTelIntent(p.spec.otel.semconv, p.spec.otel.required,
               Map(PlanStage, p.spec.pipelines.receivers),
               Map(PlanStage, p.spec.pipelines.processors),
               p.spec.pipelines.exporters)
  }

  function EnvironmentsJson(p: Pack): Json {
    if p.environments == None then JNull else JArray(Map(StringJson, p.environments.value))
  }

  function StringJson(s: string): Json {
    JString(s)
  }

  function PlanAzure(p: Pack, ref: AzureRef): AzureCall {
    AzureCall(ref.provider, ref.pipeline, ref.branch,
      map["pack" := JString(p.name), "version" := JString(p.version), "service" := JString(p.service),
          "environments" := EnvironmentsJson(p), "criticality" := JString(p.criticality),
          "effectiveSpec" := p.raw])
  }

  /** The plan before its hash is computed. */
  function Intents(p: Pack, target: Target, azure: Option<AzureRef>): Plan {
    Plan(p.name, p.version, p.service, target, "", PlanPrometheus(p), PlanGrafana(p), PlanOTel(p),
         if target == TARGET_AZURE && azure.Some? then Some(PlanAzure(p, azure.value)) else None)
  }

  // ----- the builders -----

  /** `cloneLabels`: the pack's own labels, overridden by the rule's, in any map order. */
  method CloneLabels(labels: map<string, string>, p: Pack) returns (out: map<string, string>)
    ensures out == map["pack" := p.name, "service" := p.service] + labels
  {
    out := map["pack" := p.name, "service" := p.service];
    ghost var base := out;
    var keys := labels.Keys;
    while keys != {}
      invariant keys <= labels.Keys
      invariant out == base + (map k | k in labels && k !in keys :: labels[k])
    {
      var k :| k in keys;
      out := out[k := labels[k]];
      keys := keys - {k};
    }
    assert (map k | k in labels && k !in keys :: labels[k]) == labels;
  }

  method BuildRules(p: Pack) returns (rules: seq<RecordingRule>)
    ensures rules == Map(PlanRule(p), p.spec.recordingRules)
  {
    rules := [];
    for i := 0 to |p.spec.recordingRules|
      invariant rules == Map(PlanRule(p), p.spec.recordingRules[..i])
    {
      var rr := p.spec.recordingRules[i];
      var labels := CloneLabels(rr.labels, p);
      rules := rules + [RecordingRule(rr.name, rr.expr, labels)];
    }
    assert p.spec.recordingRules[..|p.spec.recordingRules|] == p.spec.recordingRules;
  }

  /** The inner loop over the windows of one burn-rate alert. */
  method AppendWindows(p: Pack, b: BurnRateAlert, earlier: seq<AlertRule>)
    returns (alerts: seq<AlertRule>)
    ensures alerts == earlier + Map(PlanAlert(p), BurnsOf(b))
  {
    alerts := earlier;
    for j := 0 to |b.windows|
      invariant alerts == earlier + Map(PlanAlert(p), BurnsOf(b)[..j])
    {
      assert BurnsOf(b)[..j + 1] == BurnsOf(b)[..j] + [Burn(b.slo, b.windows[j])];
      alerts := alerts + [AlertFor(p, Burn(b.slo, b.windows[j]))];
    }
    assert BurnsOf(b)[..|b.windows|] == BurnsOf(b);
  }

  method BuildPrometheus(p: Pack) returns (out: PrometheusIntent)
    ensures out == PlanPrometheus(p)
  {
    var rules := BuildRules(p);
    var burns := p.spec.policy.burnRateAlerts;
    var alerts: seq<AlertRule> := [];
    for i := 0 to |burns|
      invariant alerts == Map(PlanAlert(p), FlatMap(BurnsOf, burns[..i]))
    {
      alerts := AppendWindows(p, burns[i], alerts);
      FlatMapStep(BurnsOf, burns, i);
      MapConcat(PlanAlert(p), FlatMap(BurnsOf, burns[..i]), BurnsOf(burns[i]));
    }
    assert burns[..|burns|] == burns;
    out := PrometheusIntent(p.service, rules, alerts);
  }

  method BuildGrafana(p: Pack) returns (out: GrafanaIntent)
    ensures out == PlanGrafana(p)
  {
    var dashboards: seq<DashboardRef> := [];
    for i := 0 to |p.spec.dashboards|
      invariant dashboards == Map(PlanDashboard, p.spec.dashboards[..i])
    {
      var d := p.spec.dashboards[i];
      dashboards := dashboards + [DashboardRef(d.id, d.source, d.template, d.params)];
    }
    assert p.spec.dashboards[..|p.spec.dashboards|] == p.spec.dashboards;
    out := GrafanaIntent(p.service, dashboards);
  }

  method BuildStages(configs: seq<Fields>) returns (stages: seq<Stage>)
    ensures stages == Map(PlanStage, configs)
  {
    stages := [];
    for i := 0 to |configs|
      invariant stages == Map(PlanStage, configs[..i])
    {
      stages := stages + [Stage(StringField(configs[i], "name"), configs[i])];
    }
    assert configs[..|configs|] == configs;
  }

  method BuildOTel(p: Pack) returns (out: OTelIntent)
    ensures out == PlanOTel(p)
  {
    var receivers := BuildStages(p.spec.pipelines.receivers);
    var processors := BuildStages(p.spec.pipelines.processors);
    out := OTelIntent(p.spec.otel.semconv, p.spec.otel.required, receivers, processors,
                      p.spec.pipelines.exporters);
  }

  // ----- names and order of the planned alerts -----

  /** A planned alert name with underscore-free windows decodes from the right. */
  lemma AlertNameDecodes(a: string, s: string, l: string, a': string, s': string, l': string)
    requires '_' !in s && '_' !in l && '_' !in s' && '_' !in l'
    requires R.AlertName(a, s, l) == R.AlertName(a', s', l')
    ensures a == a' && s == s' && l == l'
  {
    var x, y := a + "_burn_" + s, a' + "_burn_" + s';
    assert R.AlertName(a, s, l) == x + "_" + l && R.AlertName(a', s', l') == y + "_" + l';
    LastSegment(x, l, y, l');
    assert x == a + "_burn" + "_" + s && y == a' + "_burn" + "_" + s';
    LastSegment(a + "_burn", s, a' + "_burn", s');
    assert (a + "_burn")[..|a|] == a && (a' + "_burn")[..|a'|] == a';
  }

  lemma LastSegment(x: string, l: string, y: string, l': string)
    requires '_' !in l && '_' !in l'
    requires x + "_" + l == y + "_" + l'
    ensures x == y && l == l'
  {
    var z := x + "_" + l;
    assert z[|x|] == '_' && forall k | |x| < k < |z| :: z[k] == l[k - |x| - 1] && z[k] != '_';
    assert z == y + "_" + l';
    assert z[|y|] == '_' && forall k | |y| < k < |z| :: z[k] == l'[k - |y| - 1] && z[k] != '_';
    assert |x| == |y|;
    assert z[..|x|] == x && z[..|y|] == y;
    assert z[|x| + 1..] == l && z[|y| + 1..] == l';
  }

  lemma SameSlo(slo: string, s: string, l: string, s': string, l': string)
    ensures R.AlertName(slo, s, l) == R.AlertName(slo, s', l') <==> s + "_" + l == s' + "_" + l'
  {
    var x, y := s + "_" + l, s' + "_" + l';
    var head := slo + "_burn_";
    assert R.AlertName(slo, s, l) == head + x && R.AlertName(slo, s', l') == head + y;
    assert (head + x)[|head|..] == x && (head + y)[|head|..] == y;
  }

  lemma OnlyUnderscore(s: string, l: string, s': string, l': string)
    requires '_' !in s && '_' !in l && s + "_" + l == s' + "_" + l'
    ensures s == s' && l == l'
  {
    var z := s + "_" + l;
    assert z[|s|] == '_';
    assert forall k | 0 <= k < |s| :: z[k] == s[k] && z[k] != '_';
    assert forall k | |s| < k < |z| :: z[k] == l[k - |s| - 1] && z[k] != '_';
    assert z == s' + "_" + l';
    assert z[|s'|] == '_';
    assert |s| == |s'|;
    assert z[..|s|] == s && z[..|s'|] == s';
    assert z[|s| + 1..] == l && z[|s'| + 1..] == l';
  }

  /** Another pair of windows with the same name, when one of the texts holds an underscore. */
  lemma UnderscoreMoves(s: string, l: string) returns (s': string, l': string)
    requires '_' in s || '_' in l
    ensures s + "_" + l == s' + "_" + l' && s != s'
  {
    if '_' in s {
      var i :| 0 <= i < |s| && s[i] == '_';
      s', l' := s[..i], s[i + 1..] + "_" + l;
      assert s == s' + "_" + s[i + 1..];
    } else {
      var i :| 0 <= i < |l| && l[i] == '_';
      s', l' := s + "_" + l[..i], l[i + 1..];
      assert l == l[..i] + "_" + l';
    }
  }

  /** Under one SLO, an alert name stands for one pair of windows exactly when neither holds an underscore. */
  lemma WindowsDecodeExactly(slo: string, s: string, l: string)
    ensures (forall s', l' | R.AlertName(slo, s', l') == R.AlertName(slo, s, l) :: s' == s && l' == l)
       <==> '_' !in s && '_' !in l
  {
    if '_' !in s && '_' !in l {
      forall s', l' | R.AlertName(slo, s', l') == R.AlertName(slo, s, l)
        ensures s' == s && l' == l
      {
        SameSlo(slo, s, l, s', l');
        OnlyUnderscore(s, l, s', l');
      }
    } else {
      var s', l' := UnderscoreMoves(s, l);
      SameSlo(slo, s, l, s', l');
      assert R.AlertName(slo, s', l') == R.AlertName(slo, s, l);
    }
  }

  /** The planner's alert names are the ones `PlannedAlertNames` lists. */
  lemma PlannedNames(p: Pack)
    ensures (set a | a in PlanPrometheus(p).alertRules :: a.alert) == R.PlannedAlertNames(p)
  {
    var burns, alerts := Burns(p), PlanPrometheus(p).alertRules;
    forall name
      ensures (exists a | a in alerts :: a.alert == name) <==> name in R.PlannedAlertNames(p)
    {
      if a :| a in alerts && a.alert == name {
        var i :| 0 <= i < |alerts| && alerts[i] == a;
        assert burns[i] in burns;
        BurnMember(p, burns[i]);
      }
      if name in R.PlannedAlertNames(p) {
        var b, w :| b in p.spec.policy.burnRateAlerts && w in b.windows && R.PlanAlertName(b.slo, w) == name;
        MemberBurn(p, b, w);
        var i :| 0 <= i < |burns| && burns[i] == Burn(b.slo, w);
        assert alerts[i].alert == name;
        assert alerts[i] in alerts;
      }
    }
  }

  lemma BurnMember(p: Pack, burn: Burn)
    requires burn in Burns(p)
    ensures exists b | b in p.spec.policy.burnRateAlerts :: b.slo == burn.slo && burn.window in b.windows
  {
    FlatMapMember(BurnsOf, p.spec.policy.burnRateAlerts, burn);
    var b :| b in p.spec.policy.burnRateAlerts && burn in BurnsOf(b);
    var i :| 0 <= i < |BurnsOf(b)| && BurnsOf(b)[i] == burn;
    assert b.windows[i] == burn.window;
  }

  lemma MemberBurn(p: Pack, b: BurnRateAlert, w: BurnWindow)
    requires b in p.spec.policy.burnRateAlerts && w in b.windows
    ensures Burn(b.slo, w) in Burns(p)
  {
    var i :| 0 <= i < |b.windows| && b.windows[i] == w;
    assert BurnsOf(b)[i] == Burn(b.slo, w);
    FlatMapMember(BurnsOf, p.spec.policy.burnRateAlerts, Burn(b.slo, w));
  }

  /** Linter and planner agree on the alert set of a pack with plain names throughout. */
  lemma LinterKnowsPlannedAlerts(p: Pack)
    requires R.PlainNames(p)
    ensures R.KnownAlerts(p) == set a | a in PlanPrometheus(p).alertRules :: a.alert
  {
    R.NameSetsAgree(p);
    PlannedNames(p);
  }
}

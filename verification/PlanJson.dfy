/**
 The JSON documents the plan's sections encode to, field tag by field tag
 (internal/operator/plan/plan.go:37-111): `omitempty` drops empty texts and maps, and a slice
 built by appending to nil encodes as null when nothing was appended.
 */
module PlanJson {
  import opened Wrappers
  import opened Lists
  import opened Manifest
  import opened Planner

  function OmitText(key: string, s: string): Fields {
    if s == "" then map[] else map[key := JString(s)]
  }

  function OmitObject(key: string, m: Fields): Fields {
    if m == map[] then map[] else map[key := JObject(m)]
  }

  function Texts(m: map<string, string>): Fields {
    map k | k in m :: JString(m[k])
  }

  function ListJson(items: seq<Json>): Json {
    if items == [] then JNull else JArray(items)
  }

  function RuleJson(r: RecordingRule): Json {
    JObject(map["name" := JString(r.name), "expr" := JString(r.expr)]
            + OmitObject("labels", Texts(r.labels)))
  }

  function AlertJson(a: AlertRule): Json {
    JObject(map["alert" := JString(a.alert), "expr" := JString(a.expr), "severity" := JString(a.severity)]
            + OmitText("for", a.wait)
            + OmitObject("labels", Texts(a.labels))
            + OmitObject("annotations", Texts(a.annotations)))
  }

  function DashboardJson(d: DashboardRef): Json {
    JObject(map["id" := JString(d.id)] + OmitText("source", d.source)
            + OmitText("template", d.template) + OmitObject("params", d.params))
  }

  function StageJson(s: Stage): Json {
    JObject(map["name" := JString(s.name)] + OmitObject("config", s.config))
  }

  function PrometheusJson(i: PrometheusIntent): Json {
    JObject(map["groupName" := JString(i.groupName),
                "recordingRules" := ListJson(Map(RuleJson, i.recordingRules)),
                "alertRules" := ListJson(Map(AlertJson, i.alertRules))])
  }

  function GrafanaJson(i: GrafanaIntent): Json {
    JObject(map["folder" := JString(i.folder),
                "dashboards" := ListJson(Map(DashboardJson, i.dashboards))])
  }

  function OmitExporter(key: string, e: Option<Fields>): Fields {
    if e == None then map[] else OmitObject(key, e.value)
  }

  function ExportersJson(e: Exporters): Json {
    JObject(OmitExporter("metrics", e.metrics) + OmitExporter("logs", e.logs)
            + OmitExporter("traces", e.traces))
  }

  function OTelJson(i: OTelIntent): Json {
    JObject(map["semconv" := JString(i.semconv),
                "requiredAttributes" := ListJson(Map(StringJson, i.required)),
                "receivers" := ListJson(Map(StageJson, i.receivers)),
                "processors" := ListJson(Map(StageJson, i.processors)),
                "exporters" := ExportersJson(i.exporters)])
  }

  function AzureJson(c: AzureCall): Json {
    JObject(map["provider" := JString(c.provider), "pipeline" := JString(c.pipeline),
                "payload" := JObject(c.payload)] + OmitText("branch", c.branch))
  }

  /** Exporters as the encoding sees them: an empty map is an absent one. */
  function WireExporter(e: Option<Fields>): Option<Fields> {
    if e == Some(map[]) then None else e
  }

  function Wire(e: Exporters): Exporters {
    Exporters(WireExporter(e.metrics), WireExporter(e.logs), WireExporter(e.traces))
  }

  // ----- the encodings lose nothing else -----

  lemma ListJsonInjective(a: seq<Json>, b: seq<Json>)
    requires ListJson(a) == ListJson(b)
    ensures a == b
  {
  }

  lemma MapInjective<T(!new), U>(f: T -> U, a: seq<T>, b: seq<T>)
    requires forall x, y :: f(x) == f(y) ==> x == y
    requires Map(f, a) == Map(f, b)
    ensures a == b
  {
    assert |a| == |b|;
    forall i | 0 <= i < |a|
      ensures a[i] == b[i]
    {
      assert Map(f, a)[i] == Map(f, b)[i];
    }
  }

  lemma TextsInjective(a: map<string, string>, b: map<string, string>)
    requires Texts(a) == Texts(b)
    ensures a == b
  {
    assert a.Keys == Texts(a).Keys == b.Keys;
    forall k | k in a
      ensures a[k] == b[k]
    {
      assert Texts(a)[k] == JString(a[k]);
    }
  }

  /** What `omitempty` left under a key determines the text. */
  lemma OmitTextInjective(key: string, a: string, b: string)
    requires OmitText(key, a) == OmitText(key, b)
    ensures a == b
  {
    assert a != "" ==> key in OmitText(key, a) && OmitText(key, a)[key] == JString(a);
    assert b != "" ==> key in OmitText(key, b);
  }

  lemma OmitObjectInjective(key: string, a: Fields, b: Fields)
    requires OmitObject(key, a) == OmitObject(key, b)
    ensures a == b
  {
    assert a != map[] ==> key in OmitObject(key, a) && OmitObject(key, a)[key] == JObject(a);
    assert b != map[] ==> key in OmitObject(key, b);
  }

  /** The entries of a document under one key. */
  function At(m: Fields, key: string): Fields {
    map k | k in m && k == key :: m[k]
  }

  lemma RuleJsonInjective(a: RecordingRule, b: RecordingRule)
    requires RuleJson(a) == RuleJson(b)
    ensures a == b
  {
    var f, g := RuleJson(a).fields, RuleJson(b).fields;
    assert f["name"] == JString(a.name) && g["name"] == JString(b.name);
    assert f["expr"] == JString(a.expr) && g["expr"] == JString(b.expr);
    assert At(f, "labels") == OmitObject("labels", Texts(a.labels));
    assert At(g, "labels") == OmitObject("labels", Texts(b.labels));
    OmitObjectInjective("labels", Texts(a.labels), Texts(b.labels));
    TextsInjective(a.labels, b.labels);
  }

  lemma AlertJsonTexts(a: AlertRule)
    ensures var f := AlertJson(a).fields;
            && "alert" in f && f["alert"] == JString(a.alert)
            && "expr" in f && f["expr"] == JString(a.expr)
            && "severity" in f && f["severity"] == JString(a.severity)
  {
  }

  lemma AlertJsonWait(a: AlertRule)
    ensures At(AlertJson(a).fields, "for") == OmitText("for", a.wait)
  {
  }

  lemma AlertJsonLabels(a: AlertRule)
    ensures At(AlertJson(a).fields, "labels") == OmitObject("labels", Texts(a.labels))
  {
  }

  lemma AlertJsonAnnotations(a: AlertRule)
    ensures At(AlertJson(a).fields, "annotations") == OmitObject("annotations", Texts(a.annotations))
  {
  }

  lemma AlertJsonInjective(a: AlertRule, b: AlertRule)
    requires AlertJson(a) == AlertJson(b)
    ensures a == b
  {
    AlertJsonTexts(a);
    AlertJsonTexts(b);
    AlertJsonWait(a);
    AlertJsonWait(b);
    AlertJsonLabels(a);
    AlertJsonLabels(b);
    AlertJsonAnnotations(a);
    AlertJsonAnnotations(b);
    OmitTextInjective("for", a.wait, b.wait);
    OmitObjectInjective("labels", Texts(a.labels), Texts(b.labels));
    OmitObjectInjective("annotations", Texts(a.annotations), Texts(b.annotations));
    TextsInjective(a.labels, b.labels);
    TextsInjective(a.annotations, b.annotations);
  }

  lemma DashboardJsonTexts(d: DashboardRef)
    ensures var f := DashboardJson(d).fields;
            && "id" in f && f["id"] == JString(d.id)
            && At(f, "source") == OmitText("source", d.source)
            && At(f, "template") == OmitText("template", d.template)
  {
  }

  lemma DashboardJsonParams(d: DashboardRef)
    ensures At(DashboardJson(d).fields, "params") == OmitObject("params", d.params)
  {
  }

  lemma DashboardJsonInjective(a: DashboardRef, b: DashboardRef)
    requires DashboardJson(a) == DashboardJson(b)
    ensures a == b
  {
    DashboardJsonTexts(a);
    DashboardJsonTexts(b);
    DashboardJsonParams(a);
    DashboardJsonParams(b);
    OmitTextInjective("source", a.source, b.source);
    OmitTextInjective("template", a.template, b.template);
    OmitObjectInjective("params", a.params, b.params);
  }

  lemma StageJsonInjective(a: Stage, b: Stage)
    requires StageJson(a) == StageJson(b)
    ensures a == b
  {
    var f, g := StageJson(a).fields, StageJson(b).fields;
    assert f["name"] == JString(a.name) && g["name"] == JString(b.name);
    assert At(f, "config") == OmitObject("config", a.config);
    assert At(g, "config") == OmitObject("config", b.config);
    OmitObjectInjective("config", a.config, b.config);
  }

  lemma PrometheusJsonInjective(a: PrometheusIntent, b: PrometheusIntent)
    requires PrometheusJson(a) == PrometheusJson(b)
    ensures a == b
  {
    var f, g := PrometheusJson(a).fields, PrometheusJson(b).fields;
    assert f["groupName"] == g["groupName"];
    assert f["recordingRules"] == g["recordingRules"] && f["alertRules"] == g["alertRules"];
    ListJsonInjective(Map(RuleJson, a.recordingRules), Map(RuleJson, b.recordingRules));
    ListJsonInjective(Map(AlertJson, a.alertRules), Map(AlertJson, b.alertRules));
    forall x, y | RuleJson(x) == RuleJson(y)
      ensures x == y
    {
      RuleJsonInjective(x, y);
    }
    forall x, y | AlertJson(x) == AlertJson(y)
      ensures x == y
    {
      AlertJsonInjective(x, y);
    }
    MapInjective(RuleJson, a.recordingRules, b.recordingRules);
    MapInjective(AlertJson, a.alertRules, b.alertRules);
  }

  lemma GrafanaJsonInjective(a: GrafanaIntent, b: GrafanaIntent)
    requires GrafanaJson(a) == GrafanaJson(b)
    ensures a == b
  {
    var f, g := GrafanaJson(a).fields, GrafanaJson(b).fields;
    assert f["folder"] == g["folder"] && f["dashboards"] == g["dashboards"];
    ListJsonInjective(Map(DashboardJson, a.dashboards), Map(DashboardJson, b.dashboards));
    forall x, y | DashboardJson(x) == DashboardJson(y)
      ensures x == y
    {
      DashboardJsonInjective(x, y);
    }
    MapInjective(DashboardJson, a.dashboards, b.dashboards);
  }

  lemma ExportersJsonParts(e: Exporters)
    ensures var f := ExportersJson(e).fields;
            && At(f, "metrics") == OmitExporter("metrics", e.metrics)
            && At(f, "logs") == OmitExporter("logs", e.logs)
            && At(f, "traces") == OmitExporter("traces", e.traces)
  {
  }

  lemma OmitExporterInjective(key: string, a: Option<Fields>, b: Option<Fields>)
    ensures OmitExporter(key, a) == OmitExporter(key, b) <==> WireExporter(a) == WireExporter(b)
  {
    var x := if a == None then map[] else a.value;
    var y := if b == None then map[] else b.value;
    if OmitExporter(key, a) == OmitExporter(key, b) {
      OmitObjectInjective(key, x, y);
    }
  }

  /** Exporters encode alike exactly when they agree up to empty against absent. */
  lemma ExportersJsonExact(a: Exporters, b: Exporters)
    ensures ExportersJson(a) == ExportersJson(b) <==> Wire(a) == Wire(b)
  {
    ExportersJsonParts(a);
    ExportersJsonParts(b);
    OmitExporterInjective("metrics", a.metrics, b.metrics);
    OmitExporterInjective("logs", a.logs, b.logs);
    OmitExporterInjective("traces", a.traces, b.traces);
  }

  lemma OTelJsonInjective(a: OTelIntent, b: OTelIntent)
    ensures OTelJson(a) == OTelJson(b)
       <==> a.(exporters := Wire(a.exporters)) == b.(exporters := Wire(b.exporters))
  {
    ExportersJsonExact(a.exporters, b.exporters);
    if OTelJson(a) == OTelJson(b) {
      var f, g := OTelJson(a).fields, OTelJson(b).fields;
      assert f["semconv"] == g["semconv"] && f["exporters"] == g["exporters"];
      assert f["requiredAttributes"] == g["requiredAttributes"];
      assert f["receivers"] == g["receivers"] && f["processors"] == g["processors"];
      ListJsonInjective(Map(StringJson, a.required), Map(StringJson, b.required));
      ListJsonInjective(Map(StageJson, a.receivers), Map(StageJson, b.receivers));
      ListJsonInjective(Map(StageJson, a.processors), Map(StageJson, b.processors));
      forall x, y | StageJson(x) == StageJson(y)
        ensures x == y
      {
        StageJsonInjective(x, y);
      }
      MapInjective(StringJson, a.required, b.required);
      MapInjective(StageJson, a.receivers, b.receivers);
      MapInjective(StageJson, a.processors, b.processors);
    }
  }

  lemma AzureJsonInjective(a: AzureCall, b: AzureCall)
    requires AzureJson(a) == AzureJson(b)
    ensures a == b
  {
    var f, g := AzureJson(a).fields, AzureJson(b).fields;
    assert f["provider"] == g["provider"] && f["pipeline"] == g["pipeline"];
    assert f["payload"] == g["payload"];
    assert At(f, "branch") == OmitText("branch", a.branch);
    assert At(g, "branch") == OmitText("branch", b.branch);
    OmitTextInjective("branch", a.branch, b.branch);
  }
}

/** What each rendered object holds, key by key (internal/operator/render/render.go:27-220). */
module RenderLaws {
  import opened Wrappers
  import opened Manifest
  import opened Planner
  import opened Render
  import opened JsonLaws

  /** The value under a list of nested keys. */
  function Lookup(m: Fields, path: seq<string>): Option<Json>
    requires path != []
    decreases |path|
  {
    if path[0] !in m then None
    else if |path| == 1 then Some(m[path[0]])
    else if m[path[0]].JObject? then Lookup(m[path[0]].fields, path[1..])
    else None
  }

  /** Identity and labels every rendered object of a plan shares. */
  predicate Identified(o: Object, pl: Plan, namespace: string, apiVersion: string, kind: string, name: string) {
    && o.apiVersion == apiVersion && o.kind == kind && o.name == name && o.namespace == namespace && o.owner == ""
    && o.labels.Keys == {"app.kubernetes.io/managed-by", "observability.platform/pack",
                         "observability.platform/pack-version", "observability.platform/pack-service",
                         "observability.platform/effective-hash"}
    && o.labels["app.kubernetes.io/managed-by"] == "observability-pack-operator"
    && o.labels["observability.platform/pack"] == pl.pack
    && o.labels["observability.platform/pack-version"] == pl.version
    && o.labels["observability.platform/pack-service"] == pl.service
    && o.labels["observability.platform/effective-hash"] == (if |pl.hash| <= 16 then pl.hash else pl.hash[..16])
  }

  lemma PrometheusIdentity(pl: Plan, namespace: string)
    ensures Identified(PrometheusObject(pl, namespace), pl, namespace,
                       "monitoring.coreos.com/v1", "PrometheusRule", "pack-" + pl.pack)
  {
  }

  lemma OTelIdentity(pl: Plan, namespace: string)
    ensures Identified(OTelObject(pl, namespace), pl, namespace,
                       "opentelemetry.io/v1beta1", "OpenTelemetryCollector", "pack-" + pl.pack + "-gateway")
  {
  }

  lemma DashboardIdentity(pl: Plan, namespace: string, i: nat)
    requires i < |pl.grafana.dashboards|
    ensures |GrafanaObjects(pl, namespace)| == |pl.grafana.dashboards|
    ensures Identified(GrafanaObjects(pl, namespace)[i], pl, namespace, "grafana.integreatly.org/v1beta1",
                       "GrafanaDashboard", "pack-" + pl.pack + "-" + pl.grafana.dashboards[i].id)
  {
  }

  // ----- Prometheus -----

  lemma RecordTags(r: RecordingRule)
    ensures var f := RecordEntry(r).fields;
            && f.Keys <= {"record", "expr", "labels"}
            && HoldsText(f, "record", r.name) && HoldsText(f, "expr", r.expr) && HoldsTextsIfAny(f, "labels", r.labels)
  {
    OmittedTexts("labels", r.labels);
  }

  lemma AlertTags(a: AlertRule)
    ensures HoldsText(AlertEntry(a).fields, "alert", a.alert) && HoldsText(AlertEntry(a).fields, "expr", a.expr)
  {
  }

  lemma AlertWaitTag(a: AlertRule)
    ensures HoldsTextIfAny(AlertEntry(a).fields, "for", a.wait)
  {
  }

  lemma AlertKeys(a: AlertRule)
    ensures AlertEntry(a).fields.Keys <= {"alert", "expr", "for", "labels", "annotations"}
  {
    OmittedText("for", a.wait);
    OmittedTexts("labels", a.labels);
    OmittedTexts("annotations", a.annotations);
  }

  lemma AlertMapTags(a: AlertRule)
    ensures var f := AlertEntry(a).fields;
            HoldsTextsIfAny(f, "labels", a.labels) && HoldsTextsIfAny(f, "annotations", a.annotations)
  {
    OmittedText("for", a.wait);
    OmittedTexts("labels", a.labels);
    OmittedTexts("annotations", a.annotations);
  }

  /** One group, named as planned, holding the recording rules and then the alerts. */
  lemma RuleGroup(pl: Plan, namespace: string)
    ensures var spec := PrometheusObject(pl, namespace).spec;
            && spec.Keys == {"groups"} && spec["groups"].JArray? && |spec["groups"].items| == 1
            && spec["groups"].items[0].JObject?
            && var g := spec["groups"].items[0].fields;
               var n := |pl.prometheus.recordingRules|;
               && g.Keys == {"name", "rules"} && HoldsText(g, "name", pl.prometheus.groupName)
               && g["rules"].JArray? && |g["rules"].items| == n + |pl.prometheus.alertRules|
               && (forall k | 0 <= k < n :: g["rules"].items[k] == RecordEntry(pl.prometheus.recordingRules[k]))
               && (forall k | 0 <= k < |pl.prometheus.alertRules| ::
                     g["rules"].items[n + k] == AlertEntry(pl.prometheus.alertRules[k]))
  {
  }

  // ----- Grafana -----

  /** A source wins over a template, and only a template carries parameters. */
  lemma DashboardFields(pl: Plan, namespace: string, i: nat)
    requires i < |pl.grafana.dashboards|
    ensures |GrafanaObjects(pl, namespace)| == |pl.grafana.dashboards|
    ensures var d, f := pl.grafana.dashboards[i], GrafanaObjects(pl, namespace)[i].spec;
            && f.Keys <= {"folder", "url", "template", "params"}
            && HoldsText(f, "folder", pl.grafana.folder)
            && HoldsTextIfAny(f, "url", d.source)
            && HoldsTextIfAny(f, "template", if d.source == "" then d.template else "")
            && HoldsObjectIfAny(f, "params", if d.source == "" && d.template != "" then d.params else map[])
  {
  }

  // ----- OpenTelemetry -----

  /** Each name of a section holds the last stage of that name, without its name field; nothing else is there. */
  ghost predicate SectionOf(o: Object, section: string, stages: seq<Stage>) {
    var found := Lookup(o.spec, ["config", section]);
    && found.Some? && found.value.JObject?
    && forall name :: LastStage(found.value.fields, name, stages)
  }

  predicate LastStage(f: Fields, name: string, stages: seq<Stage>) {
    && (name in f <==> name != "" && exists s | s in stages :: s.name == name)
    && forall i | 0 <= i < |stages| && name != "" && stages[i].name == name
                  && (forall j | i < j < |stages| :: stages[j].name != name)
         :: name in f && f[name].JObject?
            && f[name].fields == (map k | k in stages[i].config && k != "name" :: stages[i].config[k])
  }

  lemma StageMapHolds(stages: seq<Stage>, name: string)
    ensures LastStage(StageMap(stages), name, stages)
  {
    StageMapLastWins(stages, name);
    forall i | 0 <= i < |stages| && stages[i].name == name && (forall j | i < j < |stages| :: stages[j].name != name)
      ensures LastNamed(stages, name) == Some(stages[i])
    {
      assert stages[i] in stages;
    }
    forall config: Fields
      ensures StripName(config) == map k | k in config && k != "name" :: config[k]
    {
    }
  }

  lemma ConfigLookup(pl: Plan, namespace: string)
    ensures var o := OTelObject(pl, namespace);
            && Lookup(o.spec, ["config", "receivers"]) == Some(JObject(StageMap(pl.otel.receivers)))
            && Lookup(o.spec, ["config", "processors"]) == Some(JObject(StageMap(pl.otel.processors)))
            && Lookup(o.spec, ["config", "exporters"]) == Some(JObject(ExporterMap(pl.otel.exporters)))
  {
    var config := CollectorConfig(pl.otel);
    assert ["config", "receivers"][1..] == ["receivers"];
    assert ["config", "processors"][1..] == ["processors"];
    assert ["config", "exporters"][1..] == ["exporters"];
    assert OTelObject(pl, namespace).spec["config"] == JObject(config);
  }

  /** The stages of the collector. */
  lemma CollectorStages(pl: Plan, namespace: string)
    ensures SectionOf(OTelObject(pl, namespace), "receivers", pl.otel.receivers)
    ensures SectionOf(OTelObject(pl, namespace), "processors", pl.otel.processors)
  {
    ConfigLookup(pl, namespace);
    forall name
      ensures LastStage(StageMap(pl.otel.receivers), name, pl.otel.receivers)
      ensures LastStage(StageMap(pl.otel.processors), name, pl.otel.processors)
    {
      StageMapHolds(pl.otel.receivers, name);
      StageMapHolds(pl.otel.processors, name);
    }
  }

  predicate HoldsExporter(f: Fields, key: string, e: Option<Fields>) {
    if e == None then key !in f else key in f && f[key] == JObject(e.value)
  }

  lemma ExporterMapHolds(e: Exporters)
    ensures HoldsExporter(ExporterMap(e), "metrics", e.metrics)
    ensures HoldsExporter(ExporterMap(e), "logs", e.logs)
    ensures HoldsExporter(ExporterMap(e), "traces", e.traces)
  {
  }

  lemma ExporterMapKeys(e: Exporters)
    ensures ExporterMap(e).Keys <= {"metrics", "logs", "traces"}
  {
  }

  /** Its exporters: each signal that is present, empty or not. */
  lemma CollectorExporters(pl: Plan, namespace: string)
    ensures var found := Lookup(OTelObject(pl, namespace).spec, ["config", "exporters"]);
            && found.Some? && found.value.JObject? && found.value.fields.Keys <= {"metrics", "logs", "traces"}
            && HoldsExporter(found.value.fields, "metrics", pl.otel.exporters.metrics)
            && HoldsExporter(found.value.fields, "logs", pl.otel.exporters.logs)
            && HoldsExporter(found.value.fields, "traces", pl.otel.exporters.traces)
  {
    ConfigLookup(pl, namespace);
    ExporterMapHolds(pl.otel.exporters);
    ExporterMapKeys(pl.otel.exporters);
  }

  /** Its mode and resource attributes. */
  lemma CollectorAttributes(pl: Plan, namespace: string)
    ensures var spec := OTelObject(pl, namespace).spec;
            && spec.Keys == {"mode", "config", "resourceAttributes"} && HoldsText(spec, "mode", "deployment")
            && spec["resourceAttributes"].JObject?
            && var f := spec["resourceAttributes"].fields;
               && f.Keys == {"required", "semconv"} && HoldsText(f, "semconv", pl.otel.semconv)
               && f["required"].JArray? && |f["required"].items| == |pl.otel.required|
               && (forall k | 0 <= k < |pl.otel.required| :: f["required"].items[k] == JString(pl.otel.required[k]))
  {
  }
}

/** The wire tags: which key of which document holds which field (internal/operator/plan/plan.go:22-111, 263-272). */
module JsonLaws {
  import opened Wrappers
  import opened Manifest
  import opened Planner
  import opened PlanJson
  import H = PlanHash

  predicate HoldsText(f: Fields, key: string, s: string) {
    key in f && f[key] == JString(s)
  }

  /** An `omitempty` text. */
  predicate HoldsTextIfAny(f: Fields, key: string, s: string) {
    if s == "" then key !in f else HoldsText(f, key, s)
  }

  /** An `omitempty` object. */
  predicate HoldsObjectIfAny(f: Fields, key: string, m: Fields) {
    if m == map[] then key !in f else key in f && f[key] == JObject(m)
  }

  /** An `omitempty` map of texts. */
  predicate HoldsTextsIfAny(f: Fields, key: string, m: map<string, string>) {
    if m == map[] then key !in f
    else
      && key in f && f[key].JObject? && f[key].fields.Keys == m.Keys
      && forall k | k in m :: f[key].fields[k] == JString(m[k])
  }

  /** A list built by appending: null when nothing was appended. */
  predicate HoldsList(f: Fields, key: string, n: nat) {
    key in f && if n == 0 then f[key] == JNull else f[key].JArray? && |f[key].items| == n
  }

  lemma OmittedText(key: string, s: string)
    ensures HoldsTextIfAny(OmitText(key, s), key, s) && OmitText(key, s).Keys <= {key}
  {
  }

  lemma OmittedObject(key: string, m: Fields)
    ensures HoldsObjectIfAny(OmitObject(key, m), key, m) && OmitObject(key, m).Keys <= {key}
  {
  }

  lemma OmittedTexts(key: string, m: map<string, string>)
    ensures HoldsTextsIfAny(OmitObject(key, Texts(m)), key, m) && OmitObject(key, Texts(m)).Keys <= {key}
  {
    if m != map[] {
      var k :| k in m;
      assert k in Texts(m);
    }
  }

  lemma RuleTags(r: RecordingRule)
    ensures var f := RuleJson(r).fields;
            && f.Keys <= {"name", "expr", "labels"}
            && HoldsText(f, "name", r.name) && HoldsText(f, "expr", r.expr) && HoldsTextsIfAny(f, "labels", r.labels)
  {
    OmittedTexts("labels", r.labels);
  }

  lemma AlertTextTags(a: AlertRule)
    ensures var f := AlertJson(a).fields;
            HoldsText(f, "alert", a.alert) && HoldsText(f, "expr", a.expr) && HoldsText(f, "severity", a.severity)
  {
  }

  lemma AlertWaitTag(a: AlertRule)
    ensures HoldsTextIfAny(AlertJson(a).fields, "for", a.wait)
  {
  }

  lemma AlertKeys(a: AlertRule)
    ensures AlertJson(a).fields.Keys <= {"alert", "expr", "for", "severity", "labels", "annotations"}
  {
    OmittedText("for", a.wait);
    OmittedTexts("labels", a.labels);
    OmittedTexts("annotations", a.annotations);
  }

  lemma AlertMapTags(a: AlertRule)
    ensures var f := AlertJson(a).fields;
            HoldsTextsIfAny(f, "labels", a.labels) && HoldsTextsIfAny(f, "annotations", a.annotations)
  {
    OmittedText("for", a.wait);
    OmittedTexts("labels", a.labels);
    OmittedTexts("annotations", a.annotations);
  }

  lemma DashboardTags(d: DashboardRef)
    ensures var f := DashboardJson(d).fields;
            && f.Keys <= {"id", "source", "template", "params"}
            && HoldsText(f, "id", d.id) && HoldsTextIfAny(f, "source", d.source)
            && HoldsTextIfAny(f, "template", d.template) && HoldsObjectIfAny(f, "params", d.params)
  {
    OmittedText("source", d.source);
    OmittedText("template", d.template);
    OmittedObject("params", d.params);
  }

  lemma StageTags(s: Stage)
    ensures var f := StageJson(s).fields;
            && f.Keys <= {"name", "config"}
            && HoldsText(f, "name", s.name) && HoldsObjectIfAny(f, "config", s.config)
  {
    OmittedObject("config", s.config);
  }

  lemma PrometheusTags(i: PrometheusIntent)
    ensures var f := PrometheusJson(i).fields;
            && f.Keys == {"groupName", "recordingRules", "alertRules"} && HoldsText(f, "groupName", i.groupName)
            && HoldsList(f, "recordingRules", |i.recordingRules|) && HoldsList(f, "alertRules", |i.alertRules|)
            && (forall k | 0 <= k < |i.recordingRules| :: f["recordingRules"].items[k] == RuleJson(i.recordingRules[k]))
            && (forall k | 0 <= k < |i.alertRules| :: f["alertRules"].items[k] == AlertJson(i.alertRules[k]))
  {
  }

  lemma GrafanaTags(i: GrafanaIntent)
    ensures var f := GrafanaJson(i).fields;
            && f.Keys == {"folder", "dashboards"} && HoldsText(f, "folder", i.folder)
            && HoldsList(f, "dashboards", |i.dashboards|)
            && (forall k | 0 <= k < |i.dashboards| :: f["dashboards"].items[k] == DashboardJson(i.dashboards[k]))
  {
  }

  lemma OTelTags(i: OTelIntent)
    ensures var f := OTelJson(i).fields;
            && f.Keys == {"semconv", "requiredAttributes", "receivers", "processors", "exporters"}
            && HoldsText(f, "semconv", i.semconv) && HoldsList(f, "requiredAttributes", |i.required|)
            && HoldsList(f, "receivers", |i.receivers|) && HoldsList(f, "processors", |i.processors|)
            && (forall k | 0 <= k < |i.required| :: f["requiredAttributes"].items[k] == JString(i.required[k]))
            && (forall k | 0 <= k < |i.receivers| :: f["receivers"].items[k] == StageJson(i.receivers[k]))
            && (forall k | 0 <= k < |i.processors| :: f["processors"].items[k] == StageJson(i.processors[k]))
            && f["exporters"] == ExportersJson(i.exporters)
  {
  }

  lemma ExporterTags(e: Exporters)
    ensures var f := ExportersJson(e).fields;
            && f.Keys <= {"metrics", "logs", "traces"}
            && HoldsObjectIfAny(f, "metrics", if e.metrics.Some? then e.metrics.value else map[])
            && HoldsObjectIfAny(f, "logs", if e.logs.Some? then e.logs.value else map[])
            && HoldsObjectIfAny(f, "traces", if e.traces.Some? then e.traces.value else map[])
  {
  }

  lemma AzureTags(c: AzureCall)
    ensures var f := AzureJson(c).fields;
            && f.Keys <= {"provider", "pipeline", "branch", "payload"}
            && HoldsText(f, "provider", c.provider) && HoldsText(f, "pipeline", c.pipeline)
            && HoldsTextIfAny(f, "branch", c.branch) && "payload" in f && f["payload"] == JObject(c.payload)
  {
    OmittedText("branch", c.branch);
  }

  /** The hashed document: the head of the plan as texts, its sections as base64 of their encoding. */
  lemma DocumentTags(lib: H.Library, pl: Plan)
    ensures var f := H.Document(lib, pl).fields;
            && f.Keys == {"Pack", "Version", "Service", "Target", "Prometheus", "Grafana", "OTel", "Azure"}
            && HoldsText(f, "Pack", pl.pack) && HoldsText(f, "Version", pl.version)
            && HoldsText(f, "Service", pl.service) && HoldsText(f, "Target", pl.target)
            && f["Prometheus"].JString? && f["Grafana"].JString? && f["OTel"].JString?
            && (f["Azure"] == JNull <==> pl.azure == None)
  {
  }
}

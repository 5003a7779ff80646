/** Rendering a plan into cluster objects (internal/operator/render/render.go). */
module Render {
  import opened Wrappers
  import opened Lists
  import opened Manifest
  import opened Planner
  import H = PlanHash
  import J = PlanJson
  import S = Sorting

  const PROMETHEUS_KIND := "PrometheusRule"
  const GRAFANA_KIND := "GrafanaDashboard"
  const OTEL_KIND := "OpenTelemetryCollector"

  /** `owner` is the owner reference's uid; the renderer sets none. */
  datatype Object = Object(
    apiVersion: string, kind: string, name: string, namespace: string,
    labels: map<string, string>, spec: Fields, owner: string)

  /** What identifies an object in the cluster. */
  datatype Key = Key(kind: string, namespace: string, name: string)

  function KeyOf(o: Object): Key {
    Key(o.kind, o.namespace, o.name)
  }

  function Shorten(hash: string): string {
    if |hash| > 16 then hash[..16] else hash
  }

  function OwnerLabels(pl: Plan): map<string, string> {
    map["app.kubernetes.io/managed-by" := "observability-pack-operator",
        "observability.platform/pack" := pl.pack,
        "observability.platform/pack-version" := pl.version,
        "observability.platform/pack-service" := pl.service,
        "observability.platform/effective-hash" := Shorten(pl.hash)]
  }

  // ----- Prometheus -----

  function RecordEntry(r: RecordingRule): Json {
    JObject(map["record" := JString(r.name), "expr" := JString(r.expr)]
            + J.OmitObject("labels", J.Texts(r.labels)))
  }

  function AlertEntry(a: AlertRule): Json {
    JObject(map["alert" := JString(a.alert), "expr" := JString(a.expr)]
            + J.OmitText("for", a.wait)
            + J.OmitObject("labels", J.Texts(a.labels))
            + J.OmitObject("annotations", J.Texts(a.annotations)))
  }

  /** The rule list: recording rules, then alerts, each in plan order. */
  function Rules(i: PrometheusIntent): (rules: seq<Json>)
    ensures |rules| == |i.recordingRules| + |i.alertRules|
  {
    Map(RecordEntry, i.recordingRules) + Map(AlertEntry, i.alertRules)
  }

  function PrometheusObject(pl: Plan, namespace: string): Object {
    Object("monitoring.coreos.com/v1", PROMETHEUS_KIND, "pack-" + pl.pack, namespace, OwnerLabels(pl),
           map["groups" := JArray([JObject(map["name" := JString(pl.prometheus.groupName),
                                               "rules" := JArray(Rules(pl.prometheus))])])], "")
  }

  method RenderRules(i: PrometheusIntent) returns (rules: seq<Json>)
    ensures rules == Rules(i)
  {
    var records := RenderRecords(i.recordingRules);
    var alerts := RenderAlerts(i.alertRules);
    rules := records + alerts;
  }

  method RenderAlerts(rules: seq<AlertRule>) returns (entries: seq<Json>)
    ensures entries == Map(AlertEntry, rules)
  {
    entries := [];
    for i := 0 to |rules|
      invariant entries == Map(AlertEntry, rules[..i])
    {
      var entry := RenderAlert(rules[i]);
      entries := entries + [entry];
    }
    assert rules[..|rules|] == rules;
  }

  method RenderRecords(recording: seq<RecordingRule>) returns (rules: seq<Json>)
    ensures rules == Map(RecordEntry, recording)
  {
    rules := [];
    for i := 0 to |recording|
      invariant rules == Map(RecordEntry, recording[..i])
    {
      var entry := RenderRecord(recording[i]);
      rules := rules + [entry];
    }
    assert recording[..|recording|] == recording;
  }

  method Prometheus(pl: Plan, namespace: string) returns (o: Object)
    ensures o == PrometheusObject(pl, namespace)
  {
    var rules := RenderRules(pl.prometheus);
    o := Object("monitoring.coreos.com/v1", PROMETHEUS_KIND, "pack-" + pl.pack, namespace, OwnerLabels(pl),
                map["groups" := JArray([JObject(map["name" := JString(pl.prometheus.groupName),
                                                    "rules" := JArray(rules)])])], "");
  }

  method RenderRecord(r: RecordingRule) returns (entry: Json)
    ensures entry == RecordEntry(r)
  {
    var fields: Fields := map["record" := JString(r.name), "expr" := JString(r.expr)];
    TextsEmpty(r.labels);
    if |r.labels| > 0 {
      fields := fields + map["labels" := JObject(J.Texts(r.labels))];
    }
    assert fields == map["record" := JString(r.name), "expr" := JString(r.expr)]
                     + J.OmitObject("labels", J.Texts(r.labels));
    entry := JObject(fields);
  }

  method RenderAlert(a: AlertRule) returns (entry: Json)
    ensures entry == AlertEntry(a)
  {
    var fields: Fields := map["alert" := JString(a.alert), "expr" := JString(a.expr)];
    if a.wait != "" {
      fields := fields + map["for" := JString(a.wait)];
    }
    assert fields == map["alert" := JString(a.alert), "expr" := JString(a.expr)] + J.OmitText("for", a.wait);
    TextsEmpty(a.labels);
    TextsEmpty(a.annotations);
    fields := fields + J.OmitObject("labels", J.Texts(a.labels));
    fields := fields + J.OmitObject("annotations", J.Texts(a.annotations));
    entry := JObject(fields);
  }

  lemma TextsEmpty(m: map<string, string>)
    ensures J.Texts(m) == map[] <==> |m| == 0
  {
    if |m| == 0 {
      assert m == map[];
    } else {
      var k :| k in m;
      assert k in J.Texts(m);
    }
  }

  // ----- Grafana -----

  function DashboardSpec(folder: string, d: DashboardRef): Fields {
    map["folder" := JString(folder)] +
    (if d.source != "" then map["url" := JString(d.source)]
     else if d.template != "" then map["template" := JString(d.template)] + J.OmitObject("params", d.params)
     else map[])
  }

  function DashboardObject(pl: Plan, namespace: string): DashboardRef -> Object {
    (d: DashboardRef) =>
      Object("grafana.integreatly.org/v1beta1", GRAFANA_KIND, "pack-" + pl.pack + "-" + d.id,
             namespace, OwnerLabels(pl), DashboardSpec(pl.grafana.folder, d), "")
  }

  function GrafanaObjects(pl: Plan, namespace: string): seq<Object> {
    Map(DashboardObject(pl, namespace), pl.grafana.dashboards)
  }

  method Grafana(pl: Plan, namespace: string) returns (out: seq<Object>)
    ensures out == GrafanaObjects(pl, namespace)
  {
    out := [];
    var dashboards := pl.grafana.dashboards;
    for i := 0 to |dashboards|
      invariant out == Map(DashboardObject(pl, namespace), dashboards[..i])
    {
      var d := dashboards[i];
      var spec: Fields := map["folder" := JString(pl.grafana.folder)];
      if d.source != "" {
        spec := spec + map["url" := JString(d.source)];
      } else if d.template != "" {
        spec := spec + (map["template" := JString(d.template)] + J.OmitObject("params", d.params));
      }
      assert spec == DashboardSpec(pl.grafana.folder, d);
      out := out + [Object("grafana.integreatly.org/v1beta1", GRAFANA_KIND, "pack-" + pl.pack + "-" + d.id,
                           namespace, OwnerLabels(pl), spec, "")];
    }
    assert dashboards[..|dashboards|] == dashboards;
  }

  // ----- OpenTelemetry -----

  /** `stripName`. */
  function StripName(config: Fields): Fields {
    config - {"name"}
  }

  /** The stages by name: a later stage of the same name wins, a nameless one is dropped. */
  function StageMap(stages: seq<Stage>): Fields {
    if stages == [] then map[]
    else
      var last := stages[|stages| - 1];
      var earlier := StageMap(stages[..|stages| - 1]);
      if last.name == "" then earlier else earlier[last.name := JObject(StripName(last.config))]
  }

  function ExporterEntry(key: string, e: Option<Fields>): Fields {
    if e == None then map[] else map[key := JObject(e.value)]
  }

  function ExporterMap(e: Exporters): Fields {
    ExporterEntry("metrics", e.metrics) + ExporterEntry("logs", e.logs) + ExporterEntry("traces", e.traces)
  }

  /** The collector configuration of an intent. */
  function CollectorConfig(i: OTelIntent): Fields {
    map["receivers" := JObject(StageMap(i.receivers)), "processors" := JObject(StageMap(i.processors)),
        "exporters" := JObject(ExporterMap(i.exporters))]
  }

  function OTelObject(pl: Plan, namespace: string): Object {
    Object("opentelemetry.io/v1beta1", OTEL_KIND, "pack-" + pl.pack + "-gateway", namespace, OwnerLabels(pl),
           map["mode" := JString("deployment"),
               "config" := JObject(CollectorConfig(pl.otel)),
               "resourceAttributes" := JObject(map["required" := JArray(Map(StringJson, pl.otel.required)),
                                                   "semconv" := JString(pl.otel.semconv)])], "")
  }

  /** `stripName`'s loop over the map, in any order. */
  method StripNameLoop(config: Fields) returns (out: Fields)
    ensures out == StripName(config)
  {
    out := map[];
    var keys := config.Keys;
    while keys != {}
      invariant keys <= config.Keys
      invariant out == map k | k in config && k !in keys && k != "name" :: config[k]
    {
      var k :| k in keys;
      keys := keys - {k};
      if k == "name" {
        continue;
      }
      out := out[k := config[k]];
    }
  }

  method CollectStages(stages: seq<Stage>) returns (out: Fields)
    ensures out == StageMap(stages)
  {
    out := map[];
    for i := 0 to |stages|
      invariant out == StageMap(stages[..i])
    {
      assert stages[..i + 1][..i] == stages[..i];
      if stages[i].name == "" {
        continue;
      }
      var config := StripNameLoop(stages[i].config);
      out := out[stages[i].name := JObject(config)];
    }
    assert stages[..|stages|] == stages;
  }

  method OTel(pl: Plan, namespace: string) returns (o: Object)
    ensures o == OTelObject(pl, namespace)
  {
    var receivers := CollectStages(pl.otel.receivers);
    var processors := CollectStages(pl.otel.processors);
    var exporters := ExporterMap(pl.otel.exporters);
    o := Object("opentelemetry.io/v1beta1", OTEL_KIND, "pack-" + pl.pack + "-gateway", namespace, OwnerLabels(pl),
                map["mode" := JString("deployment"),
                    "config" := JObject(map["receivers" := JObject(receivers),
                                            "processors" := JObject(processors),
                                            "exporters" := JObject(exporters)]),
                    "resourceAttributes" := JObject(map["required" := JArray(Map(StringJson, pl.otel.required)),
                                                        "semconv" := JString(pl.otel.semconv)])], "");
  }

  /** The last stage that carries a name. */
  function LastNamed(stages: seq<Stage>, name: string): (s: Option<Stage>)
    ensures s == None <==> forall x | x in stages :: x.name != name
    ensures s.Some? ==> exists i | 0 <= i < |stages| ::
              stages[i] == s.value && s.value.name == name && forall j | i < j < |stages| :: stages[j].name != name
  {
    if stages == [] then None
    else
      var n := |stages| - 1;
      assert stages == stages[..n] + [stages[n]];
      if stages[n].name == name then Some(stages[n]) else LastNamed(stages[..n], name)
  }

  /** Last wins: a non-empty name holds the stripped configuration of the last stage that carries it. */
  lemma {:induction false} StageMapLastWins(stages: seq<Stage>, name: string)
    ensures name in StageMap(stages) <==> name != "" && LastNamed(stages, name).Some?
    ensures name in StageMap(stages) ==>
              StageMap(stages)[name] == JObject(StripName(LastNamed(stages, name).value.config))
  {
    if stages != [] {
      StageMapLastWins(stages[..|stages| - 1], name);
    }
  }

  // ----- the whole rendering -----

  /** The objects of an in-cluster pass, in the order they are applied. */
  function Objects(pl: Plan, namespace: string): (os: seq<Object>)
    ensures os != []
  {
    [PrometheusObject(pl, namespace)] + GrafanaObjects(pl, namespace) + [OTelObject(pl, namespace)]
  }

  method RenderObjects(pl: Plan, namespace: string) returns (objs: seq<Object>)
    ensures objs == Objects(pl, namespace)
  {
    var prometheus := Prometheus(pl, namespace);
    objs := [prometheus];
    var dashboards := Grafana(pl, namespace);
    objs := objs + dashboards;
    var collector := OTel(pl, namespace);
    objs := objs + [collector];
  }

  /** Distinct dashboard ids are what keeps the rendered objects apart, and nothing less. */
  lemma RenderedKeysDistinct(pl: Plan, namespace: string)
    ensures Distinct(Map(KeyOf, Objects(pl, namespace))) <==> Distinct(Map(H.DashboardKey, pl.grafana.dashboards))
  {
    var keys, ids := Map(KeyOf, Objects(pl, namespace)), Map(H.DashboardKey, pl.grafana.dashboards);
    RenderedKeys(pl, namespace);
    if Distinct(keys) {
      forall i, j | 0 <= i < j < |ids|
        ensures ids[i] != ids[j]
      {
        assert keys[i + 1] != keys[j + 1];
      }
    }
    if Distinct(ids) {
      forall i, j | 0 <= i < j < |keys|
        ensures keys[i] != keys[j]
      {
        if 0 < i && j < |keys| - 1 {
          assert ids[i - 1] != ids[j - 1];
          SamePrefix("pack-" + pl.pack + "-", ids[i - 1], ids[j - 1]);
        }
      }
    }
  }

  lemma RenderedKeys(pl: Plan, namespace: string)
    ensures var keys, ids := Map(KeyOf, Objects(pl, namespace)), Map(H.DashboardKey, pl.grafana.dashboards);
            && |keys| == |ids| + 2
            && keys[0].kind == PROMETHEUS_KIND && keys[|ids| + 1].kind == OTEL_KIND
            && forall i | 0 < i <= |ids| ::
                 keys[i] == Key(GRAFANA_KIND, namespace, "pack-" + pl.pack + "-" + ids[i - 1])
  {
    var os, ds := Objects(pl, namespace), pl.grafana.dashboards;
    assert forall i | 0 < i <= |ds| :: os[i] == DashboardObject(pl, namespace)(ds[i - 1]);
  }

  lemma SamePrefix(x: string, a: string, b: string)
    ensures x + a == x + b <==> a == b
  {
    assert (x + a)[|x|..] == a && (x + b)[|x|..] == b;
  }

  function WindowCount(burns: seq<BurnRateAlert>): nat {
    if burns == [] then 0 else WindowCount(burns[..|burns| - 1]) + |burns[|burns| - 1].windows|
  }

  lemma {:induction false} BurnCount(burns: seq<BurnRateAlert>)
    ensures |FlatMap(BurnsOf, burns)| == WindowCount(burns)
  {
    if burns != [] {
      BurnCount(burns[..|burns| - 1]);
    }
  }

  /** One rendered rule for each recording rule and for each burn-rate window. */
  lemma RuleCount(p: Pack)
    ensures |Rules(PlanPrometheus(p))| == |p.spec.recordingRules| + WindowCount(p.spec.policy.burnRateAlerts)
  {
    BurnCount(p.spec.policy.burnRateAlerts);
  }

  /** The cluster after upserting objects one by one. */
  function Upserted(cluster: map<Key, Object>, os: seq<Object>): map<Key, Object> {
    if os == [] then cluster
    else Upserted(cluster, os[..|os| - 1])[KeyOf(os[|os| - 1]) := os[|os| - 1]]
  }

  /** The last object of a list under a key. */
  function LastWith(os: seq<Object>, k: Key): Option<Object> {
    if os == [] then None
    else if KeyOf(os[|os| - 1]) == k then Some(os[|os| - 1])
    else LastWith(os[..|os| - 1], k)
  }

  /** After upserting, a key holds the last object upserted under it, or what it held before. */
  lemma {:induction false} UpsertedLookup(cluster: map<Key, Object>, os: seq<Object>, k: Key)
    ensures var after := Upserted(cluster, os);
            match LastWith(os, k)
            case Some(o) => k in after && after[k] == o
            case None => (k in after <==> k in cluster) && (k in cluster ==> after[k] == cluster[k])
  {
    if os != [] {
      UpsertedLookup(cluster, os[..|os| - 1], k);
    }
  }

  lemma {:induction false} LastWithMember(os: seq<Object>, k: Key)
    ensures LastWith(os, k) == None <==> forall o | o in os :: KeyOf(o) != k
    ensures LastWith(os, k).Some? ==> LastWith(os, k).value in os && KeyOf(LastWith(os, k).value) == k
  {
    if os != [] {
      var n := |os| - 1;
      LastWithMember(os[..n], k);
      assert os == os[..n] + [os[n]];
    }
  }

  /** Applying the same objects again changes nothing, even when some share a key. */
  lemma UpsertIdempotent(cluster: map<Key, Object>, os: seq<Object>)
    ensures Upserted(Upserted(cluster, os), os) == Upserted(cluster, os)
  {
    var once := Upserted(cluster, os);
    var twice := Upserted(once, os);
    forall k
      ensures k in twice <==> k in once
      ensures k in once ==> twice[k] == once[k]
    {
      UpsertedLookup(cluster, os, k);
      UpsertedLookup(once, os, k);
    }
  }

  lemma DistinctKeysSingle(os: seq<Object>, x: Object, y: Object)
    requires Distinct(Map(KeyOf, os)) && x in os && y in os && KeyOf(x) == KeyOf(y)
    ensures x == y
  {
    var i :| 0 <= i < |os| && os[i] == x;
    var j :| 0 <= j < |os| && os[j] == y;
    assert Map(KeyOf, os)[i] == Map(KeyOf, os)[j];
  }

  /** Every object is in the cluster, as it was sent. */
  predicate Intact(os: seq<Object>, cluster: map<Key, Object>) {
    forall o | o in os :: KeyOf(o) in cluster && cluster[KeyOf(o)] == o
  }

  /** Objects that share a key are the same object. */
  predicate KeysDetermine(os: seq<Object>) {
    forall x, y | x in os && y in os && KeyOf(x) == KeyOf(y) :: x == y
  }

  /** Upserting objects, in any order, leaves all of them intact exactly when keys determine them. */
  lemma IntactExactly(os: seq<Object>, order: seq<Object>, cluster: map<Key, Object>)
    requires multiset(order) == multiset(os)
    ensures Intact(os, Upserted(cluster, order)) <==> KeysDetermine(os)
  {
    S.SameMembers(order, os);
    if KeysDetermine(os) {
      forall o | o in os
        ensures KeyOf(o) in Upserted(cluster, order) && Upserted(cluster, order)[KeyOf(o)] == o
      {
        LastWithMember(order, KeyOf(o));
        UpsertedLookup(cluster, order, KeyOf(o));
      }
    }
  }

  lemma DistinctDetermine(os: seq<Object>)
    requires Distinct(Map(KeyOf, os))
    ensures KeysDetermine(os)
  {
    forall x, y | x in os && y in os && KeyOf(x) == KeyOf(y)
      ensures x == y
    {
      DistinctKeysSingle(os, x, y);
    }
  }

  /** Keys that no upserted object has are untouched. */
  lemma UpsertElsewhere(os: seq<Object>, order: seq<Object>, cluster: map<Key, Object>, k: Key)
    requires multiset(order) == multiset(os) && k !in Map(KeyOf, os)
    ensures k in Upserted(cluster, order) <==> k in cluster
    ensures k in cluster ==> Upserted(cluster, order)[k] == cluster[k]
  {
    S.SameMembers(order, os);
    LastWithMember(order, k);
    assert forall i | 0 <= i < |os| :: Map(KeyOf, os)[i] == KeyOf(os[i]);
    UpsertedLookup(cluster, order, k);
  }

  /**
   The rendered cluster agrees with the plan: with distinct dashboard ids, upserting the
   objects in any order leaves each of them present and intact and touches nothing else.
   */
  lemma RenderedClusterIntact(pl: Plan, namespace: string, cluster: map<Key, Object>, order: seq<Object>)
    requires Distinct(Map(H.DashboardKey, pl.grafana.dashboards))
    requires multiset(order) == multiset(Objects(pl, namespace))
    ensures forall o | o in Objects(pl, namespace) ::
              KeyOf(o) in Upserted(cluster, order) && Upserted(cluster, order)[KeyOf(o)] == o
    ensures forall k | k !in Map(KeyOf, Objects(pl, namespace)) ::
              (k in Upserted(cluster, order) <==> k in cluster)
              && (k in cluster ==> Upserted(cluster, order)[k] == cluster[k])
  {
    var os := Objects(pl, namespace);
    RenderedKeysDistinct(pl, namespace);
    DistinctDetermine(os);
    IntactExactly(os, order, cluster);
    forall k | k !in Map(KeyOf, os)
      ensures (k in Upserted(cluster, order) <==> k in cluster)
      ensures k in cluster ==> Upserted(cluster, order)[k] == cluster[k]
    {
      UpsertElsewhere(os, order, cluster, k);
    }
  }

  /** Dashboards that share an id render to the same object. */
  predicate DashboardsAgree(pl: Plan) {
    forall d, e | d in pl.grafana.dashboards && e in pl.grafana.dashboards && d.id == e.id ::
      DashboardSpec(pl.grafana.folder, d) == DashboardSpec(pl.grafana.folder, e)
  }

  lemma RenderedOrigin(pl: Plan, namespace: string, o: Object)
    ensures o in Objects(pl, namespace) <==>
              || o == PrometheusObject(pl, namespace) || o == OTelObject(pl, namespace)
              || exists d | d in pl.grafana.dashboards :: o == DashboardObject(pl, namespace)(d)
  {
    var ds, gs := pl.grafana.dashboards, GrafanaObjects(pl, namespace);
    if o in gs {
      var i :| 0 <= i < |gs| && gs[i] == o;
      assert ds[i] in ds;
    }
    if d :| d in ds && o == DashboardObject(pl, namespace)(d) {
      var i :| 0 <= i < |ds| && ds[i] == d;
      assert gs[i] in gs;
    }
  }

  /** The key and the object of one dashboard against another. */
  lemma DashboardKeys(pl: Plan, namespace: string, d: DashboardRef, e: DashboardRef)
    ensures var x, y := DashboardObject(pl, namespace)(d), DashboardObject(pl, namespace)(e);
            && x.kind == GRAFANA_KIND
            && (KeyOf(x) == KeyOf(y) <==> d.id == e.id)
            && (x == y <==> d.id == e.id && DashboardSpec(pl.grafana.folder, d) == DashboardSpec(pl.grafana.folder, e))
  {
    SamePrefix("pack-" + pl.pack + "-", d.id, e.id);
  }

  lemma AgreeingDetermine(pl: Plan, namespace: string)
    requires DashboardsAgree(pl)
    ensures KeysDetermine(Objects(pl, namespace))
  {
    var os := Objects(pl, namespace);
    forall x, y | x in os && y in os && KeyOf(x) == KeyOf(y)
      ensures x == y
    {
      RenderedOrigin(pl, namespace, x);
      RenderedOrigin(pl, namespace, y);
      if x.kind == GRAFANA_KIND {
        var d :| d in pl.grafana.dashboards && x == DashboardObject(pl, namespace)(d);
        var e :| e in pl.grafana.dashboards && y == DashboardObject(pl, namespace)(e);
        DashboardKeys(pl, namespace, d, e);
      }
    }
  }

  lemma DetermineAgree(pl: Plan, namespace: string)
    requires KeysDetermine(Objects(pl, namespace))
    ensures DashboardsAgree(pl)
  {
    forall d, e | d in pl.grafana.dashboards && e in pl.grafana.dashboards && d.id == e.id
      ensures DashboardSpec(pl.grafana.folder, d) == DashboardSpec(pl.grafana.folder, e)
    {
      RenderedOrigin(pl, namespace, DashboardObject(pl, namespace)(d));
      RenderedOrigin(pl, namespace, DashboardObject(pl, namespace)(e));
      DashboardKeys(pl, namespace, d, e);
    }
  }

  /**
   Exactly when all rendered objects survive: for every plan, cluster and upsert order, each of
   them is present and intact if and only if dashboards that share an id render alike.
   */
  lemma RenderedIntactExactly(pl: Plan, namespace: string, cluster: map<Key, Object>, order: seq<Object>)
    requires multiset(order) == multiset(Objects(pl, namespace))
    ensures Intact(Objects(pl, namespace), Upserted(cluster, order)) <==> DashboardsAgree(pl)
  {
    IntactExactly(Objects(pl, namespace), order, cluster);
    if DashboardsAgree(pl) {
      AgreeingDetermine(pl, namespace);
    }
    if KeysDetermine(Objects(pl, namespace)) {
      DetermineAgree(pl, namespace);
    }
  }

  // ----- what equal digests say about the rendering -----

  lemma ExporterMapParts(e: Exporters)
    ensures var f := ExporterMap(e);
            && J.At(f, "metrics") == ExporterEntry("metrics", e.metrics)
            && J.At(f, "logs") == ExporterEntry("logs", e.logs)
            && J.At(f, "traces") == ExporterEntry("traces", e.traces)
  {
  }

  lemma ExporterEntryInjective(key: string, a: Option<Fields>, b: Option<Fields>)
    requires ExporterEntry(key, a) == ExporterEntry(key, b)
    ensures a == b
  {
    assert a.Some? ==> key in ExporterEntry(key, a) && ExporterEntry(key, a)[key] == JObject(a.value);
    assert b.Some? ==> key in ExporterEntry(key, b) && ExporterEntry(key, b)[key] == JObject(b.value);
  }

  /** The rendering, unlike the digest, tells an empty exporter from an absent one. */
  lemma ExporterMapInjective(a: Exporters, b: Exporters)
    ensures ExporterMap(a) == ExporterMap(b) <==> a == b
  {
    if ExporterMap(a) == ExporterMap(b) {
      ExporterMapParts(a);
      ExporterMapParts(b);
      ExporterEntryInjective("metrics", a.metrics, b.metrics);
      ExporterEntryInjective("logs", a.logs, b.logs);
      ExporterEntryInjective("traces", a.traces, b.traces);
    }
  }

  /** No exporter is present and empty. */
  predicate NoEmptyExporter(e: Exporters) {
    e.metrics != Some(map[]) && e.logs != Some(map[]) && e.traces != Some(map[])
  }

  lemma ConfigExactly(a: OTelIntent, b: OTelIntent)
    requires a.receivers == b.receivers && a.processors == b.processors
    ensures CollectorConfig(a) == CollectorConfig(b) <==> a.exporters == b.exporters
  {
    ExporterMapInjective(a.exporters, b.exporters);
    assert CollectorConfig(a)["exporters"] == JObject(ExporterMap(a.exporters));
    assert CollectorConfig(b)["exporters"] == JObject(ExporterMap(b.exporters));
  }

  lemma RulesSame(a: PrometheusIntent, b: PrometheusIntent)
    requires H.SamePrometheus(a, b)
    ensures multiset(Rules(a)) == multiset(Rules(b))
  {
    MapContents(RecordEntry, a.recordingRules, b.recordingRules);
    MapContents(AlertEntry, a.alertRules, b.alertRules);
  }

  lemma CollectorsSame(a: OTelIntent, b: OTelIntent)
    requires H.SameOTel(a, b)
    ensures multiset(a.required) == multiset(b.required) && a.semconv == b.semconv
    ensures CollectorConfig(a) == CollectorConfig(b) <==> a.exporters == b.exporters
    ensures NoEmptyExporter(a.exporters) && NoEmptyExporter(b.exporters) ==> CollectorConfig(a) == CollectorConfig(b)
  {
    ConfigExactly(a, b);
  }

  lemma DashboardsSame(p: Plan, q: Plan, namespace: string)
    requires OwnerLabels(p) == OwnerLabels(q) && p.pack == q.pack && H.SameGrafana(p.grafana, q.grafana)
    ensures multiset(GrafanaObjects(p, namespace)) == multiset(GrafanaObjects(q, namespace))
  {
    MapContents(DashboardObject(p, namespace), p.grafana.dashboards, q.grafana.dashboards);
    assert GrafanaObjects(q, namespace) == Map(DashboardObject(p, namespace), q.grafana.dashboards) by {
      forall d
        ensures DashboardObject(p, namespace)(d) == DashboardObject(q, namespace)(d)
      {
      }
    }
  }

  /**
   Two plans render alike: labels and rule group agree, rules, dashboard objects and required
   attributes agree up to order, and the collector configurations agree exactly when the exporters
   do, which they always do when neither plan has an exporter that is present but empty.
   */
  predicate RenderAlike(p: Plan, q: Plan, namespace: string) {
    && OwnerLabels(p) == OwnerLabels(q) && p.prometheus.groupName == q.prometheus.groupName
    && multiset(Rules(p.prometheus)) == multiset(Rules(q.prometheus))
    && multiset(GrafanaObjects(p, namespace)) == multiset(GrafanaObjects(q, namespace))
    && multiset(p.otel.required) == multiset(q.otel.required) && p.otel.semconv == q.otel.semconv
    && (CollectorConfig(p.otel) == CollectorConfig(q.otel) <==> p.otel.exporters == q.otel.exporters)
    && (NoEmptyExporter(p.otel.exporters) && NoEmptyExporter(q.otel.exporters) ==>
          CollectorConfig(p.otel) == CollectorConfig(q.otel))
  }

  lemma SameContentRender(p: Plan, q: Plan, namespace: string)
    requires H.SameContent(p, q) && p.hash == q.hash
    ensures RenderAlike(p, q, namespace)
  {
    RulesSame(p.prometheus, q.prometheus);
    DashboardsSame(p, q, namespace);
    CollectorsSame(p.otel, q.otel);
  }

  /** What an equal digest input says about the rendering. */
  lemma EqualBytesRender(lib: H.Library, p: Plan, q: Plan, namespace: string)
    requires H.Conforms(lib) && H.Preimage(lib, p) == H.Preimage(lib, q) && p.hash == q.hash
    ensures RenderAlike(p, q, namespace)
  {
    H.PreimageSound(lib, p, q);
    SameContentRender(p, q, namespace);
  }

  lemma RenderedConfig(pl: Plan, namespace: string)
    ensures var spec := OTelObject(pl, namespace).spec;
            "config" in spec && spec["config"] == JObject(CollectorConfig(pl.otel))
  {
  }

  /**
   Changing nothing but the exporters keeps the digest input exactly when the change is between
   empty and absent, and keeps the rendered collector exactly when there is no change. So an empty
   exporter, under any of the three signals, is hidden from the digest and rendered all the same.
   */
  lemma EmptyExporterHidden(lib: H.Library, pl: Plan, e: Exporters, namespace: string)
    requires H.Conforms(lib)
    ensures var other := pl.(otel := pl.otel.(exporters := e));
            && (H.Preimage(lib, other) == H.Preimage(lib, pl) <==> J.Wire(e) == J.Wire(pl.otel.exporters))
            && (OTelObject(other, namespace) == OTelObject(pl, namespace) <==> e == pl.otel.exporters)
  {
    var other := pl.(otel := pl.otel.(exporters := e));
    if H.Preimage(lib, other) == H.Preimage(lib, pl) {
      H.PreimageSound(lib, other, pl);
    }
    if J.Wire(e) == J.Wire(pl.otel.exporters) {
      J.OTelJsonInjective(H.SortedOTel(lib, other.otel), H.SortedOTel(lib, pl.otel));
      assert H.Document(lib, other) == H.Document(lib, pl);
    }
    ConfigExactly(other.otel, pl.otel);
    RenderedConfig(pl, namespace);
    RenderedConfig(other, namespace);
  }
}

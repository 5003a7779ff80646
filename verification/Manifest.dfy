/**
 The typed observability pack (internal/pack/pack.go), reduced to the fields the planner and the
 linter read. A nil Go list and an empty one are one value here, and so are a nil and an empty
 string-keyed map, except where the program tells them apart (exporters, environments).
 */
module Manifest {
  import opened Wrappers

  /** A decoded JSON value; numbers are kept as their text, nothing computes with them. */
  datatype Json =
    | JNull
    | JBool(b: bool)
    | JNumber(text: string)
    | JString(s: string)
    | JArray(items: seq<Json>)
    | JObject(fields: map<string, Json>)

  type Fields = map<string, Json>

  /** `m[key].(string)` with the zero value on a missing key or another type. */
  function StringField(m: Fields, key: string): string {
    if key in m && m[key].JString? then m[key].s else ""
  }

  datatype SLI = SLI(id: string, kind: string)

  datatype SLO = SLO(id: string, sli: string)

  /** `factor` is the text the number prints as; the program only ever prints it. */
  datatype BurnWindow = BurnWindow(short: string, long: string, factor: string, severity: string)

  datatype BurnRateAlert = BurnRateAlert(slo: string, windows: seq<BurnWindow>)

  datatype Policy = Policy(burnRateAlerts: seq<BurnRateAlert>, forecasts: seq<string>)

  datatype RecordingRule = RecordingRule(name: string, expr: string, labels: map<string, string>)

  datatype DerivedView = DerivedView(id: string, bind: string)

  datatype Dashboard = Dashboard(
    id: string, source: string, template: string, params: Fields, panelBindings: seq<string>)

  datatype Otel = Otel(
    semconv: string, required: seq<string>, languages: seq<string>, logCorrelation: bool)

  datatype Exporters = Exporters(
    metrics: Option<Fields>, logs: Option<Fields>, traces: Option<Fields>)

  datatype Pipelines = Pipelines(
    receivers: seq<Fields>, processors: seq<Fields>, exporters: Exporters)

  datatype Route = Route(severity: string, channels: seq<Fields>)

  datatype Remediation = Remediation(trigger: string, maxInvocationsPerHour: int)

  datatype Baselines = Baselines(
    mttdP50: string, mttrP50: string, mttdP95: string, mttrP95: string, regressionGate: string)

  datatype SyntheticCheck = SyntheticCheck(interval: string, otelInstrumentation: bool)

  datatype VersionSpec = VersionSpec(declared: string, min: string, max: string, gating: string)

  datatype Backend = Backend(id: string, product: string, version: Option<VersionSpec>)

  /** A signal block, a mesh component or a collection component. */
  datatype Component = Component(backend: string, product: string, version: Option<VersionSpec>)

  datatype Spec = Spec(
    otel: Otel,
    slis: seq<SLI>,
    slos: seq<SLO>,
    backends: seq<Backend>,
    environments: map<string, map<string, string>>,
    pipelines: Pipelines,
    storage: Fields,
    recordingRules: seq<RecordingRule>,
    derivedViews: seq<DerivedView>,
    dashboards: seq<Dashboard>,
    profiling: Option<Component>,
    network: Option<Component>,
    policyEngine: Option<Component>,
    mesh: seq<Component>,
    collection: seq<Component>,
    policy: Policy,
    routes: seq<Route>,
    remediation: seq<Remediation>,
    baselines: Baselines,
    chaosExperiments: seq<Fields>,
    syntheticChecks: seq<SyntheticCheck>)

  datatype Pack = Pack(
    name: string,
    version: string,
    service: string,
    environments: Option<seq<string>>,
    criticality: string,
    spec: Spec,
    raw: Json)

  /** Execution targets; the custom resource may hold any other text, or none. */
  type Target = string

  const TARGET_SKE := "ske"
  const TARGET_BARE := "bare-k8s"
  const TARGET_AZURE := "azure"

  datatype AzureRef = AzureRef(
    provider: string, organization: string, project: string, pipeline: string, branch: string,
    credentialsSecret: string)
}

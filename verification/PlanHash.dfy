/** The canonical digest of a plan and `Build` (internal/operator/plan/plan.go:113-155, 259-304). */
module PlanHash {
  import opened Wrappers
  import opened Lists
  import opened Sorting
  import opened Manifest
  import opened Planner
  import opened PlanJson
  import R = Refs

  /**
   The library calls the digest rests on: `sort.Slice` and `sort.Strings`, `json.Marshal`,
   base64 (how JSON encodes byte slices) and SHA-256 in hexadecimal.
   */
  datatype Library = Library(
    sortRules: seq<RecordingRule> -> seq<RecordingRule>,
    sortAlerts: seq<AlertRule> -> seq<AlertRule>,
    sortDashboards: seq<DashboardRef> -> seq<DashboardRef>,
    sortStrings: seq<string> -> seq<string>,
    marshal: Json -> string,
    base64: string -> string,
    sha: string -> string)

  function RuleKey(r: RecordingRule): string { r.name }

  function AlertKey(a: AlertRule): string { a.alert }

  function DashboardKey(d: DashboardRef): string { d.id }

  function TextKey(s: string): string { s }

  ghost predicate Sorts(lib: Library) {
    && SortsBy(lib.sortRules, RuleKey) && SortsBy(lib.sortAlerts, AlertKey)
    && SortsBy(lib.sortDashboards, DashboardKey) && SortsBy(lib.sortStrings, TextKey)
  }

  ghost predicate Encodes(lib: Library) {
    && (forall x, y :: lib.marshal(x) == lib.marshal(y) ==> x == y)
    && (forall x, y :: lib.base64(x) == lib.base64(y) ==> x == y)
  }

  /** The library keeps its contracts; nothing is assumed of SHA-256. */
  ghost predicate Conforms(lib: Library) {
    Sorts(lib) && Encodes(lib)
  }

  // ----- the digest -----

  function SortedPrometheus(lib: Library, i: PrometheusIntent): PrometheusIntent {
    PrometheusIntent(i.groupName, lib.sortRules(i.recordingRules), lib.sortAlerts(i.alertRules))
  }

  function SortedGrafana(lib: Library, i: GrafanaIntent): GrafanaIntent {
    GrafanaIntent(i.folder, lib.sortDashboards(i.dashboards))
  }

  function SortedOTel(lib: Library, i: OTelIntent): OTelIntent {
    i.(required := lib.sortStrings(i.required))
  }

  /** A byte-slice field of the outer document. */
  function Section(lib: Library, doc: Json): Json {
    JString(lib.base64(lib.marshal(doc)))
  }

  /** The eight fields of the outer document. */
  function Outer(pack: string, version: string, service: string, target: Target,
                 prometheus: Json, grafana: Json, otel: Json, azure: Json): Json
  {
    JObject(map["Pack" := JString(pack), "Version" := JString(version), "Service" := JString(service),
                "Target" := JString(target), "Prometheus" := prometheus, "Grafana" := grafana,
                "OTel" := otel, "Azure" := azure])
  }

  function AzureSection(lib: Library, azure: Option<AzureCall>): Json {
    if azure == None then JNull else Section(lib, AzureJson(azure.value))
  }

  /** The document whose bytes are hashed. */
  function Document(lib: Library, pl: Plan): Json {
    Outer(pl.pack, pl.version, pl.service, pl.target,
          Section(lib, PrometheusJson(SortedPrometheus(lib, pl.prometheus))),
          Section(lib, GrafanaJson(SortedGrafana(lib, pl.grafana))),
          Section(lib, OTelJson(SortedOTel(lib, pl.otel))),
          AzureSection(lib, pl.azure))
  }

  function Preimage(lib: Library, pl: Plan): string {
    lib.marshal(Document(lib, pl))
  }

  function Digest(lib: Library, pl: Plan): string {
    lib.sha(Preimage(lib, pl))
  }

  /** A plan in memory: its four sortable lists are slices the digest must leave alone. */
  class PlanObject {
    const plan: Plan
    const rules: array<RecordingRule>
    const alerts: array<AlertRule>
    const dashboards: array<DashboardRef>
    const required: array<string>

    /** The slices hold what the plan says. */
    ghost predicate Holds()
      reads rules, alerts, dashboards, required
    {
      && rules[..] == plan.prometheus.recordingRules && alerts[..] == plan.prometheus.alertRules
      && dashboards[..] == plan.grafana.dashboards && required[..] == plan.otel.required
    }

    constructor (plan: Plan)
      ensures Holds() && this.plan == plan
    {
      var r := NewSlice(plan.prometheus.recordingRules);
      var a := NewSlice(plan.prometheus.alertRules);
      var d := NewSlice(plan.grafana.dashboards);
      var q := NewSlice(plan.otel.required);
      this.plan, rules, alerts, dashboards, required := plan, r, a, d, q;
    }
  }

  method NewSlice<T>(s: seq<T>) returns (a: array<T>)
    ensures fresh(a) && a[..] == s
  {
    a := new T[|s|](i requires 0 <= i < |s| => s[i]);
  }

  /** A library sort applied in place. */
  method SortInPlace<T>(a: array<T>, sort: seq<T> -> seq<T>)
    requires |sort(a[..])| == a.Length
    modifies a
    ensures a[..] == sort(old(a[..]))
  {
    var sorted := sort(a[..]);
    for i := 0 to a.Length
      invariant a[..i] == sorted[..i]
    {
      a[i] := sorted[i];
    }
  }

  /** A copy of a slice, sorted in place: nothing but the copy is written. */
  method SortedCopy<T(!new)>(a: array<T>, sort: seq<T> -> seq<T>, ghost key: T -> string) returns (out: seq<T>)
    requires SortsBy(sort, key)
    ensures out == sort(a[..])
  {
    SameMembers(sort(a[..]), a[..]);
    var copy := NewSlice(a[..]);
    SortInPlace(copy, sort);
    out := copy[..];
  }

  /** `hashPlan`: the digest of the plan, without touching the plan's own slices. */
  method HashPlan(lib: Library, p: PlanObject) returns (h: string)
    requires Sorts(lib) && p.Holds()
    ensures h == Digest(lib, p.plan)
  {
    var pl := p.plan;
    var rules := SortedCopy(p.rules, lib.sortRules, RuleKey);
    var alerts := SortedCopy(p.alerts, lib.sortAlerts, AlertKey);
    var dashboards := SortedCopy(p.dashboards, lib.sortDashboards, DashboardKey);
    var required := SortedCopy(p.required, lib.sortStrings, TextKey);
    var prometheus := lib.marshal(PrometheusJson(PrometheusIntent(pl.prometheus.groupName, rules, alerts)));
    var grafana := lib.marshal(GrafanaJson(GrafanaIntent(pl.grafana.folder, dashboards)));
    var otel := lib.marshal(OTelJson(pl.otel.(required := required)));
    var azure := JNull;
    if pl.azure != None {
      azure := JString(lib.base64(lib.marshal(AzureJson(pl.azure.value))));
    }
    var document := Outer(pl.pack, pl.version, pl.service, pl.target, JString(lib.base64(prometheus)),
                          JString(lib.base64(grafana)), JString(lib.base64(otel)), azure);
    h := lib.sha(lib.marshal(document));
  }

  // ----- canonicity -----

  predicate SamePrometheus(a: PrometheusIntent, b: PrometheusIntent) {
    && a.groupName == b.groupName
    && multiset(a.recordingRules) == multiset(b.recordingRules)
    && multiset(a.alertRules) == multiset(b.alertRules)
  }

  predicate SameGrafana(a: GrafanaIntent, b: GrafanaIntent) {
    a.folder == b.folder && multiset(a.dashboards) == multiset(b.dashboards)
  }

  /** Receivers and processors keep their order; exporters agree up to empty against absent. */
  predicate SameOTel(a: OTelIntent, b: OTelIntent) {
    && multiset(a.required) == multiset(b.required)
    && a.(required := [], exporters := Wire(a.exporters))
       == b.(required := [], exporters := Wire(b.exporters))
  }

  /** Two plans ask for the same thing: equal up to the order of the four sorted lists. */
  predicate SameContent(p: Plan, q: Plan) {
    && p.pack == q.pack && p.version == q.version && p.service == q.service
    && p.target == q.target
    && SamePrometheus(p.prometheus, q.prometheus)
    && SameGrafana(p.grafana, q.grafana)
    && SameOTel(p.otel, q.otel)
    && p.azure == q.azure
  }

  /** In each sorted list, entries that share a name are the same entry. */
  predicate Unambiguous(p: Plan) {
    && KeyDetermines(RuleKey, p.prometheus.recordingRules)
    && KeyDetermines(AlertKey, p.prometheus.alertRules)
    && KeyDetermines(DashboardKey, p.grafana.dashboards)
  }

  /** Pairwise distinct names are the usual case. */
  lemma DistinctKeysAreUnambiguous(p: Plan)
    requires Distinct(Map(RuleKey, p.prometheus.recordingRules))
    requires Distinct(Map(AlertKey, p.prometheus.alertRules))
    requires Distinct(Map(DashboardKey, p.grafana.dashboards))
    ensures Unambiguous(p)
  {
    DistinctKeyDetermines(RuleKey, p.prometheus.recordingRules);
    DistinctKeyDetermines(AlertKey, p.prometheus.alertRules);
    DistinctKeyDetermines(DashboardKey, p.grafana.dashboards);
  }

  lemma DistinctKeyDetermines<T>(key: T -> string, s: seq<T>)
    requires Distinct(Map(key, s))
    ensures KeyDetermines(key, s)
  {
    forall x, y | x in s && y in s && key(x) == key(y)
      ensures x == y
    {
      var i :| 0 <= i < |s| && s[i] == x;
      var j :| 0 <= j < |s| && s[j] == y;
      assert Map(key, s)[i] == Map(key, s)[j];
    }
  }

  lemma SectionInjective(lib: Library, x: Json, y: Json)
    requires Encodes(lib)
    ensures Section(lib, x) == Section(lib, y) <==> x == y
  {
  }

  lemma OuterInjective(p: string, v: string, s: string, t: Target, a: Json, b: Json, c: Json, d: Json,
                       p': string, v': string, s': string, t': Target, a': Json, b': Json, c': Json, d': Json)
    requires Outer(p, v, s, t, a, b, c, d) == Outer(p', v', s', t', a', b', c', d')
    ensures p == p' && v == v' && s == s' && t == t' && a == a' && b == b' && c == c' && d == d'
  {
    var f, g := Outer(p, v, s, t, a, b, c, d).fields, Outer(p', v', s', t', a', b', c', d').fields;
    assert f["Pack"] == g["Pack"] && f["Version"] == g["Version"] && f["Service"] == g["Service"];
    assert f["Target"] == g["Target"] && f["Prometheus"] == g["Prometheus"];
    assert f["Grafana"] == g["Grafana"] && f["OTel"] == g["OTel"] && f["Azure"] == g["Azure"];
  }

  /** The sections of equal documents, of one plan or two, under one library or two. */
  lemma DocumentParts(lib: Library, p: Plan, other: Library, q: Plan)
    requires Document(lib, p) == Document(other, q)
    ensures p.pack == q.pack && p.version == q.version && p.service == q.service
    ensures p.target == q.target
    ensures Section(lib, PrometheusJson(SortedPrometheus(lib, p.prometheus)))
         == Section(other, PrometheusJson(SortedPrometheus(other, q.prometheus)))
    ensures Section(lib, GrafanaJson(SortedGrafana(lib, p.grafana)))
         == Section(other, GrafanaJson(SortedGrafana(other, q.grafana)))
    ensures Section(lib, OTelJson(SortedOTel(lib, p.otel)))
         == Section(other, OTelJson(SortedOTel(other, q.otel)))
    ensures AzureSection(lib, p.azure) == AzureSection(other, q.azure)
  {
    OuterInjective(p.pack, p.version, p.service, p.target,
                   Section(lib, PrometheusJson(SortedPrometheus(lib, p.prometheus))),
                   Section(lib, GrafanaJson(SortedGrafana(lib, p.grafana))),
                   Section(lib, OTelJson(SortedOTel(lib, p.otel))), AzureSection(lib, p.azure),
                   q.pack, q.version, q.service, q.target,
                   Section(other, PrometheusJson(SortedPrometheus(other, q.prometheus))),
                   Section(other, GrafanaJson(SortedGrafana(other, q.grafana))),
                   Section(other, OTelJson(SortedOTel(other, q.otel))), AzureSection(other, q.azure));
  }

  /** The digest's input hides nothing but order: equal inputs mean plans of equal content. */
  lemma PreimageSound(lib: Library, p: Plan, q: Plan)
    requires Conforms(lib)
    requires Preimage(lib, p) == Preimage(lib, q)
    ensures SameContent(p, q)
  {
    DocumentParts(lib, p, lib, q);
    SectionInjective(lib, PrometheusJson(SortedPrometheus(lib, p.prometheus)),
                     PrometheusJson(SortedPrometheus(lib, q.prometheus)));
    SectionInjective(lib, GrafanaJson(SortedGrafana(lib, p.grafana)), GrafanaJson(SortedGrafana(lib, q.grafana)));
    SectionInjective(lib, OTelJson(SortedOTel(lib, p.otel)), OTelJson(SortedOTel(lib, q.otel)));
    PrometheusJsonInjective(SortedPrometheus(lib, p.prometheus), SortedPrometheus(lib, q.prometheus));
    GrafanaJsonInjective(SortedGrafana(lib, p.grafana), SortedGrafana(lib, q.grafana));
    OTelJsonInjective(SortedOTel(lib, p.otel), SortedOTel(lib, q.otel));
    SortedContents(lib, p);
    SortedContents(lib, q);
    if p.azure.Some? && q.azure.Some? {
      SectionInjective(lib, AzureJson(p.azure.value), AzureJson(q.azure.value));
      AzureJsonInjective(p.azure.value, q.azure.value);
    }
  }

  lemma SortedContents(lib: Library, p: Plan)
    requires Sorts(lib)
    ensures SamePrometheus(SortedPrometheus(lib, p.prometheus), p.prometheus)
    ensures SameGrafana(SortedGrafana(lib, p.grafana), p.grafana)
    ensures SameOTel(SortedOTel(lib, p.otel), p.otel)
  {
  }

  /** Where names determine entries, content determines the digest's input. */
  lemma PreimageComplete(lib: Library, p: Plan, q: Plan)
    requires Conforms(lib) && Unambiguous(p)
    requires SameContent(p, q)
    ensures Preimage(lib, p) == Preimage(lib, q)
  {
    CanonicalOrder(lib.sortRules, RuleKey, p.prometheus.recordingRules, q.prometheus.recordingRules);
    CanonicalOrder(lib.sortAlerts, AlertKey, p.prometheus.alertRules, q.prometheus.alertRules);
    CanonicalOrder(lib.sortDashboards, DashboardKey, p.grafana.dashboards, q.grafana.dashboards);
    CanonicalOrder(lib.sortStrings, TextKey, p.otel.required, q.otel.required);
    OTelJsonInjective(SortedOTel(lib, p.otel), SortedOTel(lib, q.otel));
    assert SortedPrometheus(lib, p.prometheus) == SortedPrometheus(lib, q.prometheus);
    assert SortedGrafana(lib, p.grafana) == SortedGrafana(lib, q.grafana);
    assert OTelJson(SortedOTel(lib, p.otel)) == OTelJson(SortedOTel(lib, q.otel));
    assert Document(lib, p) == Document(lib, q);
  }

  lemma CanonicalOrder<T(!new)>(sort: seq<T> -> seq<T>, key: T -> string, a: seq<T>, b: seq<T>)
    requires SortsBy(sort, key) && KeyDetermines(key, a) && multiset(a) == multiset(b)
    ensures sort(a) == sort(b)
  {
    SameMembers(sort(a), a);
    SortUnique(key, sort(a), sort(b));
  }

  /**
   Canonical digest: for a plan whose entry names determine the entries, another plan has the
   same digest input exactly when it asks for the same thing in any order.
   */
  lemma CanonicalHash(lib: Library, p: Plan, q: Plan)
    requires Conforms(lib) && Unambiguous(p)
    ensures Preimage(lib, p) == Preimage(lib, q) <==> SameContent(p, q)
  {
    if SameContent(p, q) {
      PreimageComplete(lib, p, q);
    } else if Preimage(lib, p) == Preimage(lib, q) {
      PreimageSound(lib, p, q);
    }
  }

  /** The same library with the checksum taken away: its digest is the hashed text itself. */
  function Unhashed(lib: Library): Library {
    lib.(sha := (x: string) => x)
  }

  /** The digest is the checksum of one text, and nothing else of the plan enters it. */
  lemma DigestIsChecksum(lib: Library, p: Plan)
    ensures Digest(lib, p) == lib.sha(Digest(Unhashed(lib), p))
  {
    assert Document(Unhashed(lib), p) == Document(lib, p);
  }

  /**
   What the digest is a digest of: if the checksum never collides, an unambiguous plan shares its
   digest with exactly the plans that ask for the same thing in any order.
   */
  lemma DigestExactly(lib: Library, p: Plan, q: Plan)
    requires Conforms(lib) && Unambiguous(p)
    requires forall x, y :: lib.sha(x) == lib.sha(y) ==> x == y
    ensures Digest(lib, p) == Digest(lib, q) <==> SameContent(p, q)
  {
    CanonicalHash(lib, p, q);
  }

  /** Without any assumption on the checksum: so does the text it is taken of. */
  lemma HashedTextExactly(lib: Library, p: Plan, q: Plan)
    requires Conforms(lib) && Unambiguous(p)
    ensures Digest(Unhashed(lib), p) == Digest(Unhashed(lib), q) <==> SameContent(p, q)
  {
    DigestExactly(Unhashed(lib), p, q);
  }

  // ----- and only there -----

  /** The digest of `p` does not depend on the order of its lists, nor on how ties are sorted. */
  ghost predicate OrderFree(lib: Library, p: Plan) {
    forall other, q ::
      Sorts(other) && other.marshal == lib.marshal && other.base64 == lib.base64 && SameContent(p, q)
      ==> Preimage(other, q) == Preimage(lib, p)
  }

  /** For an unambiguous plan all conforming sorts give one digest input. */
  lemma SortsAgree(lib: Library, other: Library, p: Plan)
    requires Sorts(lib) && Sorts(other) && other.marshal == lib.marshal && other.base64 == lib.base64
    requires Unambiguous(p)
    ensures Preimage(other, p) == Preimage(lib, p)
  {
    SameSort(lib.sortRules, other.sortRules, RuleKey, p.prometheus.recordingRules);
    SameSort(lib.sortAlerts, other.sortAlerts, AlertKey, p.prometheus.alertRules);
    SameSort(lib.sortDashboards, other.sortDashboards, DashboardKey, p.grafana.dashboards);
    SameSort(lib.sortStrings, other.sortStrings, TextKey, p.otel.required);
  }

  lemma UnambiguousIsOrderFree(lib: Library, p: Plan)
    requires Conforms(lib) && Unambiguous(p)
    ensures OrderFree(lib, p)
  {
    forall other, q | Sorts(other) && other.marshal == lib.marshal && other.base64 == lib.base64
                      && SameContent(p, q)
      ensures Preimage(other, q) == Preimage(lib, p)
    {
      PreimageComplete(other, p, q);
      SortsAgree(lib, other, p);
    }
  }

  lemma SameSort<T(!new)>(sort: seq<T> -> seq<T>, other: seq<T> -> seq<T>, key: T -> string, a: seq<T>)
    requires SortsBy(sort, key) && SortsBy(other, key) && KeyDetermines(key, a)
    ensures sort(a) == other(a)
  {
    SameMembers(sort(a), a);
    SortUnique(key, sort(a), other(a));
  }

  /** A sort that keeps the contract of `sort` but arranges one given list as told. */
  function Override<T(==)>(sort: seq<T> -> seq<T>, at: seq<T>, result: seq<T>): seq<T> -> seq<T> {
    s => if s == at then result else sort(s)
  }

  lemma OverrideSorts<T(!new)>(sort: seq<T> -> seq<T>, key: T -> string, at: seq<T>, result: seq<T>)
    requires SortsBy(sort, key)
    requires SortedBy(key, result) && multiset(result) == multiset(at)
    ensures SortsBy(Override(sort, at, result), key)
  {
  }

  /** Another arrangement that a sort may legally produce for an ambiguous list. */
  lemma OtherArrangement<T(!new)>(sort: seq<T> -> seq<T>, key: T -> string, s: seq<T>)
    returns (r: seq<T>)
    requires SortsBy(sort, key) && !KeyDetermines(key, s)
    ensures SortedBy(key, r) && multiset(r) == multiset(s) && r != sort(s)
  {
    var a, b := AmbiguousSort(key, s);
    r := if a == sort(s) then b else a;
  }

  /**
   The condition is exact: the digest of a plan is independent of list order if and only if
   entries that share a name are the same entry.
   */
  lemma OrderFreeExactly(lib: Library, p: Plan)
    requires Conforms(lib)
    ensures OrderFree(lib, p) <==> Unambiguous(p)
  {
    if Unambiguous(p) {
      UnambiguousIsOrderFree(lib, p);
    } else {
      var other := DisagreeingLibrary(lib, p);
      assert SameContent(p, p);
      assert Preimage(other, p) != Preimage(lib, p);
    }
  }

  lemma DisagreeingLibrary(lib: Library, p: Plan) returns (other: Library)
    requires Conforms(lib) && !Unambiguous(p)
    ensures Sorts(other) && other.marshal == lib.marshal && other.base64 == lib.base64
    ensures Preimage(other, p) != Preimage(lib, p)
  {
    var rules, alerts, boards := p.prometheus.recordingRules, p.prometheus.alertRules, p.grafana.dashboards;
    if !KeyDetermines(RuleKey, rules) {
      var r := OtherArrangement(lib.sortRules, RuleKey, rules);
      OverrideSorts(lib.sortRules, RuleKey, rules, r);
      other := lib.(sortRules := Override(lib.sortRules, rules, r));
      SortingShows(lib, other, p);
    } else if !KeyDetermines(AlertKey, alerts) {
      var r := OtherArrangement(lib.sortAlerts, AlertKey, alerts);
      OverrideSorts(lib.sortAlerts, AlertKey, alerts, r);
      other := lib.(sortAlerts := Override(lib.sortAlerts, alerts, r));
      SortingShows(lib, other, p);
    } else {
      var r := OtherArrangement(lib.sortDashboards, DashboardKey, boards);
      OverrideSorts(lib.sortDashboards, DashboardKey, boards, r);
      other := lib.(sortDashboards := Override(lib.sortDashboards, boards, r));
      SortingShows(lib, other, p);
    }
  }

  lemma SameSections(lib: Library, other: Library, p: Plan)
    requires Encodes(lib) && other.marshal == lib.marshal && other.base64 == lib.base64
    requires Preimage(other, p) == Preimage(lib, p)
    ensures PrometheusJson(SortedPrometheus(other, p.prometheus)) == PrometheusJson(SortedPrometheus(lib, p.prometheus))
    ensures GrafanaJson(SortedGrafana(other, p.grafana)) == GrafanaJson(SortedGrafana(lib, p.grafana))
  {
    DocumentParts(other, p, lib, p);
    SectionInjective(lib, PrometheusJson(SortedPrometheus(other, p.prometheus)),
                     PrometheusJson(SortedPrometheus(lib, p.prometheus)));
    SectionInjective(lib, GrafanaJson(SortedGrafana(other, p.grafana)), GrafanaJson(SortedGrafana(lib, p.grafana)));
  }

  lemma SortingShows(lib: Library, other: Library, p: Plan)
    requires Encodes(lib) && other.marshal == lib.marshal && other.base64 == lib.base64
    requires SortedPrometheus(lib, p.prometheus) != SortedPrometheus(other, p.prometheus)
             || SortedGrafana(lib, p.grafana) != SortedGrafana(other, p.grafana)
    ensures Preimage(other, p) != Preimage(lib, p)
  {
    if Preimage(other, p) == Preimage(lib, p) {
      SameSections(lib, other, p);
      PrometheusJsonInjective(SortedPrometheus(other, p.prometheus), SortedPrometheus(lib, p.prometheus));
      GrafanaJsonInjective(SortedGrafana(other, p.grafana), SortedGrafana(lib, p.grafana));
    }
  }

  // ----- Build -----

  datatype BuildError = NameRequired | PipelineRequired

  function BuildOutcome(lib: Library, p: Pack, target: Target, azure: Option<AzureRef>):
    Result<Plan, BuildError>
  {
    if p.name == "" then Err(NameRequired)
    else if target == TARGET_AZURE && (azure == None || azure.value.pipeline == "")
    then Err(PipelineRequired)
    else
      var pl := Intents(p, target, azure);
      Ok(pl.(hash := Digest(lib, pl)))
  }

  lemma BuiltPlan(lib: Library, p: Pack, target: Target, azure: Option<AzureRef>)
    requires BuildOutcome(lib, p, target, azure).Ok?
    ensures var intents := Intents(p, target, azure);
            BuildOutcome(lib, p, target, azure).value == intents.(hash := Digest(lib, intents))
  {
  }

  /** `Build`. */
  method Build(lib: Library, p: Pack, target: Target, azure: Option<AzureRef>)
    returns (r: Result<Plan, BuildError>)
    requires Sorts(lib)
    ensures r == BuildOutcome(lib, p, target, azure)
  {
    if p.name == "" {
      return Err(NameRequired);
    }
    var prometheus := BuildPrometheus(p);
    var grafana := BuildGrafana(p);
    var otel := BuildOTel(p);
    var call: Option<AzureCall> := None;
    if target == TARGET_AZURE {
      if azure == None || azure.value.pipeline == "" {
        return Err(PipelineRequired);
      }
      call := Some(PlanAzure(p, azure.value));
    }
    var pl := Plan(p.name, p.version, p.service, target, "", prometheus, grafana, otel, call);
    var held := new PlanObject(pl);
    var h := HashPlan(lib, held);
    r := Ok(pl.(hash := h));
  }

  /** Exactly when `Build` fails, and with which error. */
  lemma BuildFailsExactly(lib: Library, p: Pack, target: Target, azure: Option<AzureRef>)
    ensures var r := BuildOutcome(lib, p, target, azure);
            && (r == Err(NameRequired) <==> p.name == "")
            && (r == Err(PipelineRequired) <==>
                  p.name != "" && target == TARGET_AZURE && (azure == None || azure.value.pipeline == ""))
            && (r.Ok? <==>
                  p.name != "" && (target == TARGET_AZURE ==> azure.Some? && azure.value.pipeline != ""))
  {
  }

  /** Built hashes agree exactly when the manifests plan the same content. */
  lemma BuildHashExactly(lib: Library, p: Pack, q: Pack, t: Target, u: Target, a: Option<AzureRef>, b: Option<AzureRef>)
    requires Conforms(lib) && forall x, y :: lib.sha(x) == lib.sha(y) ==> x == y
    requires BuildOutcome(lib, p, t, a).Ok? && BuildOutcome(lib, q, u, b).Ok?
    requires Unambiguous(Intents(p, t, a))
    ensures BuildOutcome(lib, p, t, a).value.hash == BuildOutcome(lib, q, u, b).value.hash
       <==> SameContent(Intents(p, t, a), Intents(q, u, b))
  {
    BuiltPlan(lib, p, t, a);
    BuiltPlan(lib, q, u, b);
    DigestExactly(lib, Intents(p, t, a), Intents(q, u, b));
  }

  // ----- independence of the manifest's order -----

  /** The same pack with its lists in another order; windows may even move between alerts. */
  predicate Reordered(p: Pack, q: Pack) {
    && p.name == q.name && p.version == q.version && p.service == q.service
    && multiset(p.spec.recordingRules) == multiset(q.spec.recordingRules)
    && multiset(Burns(p)) == multiset(Burns(q))
    && multiset(p.spec.dashboards) == multiset(q.spec.dashboards)
    && multiset(p.spec.otel.required) == multiset(q.spec.otel.required)
    && p.spec.otel.semconv == q.spec.otel.semconv
    && p.spec.pipelines == q.spec.pipelines
  }

  /** Windows carry no underscore, so an alert name decodes to its SLO and windows. */
  predicate PlainWindows(p: Pack) {
    forall b | b in Burns(p) :: '_' !in b.window.short && '_' !in b.window.long
  }

  /** An SLO, a short and a long window occur with one factor and severity only. */
  predicate TriplesDetermine(p: Pack) {
    forall b, c | b in Burns(p) && c in Burns(p) && b.slo == c.slo
                  && b.window.short == c.window.short && b.window.long == c.window.long :: b == c
  }

  lemma AlertNamesDetermine(p: Pack)
    requires PlainWindows(p) && TriplesDetermine(p)
    ensures KeyDetermines(AlertKey, PlanPrometheus(p).alertRules)
  {
    var alerts, burns := PlanPrometheus(p).alertRules, Burns(p);
    forall x, y | x in alerts && y in alerts && x.alert == y.alert
      ensures x == y
    {
      var b := AlertOrigin(p, x);
      var c := AlertOrigin(p, y);
      AlertNameDecodes(b.slo, b.window.short, b.window.long, c.slo, c.window.short, c.window.long);
    }
  }

  lemma AlertOrigin(p: Pack, a: AlertRule) returns (b: Burn)
    requires a in PlanPrometheus(p).alertRules
    ensures b in Burns(p) && a == AlertFor(p, b)
    ensures a.alert == R.AlertName(b.slo, b.window.short, b.window.long)
  {
    var alerts := PlanPrometheus(p).alertRules;
    var i :| 0 <= i < |alerts| && alerts[i] == a;
    b := Burns(p)[i];
  }

  lemma MappedKeysDetermine<T(!new), U(!new)>(f: T -> U, inner: T -> string, outer: U -> string, xs: seq<T>)
    requires forall x :: outer(f(x)) == inner(x)
    requires KeyDetermines(inner, xs)
    ensures KeyDetermines(outer, Map(f, xs))
  {
    var ys := Map(f, xs);
    forall x, y | x in ys && y in ys && outer(x) == outer(y)
      ensures x == y
    {
      var i :| 0 <= i < |ys| && ys[i] == x;
      var j :| 0 <= j < |ys| && ys[j] == y;
      assert xs[i] in xs && xs[j] in xs;
    }
  }

  function PackDashboardKey(d: Dashboard): string { d.id }

  lemma ReorderedSameContent(p: Pack, q: Pack, target: Target, azure: Option<AzureRef>)
    requires Reordered(p, q) && target != TARGET_AZURE
    ensures SameContent(Intents(p, target, azure), Intents(q, target, azure))
  {
    MapContents(PlanRule(p), p.spec.recordingRules, q.spec.recordingRules);
    assert Map(PlanRule(p), q.spec.recordingRules) == Map(PlanRule(q), q.spec.recordingRules);
    MapContents(PlanAlert(p), Burns(p), Burns(q));
    assert Map(PlanAlert(p), Burns(q)) == Map(PlanAlert(q), Burns(q));
    MapContents(PlanDashboard, p.spec.dashboards, q.spec.dashboards);
  }

  /**
   In-cluster plans do not depend on the order of the manifest's lists: where names determine
   the planned entries, reordering the manifest leaves the `Build` hash unchanged.
   */
  lemma ManifestOrderIrrelevant(lib: Library, p: Pack, q: Pack, target: Target, azure: Option<AzureRef>)
    requires Conforms(lib) && target != TARGET_AZURE && p.name != ""
    requires Reordered(p, q)
    requires Unambiguous(Intents(p, target, azure))
    ensures BuildOutcome(lib, p, target, azure).Ok? && BuildOutcome(lib, q, target, azure).Ok?
    ensures BuildOutcome(lib, p, target, azure).value.hash == BuildOutcome(lib, q, target, azure).value.hash
  {
    ReorderedSameContent(p, q, target, azure);
    PreimageComplete(lib, Intents(p, target, azure), Intents(q, target, azure));
  }

  /**
   A manifest meets that condition when its rule names and dashboard ids determine their
   entries, its windows keep alert names decodable, and its (slo, short, long) triples recur
   only with the same factor and severity.
   */
  lemma PlainManifestUnambiguous(p: Pack, target: Target, azure: Option<AzureRef>)
    requires KeyDetermines(RuleKey, p.spec.recordingRules)
    requires KeyDetermines(PackDashboardKey, p.spec.dashboards)
    requires PlainWindows(p) && TriplesDetermine(p)
    ensures Unambiguous(Intents(p, target, azure))
  {
    AlertNamesDetermine(p);
    MappedKeysDetermine(PlanRule(p), RuleKey, RuleKey, p.spec.recordingRules);
    MappedKeysDetermine(PlanDashboard, PackDashboardKey, DashboardKey, p.spec.dashboards);
  }

  /** An Azure plan embeds the raw manifest, so its digest input tells raw documents apart. */
  lemma AzureHashSeesManifest(lib: Library, p: Pack, q: Pack, r: AzureRef, s: AzureRef)
    requires Conforms(lib)
    requires Preimage(lib, Intents(p, TARGET_AZURE, Some(r))) == Preimage(lib, Intents(q, TARGET_AZURE, Some(s)))
    ensures p.raw == q.raw
    ensures r.provider == s.provider && r.pipeline == s.pipeline && r.branch == s.branch
  {
    PreimageSound(lib, Intents(p, TARGET_AZURE, Some(r)), Intents(q, TARGET_AZURE, Some(s)));
    assert PlanAzure(p, r).payload["effectiveSpec"] == PlanAzure(q, s).payload["effectiveSpec"];
  }

  /** Reordering the burn-rate alerts, or the windows inside one, is a reordering of `Burns`. */
  lemma BurnsReordered(a: seq<BurnRateAlert>, b: seq<BurnRateAlert>)
    requires multiset(a) == multiset(b)
    ensures multiset(FlatMap(BurnsOf, a)) == multiset(FlatMap(BurnsOf, b))
  {
    FlatMapContents(BurnsOf, a, b);
  }

  lemma WindowsReordered(slo: string, v: seq<BurnWindow>, w: seq<BurnWindow>)
    requires multiset(v) == multiset(w)
    ensures multiset(BurnsOf(BurnRateAlert(slo, v))) == multiset(BurnsOf(BurnRateAlert(slo, w)))
  {
    MapContents(BurnOf(slo), v, w);
  }

  /** The same alerts in the same order, the windows of each in another order. */
  predicate WindowsShuffled(c: seq<BurnRateAlert>, b: seq<BurnRateAlert>) {
    && |c| == |b|
    && forall i | 0 <= i < |b| :: c[i].slo == b[i].slo && multiset(c[i].windows) == multiset(b[i].windows)
  }

  /** `b` is `a` with its alerts in another order and the windows of each in another order. */
  ghost predicate BurnsShuffled(a: seq<BurnRateAlert>, b: seq<BurnRateAlert>) {
    exists c: seq<BurnRateAlert> :: multiset(c) == multiset(a) && WindowsShuffled(c, b)
  }

  lemma {:induction false} PointwiseShuffled(c: seq<BurnRateAlert>, b: seq<BurnRateAlert>)
    requires WindowsShuffled(c, b)
    ensures multiset(FlatMap(BurnsOf, c)) == multiset(FlatMap(BurnsOf, b))
  {
    if b != [] {
      var n := |b| - 1;
      PointwiseShuffled(c[..n], b[..n]);
      WindowsReordered(b[n].slo, c[n].windows, b[n].windows);
    }
  }

  /** The same manifest with its lists in another order, down to the windows of each alert. */
  ghost predicate Shuffled(p: Pack, q: Pack) {
    && p.name == q.name && p.version == q.version && p.service == q.service
    && multiset(p.spec.recordingRules) == multiset(q.spec.recordingRules)
    && BurnsShuffled(p.spec.policy.burnRateAlerts, q.spec.policy.burnRateAlerts)
    && multiset(p.spec.dashboards) == multiset(q.spec.dashboards)
    && multiset(p.spec.otel.required) == multiset(q.spec.otel.required)
    && p.spec.otel.semconv == q.spec.otel.semconv
    && p.spec.pipelines == q.spec.pipelines
  }

  lemma ShuffledIsReordered(p: Pack, q: Pack)
    requires Shuffled(p, q)
    ensures Reordered(p, q)
  {
    var a, b := p.spec.policy.burnRateAlerts, q.spec.policy.burnRateAlerts;
    var c: seq<BurnRateAlert> :| multiset(c) == multiset(a) && WindowsShuffled(c, b);
    BurnsReordered(c, a);
    PointwiseShuffled(c, b);
  }

  /**
   End to end: off Azure, shuffling the recording rules, the burn-rate alerts, the windows inside
   each, the dashboards and the required attributes of a manifest leaves the `Build` hash as it
   was, given rule names and dashboard ids that determine their entries, underscore-free windows,
   and (slo, short, long) triples that recur only with one factor and severity.
   */
  lemma ShuffledManifestSameHash(lib: Library, p: Pack, q: Pack, target: Target, azure: Option<AzureRef>)
    requires Conforms(lib) && target != TARGET_AZURE && p.name != ""
    requires KeyDetermines(RuleKey, p.spec.recordingRules)
    requires KeyDetermines(PackDashboardKey, p.spec.dashboards)
    requires PlainWindows(p) && TriplesDetermine(p)
    requires Shuffled(p, q)
    ensures BuildOutcome(lib, p, target, azure).Ok? && BuildOutcome(lib, q, target, azure).Ok?
    ensures BuildOutcome(lib, p, target, azure).value.hash == BuildOutcome(lib, q, target, azure).value.hash
  {
    ShuffledIsReordered(p, q);
    PlainManifestUnambiguous(p, target, azure);
    ManifestOrderIrrelevant(lib, p, q, target, azure);
  }

  /** With an underscore in a window, two different windows can share one alert name. */
  lemma UnderscoreCollides()
    ensures R.AlertName("a", "b_c", "d") == R.AlertName("a", "b", "c_d")
  {
    assert R.AlertName("a", "b_c", "d") == "a_burn_b_c_d";
    assert R.AlertName("a", "b", "c_d") == "a_burn_b_c_d";
  }
}

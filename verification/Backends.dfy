/** The telemetry backend catalog and version gating (internal/lint/backends.go:9-178). */
module Backends {
  import opened Wrappers
  import opened Lists
  import opened Text
  import opened Numbers
  import opened Manifest
  import opened Findings
  import opened Versions

  const KNOWN_PRODUCTS: set<string> := {
    "jaeger", "tempo", "zipkin", "skywalking", "pinpoint",
    "prometheus", "mimir", "thanos", "victoriametrics", "influxdb", "opentsdb",
    "elasticsearch", "opensearch", "loki", "clickhouse", "graylog",
    "grafana", "kibana", "perses",
    "pyroscope", "cilium", "kubernetes", "opa",
    "envoy", "consul", "kong", "traefik",
    "fluentbit", "beats", "vector", "alloy",
    "alertmanager"
  }

  // ----- one check each -----

  function ProductFindings(path: string, product: string): seq<Finding> {
    if product == "" || product in KNOWN_PRODUCTS then []
    else [Finding(Warn, RegistryUnknownProduct, path)]
  }

  /** Gating applies: a declared version, and a mode other than "off". */
  predicate Gated(v: VersionSpec) {
    v.declared != "" && v.gating != "off"
  }

  predicate BelowMin(v: VersionSpec) {
    Gated(v) && v.min != "" && VersionLess(v.declared, v.min)
  }

  predicate AboveMax(v: VersionSpec) {
    Gated(v) && v.max != "" && VersionLess(v.max, v.declared)
  }

  function GateSeverity(v: VersionSpec): Severity {
    if v.gating == "enforce" then Error else Warn
  }

  function VersionFindings(path: string, v: Option<VersionSpec>): seq<Finding> {
    if v == None then []
    else (if BelowMin(v.value) then [Finding(GateSeverity(v.value), VersionsBelowMin, path)] else [])
         + (if AboveMax(v.value) then [Finding(GateSeverity(v.value), VersionsAboveMax, path)] else [])
  }

  /** A reference the resolver cannot accept: empty, or neither external nor a declared id. */
  predicate Dangling(ref: string, ids: set<string>) {
    ref == "" || (!HasPrefix(ref, "ref:") && ref !in ids)
  }

  function RefFindings(path: string, ref: string, ids: set<string>): seq<Finding> {
    if ref == "" then [Finding(Error, BackendsEmptyRef, path)]
    else if HasPrefix(ref, "ref:") then [Finding(Info, BackendsExternal, path)]
    else if ref !in ids then [Finding(Error, BackendsUnresolvedRef, path)]
    else []
  }

  method CheckProduct(r: LintResult, path: string, product: string)
    modifies r`findings
    ensures r.findings == old(r.findings) + ProductFindings(path, product)
  {
    if product == "" {
      return;
    }
    if product !in KNOWN_PRODUCTS {
      r.AddFinding(Warn, RegistryUnknownProduct, path);
    }
  }

  /** `evalVersion`. */
  method EvalVersion(r: LintResult, path: string, v: Option<VersionSpec>)
    modifies r`findings
    ensures r.findings == old(r.findings) + VersionFindings(path, v)
  {
    if v == None || v.value.declared == "" {
      return;
    }
    var spec := v.value;
    var gating := spec.gating;
    if gating == "" {
      gating := "warn";
    }
    if gating == "off" {
      return;
    }
    var severity := Warn;
    if gating == "enforce" {
      severity := Error;
    }
    var below := false;
    if spec.min != "" {
      below := VersionLT(spec.declared, spec.min);
    }
    var above := false;
    if spec.max != "" {
      above := VersionLT(spec.max, spec.declared);
    }
    AddVersionFindings(r, path, severity, below, above);
  }

  method AddVersionFindings(r: LintResult, path: string, severity: Severity, below: bool, above: bool)
    modifies r`findings
    ensures r.findings == old(r.findings)
                          + ((if below then [Finding(severity, VersionsBelowMin, path)] else [])
                             + (if above then [Finding(severity, VersionsAboveMax, path)] else []))
  {
    if below {
      r.AddFinding(severity, VersionsBelowMin, path);
    }
    if above {
      r.AddFinding(severity, VersionsAboveMax, path);
    }
  }

  /** `resolveBackendRef`. */
  method ResolveBackendRef(r: LintResult, path: string, ref: string, ids: set<string>)
    modifies r`findings
    ensures r.findings == old(r.findings) + RefFindings(path, ref, ids)
  {
    if ref == "" {
      r.AddFinding(Error, BackendsEmptyRef, path);
      return;
    }
    if HasPrefix(ref, "ref:") {
      r.AddFinding(Info, BackendsExternal, path);
      return;
    }
    if ref !in ids {
      r.AddFinding(Error, BackendsUnresolvedRef, path);
    }
  }

  /** No version is reported on both sides of its range unless the range itself is inverted. */
  lemma NeverBothSides(v: VersionSpec)
    ensures BelowMin(v) && AboveMax(v) ==> VersionLess(v.max, v.min)
  {
    VersionStrictWeakOrder(v.max, v.declared, v.min);
  }

  /** And an inverted range rejects every gated version, on at least one side. */
  lemma InvertedRangeRejects(v: VersionSpec)
    requires Gated(v) && v.min != "" && v.max != "" && VersionLess(v.max, v.min)
    ensures BelowMin(v) || AboveMax(v)
  {
    VersionStrictWeakOrder(v.max, v.declared, v.min);
  }

  // ----- the pass -----

  function ElementPath(base: string, i: nat): string {
    base + "[" + Decimal(i) + "]"
  }

  function Ids(bs: seq<Backend>): set<string> {
    set b | b in bs :: b.id
  }

  lemma IdsStep(bs: seq<Backend>, i: nat)
    requires i < |bs|
    ensures Ids(bs[..i + 1]) == Ids(bs[..i]) + {bs[i].id}
  {
    assert bs[..i + 1] == bs[..i] + [bs[i]];
  }

  function BackendFindings(bs: seq<Backend>, i: nat): seq<Finding>
    requires i < |bs|
  {
    var base := ElementPath("spec.telemetry.backends", i);
    (if bs[i].id in Ids(bs[..i]) then [Finding(Error, BackendsDuplicateId, base)] else [])
    + ProductFindings(base + ".product", bs[i].product)
    + VersionFindings(base + ".version", bs[i].version)
  }

  function BackendAt(bs: seq<Backend>): nat -> seq<Finding> {
    (i: nat) => if i < |bs| then BackendFindings(bs, i) else []
  }

  function CatalogFindings(bs: seq<Backend>): seq<Finding> {
    FlatMap(BackendAt(bs), UpTo(|bs|))
  }

  type Environments = map<string, map<string, string>>

  /** One backend override of an environment overlay. */
  datatype Overlay = Overlay(name: string, signal: string)

  predicate Declares(environments: Environments, o: Overlay) {
    o.name in environments && o.signal in environments[o.name]
  }

  function OverlayFindings(environments: Environments, ids: set<string>): Overlay -> seq<Finding> {
    (o: Overlay) =>
      if Declares(environments, o)
      then RefFindings("spec.environments." + o.name + ".backends." + o.signal, environments[o.name][o.signal], ids)
      else []
  }

  /** Map iteration visits every overlay once, in some order. */
  ghost predicate Visits(environments: Environments, order: seq<Overlay>) {
    Distinct(order) && forall o :: o in order <==> Declares(environments, o)
  }

  function OptionalRef(path: string, ref: string, ids: set<string>): seq<Finding> {
    if ref == "" then [] else RefFindings(path, ref, ids)
  }

  function SignalFindings(path: string, b: Option<Component>, ids: set<string>): seq<Finding> {
    if b == None then []
    else OptionalRef(path + ".backend", b.value.backend, ids)
         + ProductFindings(path + ".product", b.value.product)
         + VersionFindings(path + ".version", b.value.version)
  }

  function ComponentFindings(base: string, c: Component, ids: set<string>): seq<Finding> {
    ProductFindings(base + ".product", c.product) + VersionFindings(base + ".version", c.version)
    + OptionalRef(base + ".backend", c.backend, ids)
  }

  function ComponentAt(base: string, cs: seq<Component>, ids: set<string>): nat -> seq<Finding> {
    (i: nat) => if i < |cs| then ComponentFindings(ElementPath(base, i), cs[i], ids) else []
  }

  function ListFindings(base: string, cs: seq<Component>, ids: set<string>): seq<Finding> {
    FlatMap(ComponentAt(base, cs, ids), UpTo(|cs|))
  }

  /** The block of a storage signal, when it is an object. */
  function Block(storage: Fields, signal: string): Option<Fields> {
    if signal in storage && storage[signal].JObject? then Some(storage[signal].fields) else None
  }

  /** Storage blocks carry their gating inline, without an upper bound. */
  function BlockVersion(blk: Fields): VersionSpec {
    VersionSpec(StringField(blk, "version"), StringField(blk, "min_version"), "", StringField(blk, "gating"))
  }

  function BlockRef(blk: Fields): Option<string> {
    if "backend_ref" in blk && blk["backend_ref"].JString? then Some(blk["backend_ref"].s) else None
  }

  function BlockFindings(path: string, blk: Fields, ids: set<string>): seq<Finding> {
    ProductFindings(path + ".backend", StringField(blk, "backend"))
    + VersionFindings(path, Some(BlockVersion(blk)))
    + (if BlockRef(blk) == None then [] else RefFindings(path + ".backend_ref", BlockRef(blk).value, ids))
  }

  const STORAGE_SIGNALS := ["metrics", "logs", "traces"]

  function StorageFindings(storage: Fields, ids: set<string>): string -> seq<Finding> {
    (signal: string) =>
      var blk := Block(storage, signal);
      if blk == None then [] else BlockFindings("spec.storage." + signal, blk.value, ids)
  }

  /** All findings of the pass, given the order in which the overlays were visited. */
  function BackendsFindings(p: Pack, order: seq<Overlay>): seq<Finding> {
    var ids := Ids(p.spec.backends);
    CatalogFindings(p.spec.backends)
    + FlatMap(OverlayFindings(p.spec.environments, ids), order)
    + SignalFindings("spec.profiling", p.spec.profiling, ids)
    + SignalFindings("spec.network", p.spec.network, ids)
    + SignalFindings("spec.policy_engine", p.spec.policyEngine, ids)
    + ListFindings("spec.mesh", p.spec.mesh, ids)
    + ListFindings("spec.collection", p.spec.collection, ids)
    + FlatMap(StorageFindings(p.spec.storage, ids), STORAGE_SIGNALS)
  }

  method CheckCatalog(r: LintResult, bs: seq<Backend>) returns (ids: set<string>)
    modifies r`findings
    ensures ids == Ids(bs)
    ensures r.findings == old(r.findings) + CatalogFindings(bs)
  {
    ids := {};
    ghost var f := BackendAt(bs);
    for i := 0 to |bs|
      invariant ids == Ids(bs[..i])
      invariant r.findings == old(r.findings) + FlatMap(f, UpTo(i))
    {
      CheckBackend(r, bs, i, ids);
      IndexStep(f, |bs|, i);
      Assoc(old(r.findings), FlatMap(f, UpTo(i)), f(i));
      IdsStep(bs, i);
      ids := ids + {bs[i].id};
    }
    assert bs[..|bs|] == bs;
  }

  method CheckBackend(r: LintResult, bs: seq<Backend>, i: nat, ids: set<string>)
    requires i < |bs| && ids == Ids(bs[..i])
    modifies r`findings
    ensures r.findings == old(r.findings) + BackendFindings(bs, i)
  {
    var base := ElementPath("spec.telemetry.backends", i);
    ghost var a := if bs[i].id in ids then [Finding(Error, BackendsDuplicateId, base)] else [];
    if bs[i].id in ids {
      r.AddFinding(Error, BackendsDuplicateId, base);
    }
    assert r.findings == old(r.findings) + a;
    CheckProduct(r, base + ".product", bs[i].product);
    EvalVersion(r, base + ".version", bs[i].version);
    Assoc(old(r.findings), a, ProductFindings(base + ".product", bs[i].product));
    Assoc(old(r.findings), a + ProductFindings(base + ".product", bs[i].product),
          VersionFindings(base + ".version", bs[i].version));
  }

  /** The nested loops over the environments and their backends, both in map order. */
  method CheckOverlays(r: LintResult, environments: Environments, ids: set<string>)
    returns (ghost order: seq<Overlay>)
    modifies r`findings
    ensures Visits(environments, order)
    ensures r.findings == old(r.findings) + FlatMap(OverlayFindings(environments, ids), order)
  {
    order := [];
    var names := environments.Keys;
    while names != {}
      invariant names <= environments.Keys
      invariant Distinct(order)
      invariant forall o :: o in order <==> Declares(environments, o) && o.name !in names
      invariant r.findings == old(r.findings) + FlatMap(OverlayFindings(environments, ids), order)
    {
      var name :| name in names;
      ghost var earlier := order;
      order := CheckOverlay(r, environments, ids, name, order, old(r.findings));
      names := names - {name};
      assert forall o :: o in order <==> o in earlier || (o.name == name && Declares(environments, o));
    }
  }

  method CheckOverlay(r: LintResult, environments: Environments, ids: set<string>, name: string,
                      ghost earlier: seq<Overlay>, ghost before: seq<Finding>)
    returns (ghost order: seq<Overlay>)
    requires name in environments && Distinct(earlier) && forall o | o in earlier :: o.name != name
    requires r.findings == before + FlatMap(OverlayFindings(environments, ids), earlier)
    modifies r`findings
    ensures Distinct(order)
    ensures forall o :: o in order <==> o in earlier || (o.name == name && Declares(environments, o))
    ensures r.findings == before + FlatMap(OverlayFindings(environments, ids), order)
  {
    order := earlier;
    var signals := environments[name].Keys;
    while signals != {}
      invariant signals <= environments[name].Keys
      invariant Distinct(order)
      invariant forall o :: o in order <==>
        o in earlier || (o.name == name && Declares(environments, o) && o.signal !in signals)
      invariant r.findings == before + FlatMap(OverlayFindings(environments, ids), order)
    {
      var signal :| signal in signals;
      signals := signals - {signal};
      ghost var o := Overlay(name, signal);
      ResolveBackendRef(r, "spec.environments." + name + ".backends." + signal, environments[name][signal], ids);
      AppendOverlay(OverlayFindings(environments, ids), before, order, o);
      order := order + [o];
    }
  }

  lemma AppendOverlay(f: Overlay -> seq<Finding>, before: seq<Finding>, order: seq<Overlay>, o: Overlay)
    ensures before + FlatMap(f, order + [o]) == before + FlatMap(f, order) + f(o)
  {
    assert (order + [o])[..|order|] == order;
    Assoc(before, FlatMap(f, order), f(o));
  }

  method CheckSignalBlock(r: LintResult, path: string, b: Option<Component>, ids: set<string>)
    modifies r`findings
    ensures r.findings == old(r.findings) + SignalFindings(path, b, ids)
  {
    if b == None {
      return;
    }
    var c := b.value;
    if c.backend != "" {
      ResolveBackendRef(r, path + ".backend", c.backend, ids);
    }
    ghost var x := OptionalRef(path + ".backend", c.backend, ids);
    assert r.findings == old(r.findings) + x;
    if c.product != "" {
      CheckProduct(r, path + ".product", c.product);
    }
    ghost var y := ProductFindings(path + ".product", c.product);
    assert r.findings == old(r.findings) + x + y;
    EvalVersion(r, path + ".version", c.version);
    Assoc(old(r.findings), x, y);
    Assoc(old(r.findings), x + y, VersionFindings(path + ".version", c.version));
  }

  method CheckComponent(r: LintResult, base: string, c: Component, ids: set<string>)
    modifies r`findings
    ensures r.findings == old(r.findings) + ComponentFindings(base, c, ids)
  {
    CheckProduct(r, base + ".product", c.product);
    EvalVersion(r, base + ".version", c.version);
    if c.backend != "" {
      ResolveBackendRef(r, base + ".backend", c.backend, ids);
    }
    ghost var x, y := ProductFindings(base + ".product", c.product), VersionFindings(base + ".version", c.version);
    ghost var z := OptionalRef(base + ".backend", c.backend, ids);
    assert r.findings == old(r.findings) + x + y + z;
    Assoc(old(r.findings), x, y);
    Assoc(old(r.findings), x + y, z);
  }

  method CheckComponents(r: LintResult, base: string, cs: seq<Component>, ids: set<string>)
    modifies r`findings
    ensures r.findings == old(r.findings) + ListFindings(base, cs, ids)
  {
    ghost var f := ComponentAt(base, cs, ids);
    for i := 0 to |cs|
      invariant r.findings == old(r.findings) + FlatMap(f, UpTo(i))
    {
      CheckComponent(r, ElementPath(base, i), cs[i], ids);
      IndexStep(f, |cs|, i);
      Assoc(old(r.findings), FlatMap(f, UpTo(i)), f(i));
    }
  }

  method CheckBlock(r: LintResult, path: string, blk: Fields, ids: set<string>)
    modifies r`findings
    ensures r.findings == old(r.findings) + BlockFindings(path, blk, ids)
  {
    CheckProduct(r, path + ".backend", StringField(blk, "backend"));
    EvalVersion(r, path, Some(BlockVersion(blk)));
    ghost var x := ProductFindings(path + ".backend", StringField(blk, "backend"));
    ghost var y := VersionFindings(path, Some(BlockVersion(blk)));
    ghost var z := if BlockRef(blk) == None then [] else RefFindings(path + ".backend_ref", BlockRef(blk).value, ids);
    if BlockRef(blk) != None {
      ResolveBackendRef(r, path + ".backend_ref", BlockRef(blk).value, ids);
    }
    assert r.findings == old(r.findings) + x + y + z;
    Assoc(old(r.findings), x, y);
    Assoc(old(r.findings), x + y, z);
  }

  method CheckStorage(r: LintResult, storage: Fields, signals: seq<string>, ids: set<string>)
    modifies r`findings
    ensures r.findings == old(r.findings) + FlatMap(StorageFindings(storage, ids), signals)
  {
    ghost var f := StorageFindings(storage, ids);
    for i := 0 to |signals|
      invariant r.findings == old(r.findings) + FlatMap(f, signals[..i])
    {
      FlatMapStep(f, signals, i);
      Assoc(old(r.findings), FlatMap(f, signals[..i]), f(signals[i]));
      CheckSignalStorage(r, storage, signals[i], ids);
    }
    assert signals[..|signals|] == signals;
  }

  method CheckSignalStorage(r: LintResult, storage: Fields, signal: string, ids: set<string>)
    modifies r`findings
    ensures r.findings == old(r.findings) + StorageFindings(storage, ids)(signal)
  {
    var blk := Block(storage, signal);
    if blk != None {
      CheckBlock(r, "spec.storage." + signal, blk.value, ids);
    }
  }

  /** `Backends`. */
  method Backends(p: Pack, r: LintResult) returns (ghost order: seq<Overlay>)
    modifies r`findings
    ensures Visits(p.spec.environments, order)
    ensures r.findings == old(r.findings) + BackendsFindings(p, order)
  {
    ghost var before := r.findings;
    var ids := CheckCatalog(r, p.spec.backends);
    ghost var a := CatalogFindings(p.spec.backends);
    order := CheckOverlays(r, p.spec.environments, ids);
    ghost var b := FlatMap(OverlayFindings(p.spec.environments, ids), order);
    CheckSignalBlock(r, "spec.profiling", p.spec.profiling, ids);
    CheckSignalBlock(r, "spec.network", p.spec.network, ids);
    CheckSignalBlock(r, "spec.policy_engine", p.spec.policyEngine, ids);
    CheckComponents(r, "spec.mesh", p.spec.mesh, ids);
    CheckComponents(r, "spec.collection", p.spec.collection, ids);
    CheckStorage(r, p.spec.storage, STORAGE_SIGNALS, ids);
    Regroup(before, a, b, SignalFindings("spec.profiling", p.spec.profiling, ids),
            SignalFindings("spec.network", p.spec.network, ids),
            SignalFindings("spec.policy_engine", p.spec.policyEngine, ids),
            ListFindings("spec.mesh", p.spec.mesh, ids),
            ListFindings("spec.collection", p.spec.collection, ids),
            FlatMap(StorageFindings(p.spec.storage, ids), STORAGE_SIGNALS));
  }

  lemma Regroup<T>(o: seq<T>, a: seq<T>, b: seq<T>, c: seq<T>, d: seq<T>, e: seq<T>, f: seq<T>, g: seq<T>, h: seq<T>)
    ensures o + a + b + c + d + e + f + g + h == o + (a + b + c + d + e + f + g + h)
  {
    Assoc(o, a, b);
    Assoc(o, a + b, c);
    Assoc(o, a + b + c, d);
    Assoc(o, a + b + c + d, e);
    Assoc(o, a + b + c + d + e, f);
    Assoc(o, a + b + c + d + e + f, g);
    Assoc(o, a + b + c + d + e + f + g, h);
  }

  // ----- exactness -----

  lemma ErrorConcat(a: seq<Finding>, b: seq<Finding>)
    ensures HasError(a + b) <==> HasError(a) || HasError(b)
  {
    assert forall f | f in a :: f in a + b;
    assert forall f | f in b :: f in a + b;
  }

  /** A version the pass rejects with an error: enforced, and out of its range. */
  predicate Rejected(v: Option<VersionSpec>) {
    v.Some? && v.value.gating == "enforce" && (BelowMin(v.value) || AboveMax(v.value))
  }

  lemma VersionErrors(path: string, v: Option<VersionSpec>)
    ensures HasError(VersionFindings(path, v)) <==> Rejected(v)
  {
    if v.Some? {
      var sev := GateSeverity(v.value);
      TwoOptional(BelowMin(v.value), Finding(sev, VersionsBelowMin, path),
                  AboveMax(v.value), Finding(sev, VersionsAboveMax, path));
    }
  }

  lemma TwoOptional(p: bool, a: Finding, q: bool, b: Finding)
    ensures HasError((if p then [a] else []) + (if q then [b] else []))
       <==> (p && a.severity == Error) || (q && b.severity == Error)
  {
    var x, y := if p then [a] else [], if q then [b] else [];
    ErrorConcat(x, y);
    assert p ==> a in x;
    assert q ==> b in y;
  }

  lemma RefErrors(path: string, ref: string, ids: set<string>)
    ensures HasError(RefFindings(path, ref, ids)) <==> Dangling(ref, ids)
  {
    var fs := RefFindings(path, ref, ids);
    if Dangling(ref, ids) {
      assert fs[0] in fs;
    }
  }

  lemma ProductErrors(path: string, product: string)
    ensures !HasError(ProductFindings(path, product))
  {
  }

  lemma BackendErrors(bs: seq<Backend>, i: nat)
    requires i < |bs|
    ensures HasError(BackendFindings(bs, i)) <==> BadBackend(bs, i)
  {
    var base := ElementPath("spec.telemetry.backends", i);
    var a := if bs[i].id in Ids(bs[..i]) then [Finding(Error, BackendsDuplicateId, base)] else [];
    var b, c := ProductFindings(base + ".product", bs[i].product), VersionFindings(base + ".version", bs[i].version);
    assert a != [] ==> a[0] in a;
    ProductErrors(base + ".product", bs[i].product);
    VersionErrors(base + ".version", bs[i].version);
    ErrorConcat(a, b);
    ErrorConcat(a + b, c);
  }

  predicate BadBackend(bs: seq<Backend>, i: nat)
    requires i < |bs|
  {
    bs[i].id in Ids(bs[..i]) || Rejected(bs[i].version)
  }

  lemma CatalogErrors(bs: seq<Backend>)
    ensures HasError(CatalogFindings(bs)) <==> BadCatalog(bs)
  {
    var f := BackendAt(bs);
    FlatErrors(f, UpTo(|bs|));
    forall i: nat | i < |bs|
      ensures HasError(f(i)) <==> BadBackend(bs, i)
      ensures i in UpTo(|bs|)
    {
      BackendErrors(bs, i);
      assert UpTo(|bs|)[i] == i;
    }
  }

  /** A component the pass rejects. */
  predicate BadComponent(c: Component, ids: set<string>) {
    Rejected(c.version) || (c.backend != "" && Dangling(c.backend, ids))
  }

  lemma ComponentErrors(base: string, c: Component, ids: set<string>)
    ensures HasError(ComponentFindings(base, c, ids)) <==> BadComponent(c, ids)
    ensures HasError(SignalFindings(base, Some(c), ids)) <==> BadComponent(c, ids)
  {
    var x, y := ProductFindings(base + ".product", c.product), VersionFindings(base + ".version", c.version);
    var z := OptionalRef(base + ".backend", c.backend, ids);
    ProductErrors(base + ".product", c.product);
    VersionErrors(base + ".version", c.version);
    RefErrors(base + ".backend", c.backend, ids);
    ErrorConcat(x, y);
    ErrorConcat(x + y, z);
    ErrorConcat(z, x);
    ErrorConcat(z + x, y);
  }

  predicate BadSignal(b: Option<Component>, ids: set<string>) {
    b.Some? && BadComponent(b.value, ids)
  }

  predicate BadBlock(blk: Option<Fields>, ids: set<string>) {
    blk.Some? && (Rejected(Some(BlockVersion(blk.value)))
                  || (BlockRef(blk.value).Some? && Dangling(BlockRef(blk.value).value, ids)))
  }

  lemma StorageErrors(storage: Fields, ids: set<string>, signal: string)
    ensures HasError(StorageFindings(storage, ids)(signal)) <==> BadBlock(Block(storage, signal), ids)
  {
    var blk := Block(storage, signal);
    if blk.Some? {
      var path := "spec.storage." + signal;
      var x := ProductFindings(path + ".backend", StringField(blk.value, "backend"));
      var y := VersionFindings(path, Some(BlockVersion(blk.value)));
      var ref := BlockRef(blk.value);
      var z := if ref == None then [] else RefFindings(path + ".backend_ref", ref.value, ids);
      ProductErrors(path + ".backend", StringField(blk.value, "backend"));
      VersionErrors(path, Some(BlockVersion(blk.value)));
      if ref.Some? {
        RefErrors(path + ".backend_ref", ref.value, ids);
      }
      ErrorConcat(x, y);
      ErrorConcat(x + y, z);
    }
  }

  lemma {:induction false} FlatErrors<T>(f: T -> seq<Finding>, xs: seq<T>)
    ensures HasError(FlatMap(f, xs)) <==> exists x | x in xs :: HasError(f(x))
  {
    if xs != [] {
      var n := |xs| - 1;
      FlatErrors(f, xs[..n]);
      ErrorConcat(FlatMap(f, xs[..n]), f(xs[n]));
      assert xs == xs[..n] + [xs[n]];
    }
  }

  /** What makes a catalog entry an error: an id used before, or an enforced version out of range. */
  predicate BadCatalog(bs: seq<Backend>) {
    exists i | 0 <= i < |bs| :: BadBackend(bs, i)
  }

  predicate BadOverlay(environments: Environments, ids: set<string>, o: Overlay) {
    Declares(environments, o) && Dangling(environments[o.name][o.signal], ids)
  }

  predicate BadStorage(storage: Fields, ids: set<string>) {
    exists s | s in STORAGE_SIGNALS :: BadBlock(Block(storage, s), ids)
  }

  /**
   Soundness and completeness, in any map order: the pass reports an error exactly when an id
   repeats, an enforced version is out of range, or some reference neither is external nor names
   a declared backend.
   */
  lemma BackendsExact(p: Pack, order: seq<Overlay>)
    requires Visits(p.spec.environments, order)
    ensures var ids := Ids(p.spec.backends);
            HasError(BackendsFindings(p, order)) <==>
              || BadCatalog(p.spec.backends)
              || (exists o :: BadOverlay(p.spec.environments, ids, o))
              || BadSignal(p.spec.profiling, ids) || BadSignal(p.spec.network, ids)
              || BadSignal(p.spec.policyEngine, ids)
              || (exists c | c in p.spec.mesh :: BadComponent(c, ids))
              || (exists c | c in p.spec.collection :: BadComponent(c, ids))
              || BadStorage(p.spec.storage, ids)
  {
    var ids := Ids(p.spec.backends);
    var a := CatalogFindings(p.spec.backends);
    var b := FlatMap(OverlayFindings(p.spec.environments, ids), order);
    var c := SignalFindings("spec.profiling", p.spec.profiling, ids);
    var d := SignalFindings("spec.network", p.spec.network, ids);
    var e := SignalFindings("spec.policy_engine", p.spec.policyEngine, ids);
    var f := ListFindings("spec.mesh", p.spec.mesh, ids);
    var g := ListFindings("spec.collection", p.spec.collection, ids);
    var h := FlatMap(StorageFindings(p.spec.storage, ids), STORAGE_SIGNALS);
    CatalogErrors(p.spec.backends);
    OverlayErrors(p.spec.environments, ids, order);
    SignalErrors("spec.profiling", p.spec.profiling, ids);
    SignalErrors("spec.network", p.spec.network, ids);
    SignalErrors("spec.policy_engine", p.spec.policyEngine, ids);
    MemberErrors("spec.mesh", p.spec.mesh, ids);
    MemberErrors("spec.collection", p.spec.collection, ids);
    AllStorageErrors(p.spec.storage, ids);
    EightErrors(a, b, c, d, e, f, g, h);
  }

  lemma OverlayErrors(environments: Environments, ids: set<string>, order: seq<Overlay>)
    requires Visits(environments, order)
    ensures HasError(FlatMap(OverlayFindings(environments, ids), order))
       <==> exists o :: BadOverlay(environments, ids, o)
  {
    var f := OverlayFindings(environments, ids);
    FlatErrors(f, order);
    forall o | Declares(environments, o)
      ensures HasError(f(o)) <==> BadOverlay(environments, ids, o)
    {
      RefErrors("spec.environments." + o.name + ".backends." + o.signal, environments[o.name][o.signal], ids);
    }
    if o :| BadOverlay(environments, ids, o) {
      assert o in order && HasError(f(o));
    }
  }

  lemma SignalErrors(path: string, b: Option<Component>, ids: set<string>)
    ensures HasError(SignalFindings(path, b, ids)) <==> BadSignal(b, ids)
  {
    if b.Some? {
      ComponentErrors(path, b.value, ids);
    }
  }

  lemma MemberErrors(base: string, cs: seq<Component>, ids: set<string>)
    ensures HasError(ListFindings(base, cs, ids)) <==> exists c | c in cs :: BadComponent(c, ids)
  {
    var f := ComponentAt(base, cs, ids);
    FlatErrors(f, UpTo(|cs|));
    forall i: nat | i < |cs|
      ensures HasError(f(i)) <==> BadComponent(cs[i], ids)
      ensures i in UpTo(|cs|) && cs[i] in cs
    {
      ComponentErrors(ElementPath(base, i), cs[i], ids);
      assert UpTo(|cs|)[i] == i;
    }
  }

  lemma AllStorageErrors(storage: Fields, ids: set<string>)
    ensures HasError(FlatMap(StorageFindings(storage, ids), STORAGE_SIGNALS)) <==> BadStorage(storage, ids)
  {
    FlatErrors(StorageFindings(storage, ids), STORAGE_SIGNALS);
    forall s
      ensures HasError(StorageFindings(storage, ids)(s)) <==> BadBlock(Block(storage, s), ids)
    {
      StorageErrors(storage, ids, s);
    }
  }

  lemma EightErrors(a: seq<Finding>, b: seq<Finding>, c: seq<Finding>, d: seq<Finding>,
                    e: seq<Finding>, f: seq<Finding>, g: seq<Finding>, h: seq<Finding>)
    ensures HasError(a + b + c + d + e + f + g + h)
       <==> HasError(a) || HasError(b) || HasError(c) || HasError(d)
            || HasError(e) || HasError(f) || HasError(g) || HasError(h)
  {
    ErrorConcat(a, b);
    ErrorConcat(a + b, c);
    ErrorConcat(a + b + c, d);
    ErrorConcat(a + b + c + d, e);
    ErrorConcat(a + b + c + d + e, f);
    ErrorConcat(a + b + c + d + e + f, g);
    ErrorConcat(a + b + c + d + e + f + g, h);
  }
}

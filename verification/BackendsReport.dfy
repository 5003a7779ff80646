/**
 What the backend pass reports, entry by entry of the manifest (internal/lint/backends.go:44-178):
 which finding, of which severity, at which path, and for which reason.
 */
module BackendsReport {
  import opened Wrappers
  import opened Lists
  import opened Text
  import opened Numbers
  import opened Manifest
  import opened Findings
  import opened Versions
  import opened Backends

  /** A product outside the registry draws a warning. */
  predicate ProductCause(path: string, product: string, f: Finding) {
    product != "" && product !in KNOWN_PRODUCTS && f == Finding(Warn, RegistryUnknownProduct, path)
  }

  /** A gated version out of range: an error when enforced, a warning in every other mode but "off". */
  predicate VersionCause(path: string, v: Option<VersionSpec>, f: Finding) {
    && v.Some? && v.value.declared != "" && v.value.gating != "off"
    && f.path == path && f.severity == (if v.value.gating == "enforce" then Error else Warn)
    && (|| (v.value.min != "" && VersionLess(v.value.declared, v.value.min) && f.code == VersionsBelowMin)
        || (v.value.max != "" && VersionLess(v.value.max, v.value.declared) && f.code == VersionsAboveMax))
  }

  predicate RefCause(path: string, ref: string, ids: set<string>, f: Finding) {
    || (ref == "" && f == Finding(Error, BackendsEmptyRef, path))
    || (HasPrefix(ref, "ref:") && f == Finding(Info, BackendsExternal, path))
    || (ref != "" && !HasPrefix(ref, "ref:") && ref !in ids && f == Finding(Error, BackendsUnresolvedRef, path))
  }

  predicate CatalogCause(bs: seq<Backend>, i: nat, f: Finding)
    requires i < |bs|
  {
    var base := "spec.telemetry.backends[" + Decimal(i) + "]";
    || ((exists j | 0 <= j < i :: bs[j].id == bs[i].id) && f == Finding(Error, BackendsDuplicateId, base))
    || ProductCause(base + ".product", bs[i].product, f)
    || VersionCause(base + ".version", bs[i].version, f)
  }

  predicate CatalogReported(bs: seq<Backend>, f: Finding) {
    exists i | 0 <= i < |bs| :: CatalogCause(bs, i, f)
  }

  predicate OverlayCause(environments: Environments, ids: set<string>, o: Overlay, f: Finding) {
    && o.name in environments && o.signal in environments[o.name]
    && RefCause("spec.environments." + o.name + ".backends." + o.signal, environments[o.name][o.signal], ids, f)
  }

  /** A component or a signal block: its own reference is optional. */
  predicate ComponentCause(base: string, c: Component, ids: set<string>, f: Finding) {
    || ProductCause(base + ".product", c.product, f)
    || VersionCause(base + ".version", c.version, f)
    || (c.backend != "" && RefCause(base + ".backend", c.backend, ids, f))
  }

  predicate SignalCause(path: string, b: Option<Component>, ids: set<string>, f: Finding) {
    b.Some? && ComponentCause(path, b.value, ids, f)
  }

  predicate ListReported(base: string, cs: seq<Component>, ids: set<string>, f: Finding) {
    exists i | 0 <= i < |cs| :: ComponentCause(base + "[" + Decimal(i) + "]", cs[i], ids, f)
  }

  /** A storage block gates inline and has no upper bound. */
  predicate StorageCause(storage: Fields, signal: string, ids: set<string>, f: Finding) {
    && signal in storage && storage[signal].JObject?
    && var blk, path := storage[signal].fields, "spec.storage." + signal;
       || ProductCause(path + ".backend", StringField(blk, "backend"), f)
       || VersionCause(path, Some(VersionSpec(StringField(blk, "version"), StringField(blk, "min_version"), "",
                                              StringField(blk, "gating"))), f)
       || ("backend_ref" in blk && blk["backend_ref"].JString?
           && RefCause(path + ".backend_ref", blk["backend_ref"].s, ids, f))
  }

  ghost predicate Reported(p: Pack, f: Finding) {
    var ids := set b | b in p.spec.backends :: b.id;
    || CatalogReported(p.spec.backends, f)
    || (exists o :: OverlayCause(p.spec.environments, ids, o, f))
    || SignalCause("spec.profiling", p.spec.profiling, ids, f)
    || SignalCause("spec.network", p.spec.network, ids, f)
    || SignalCause("spec.policy_engine", p.spec.policyEngine, ids, f)
    || ListReported("spec.mesh", p.spec.mesh, ids, f)
    || ListReported("spec.collection", p.spec.collection, ids, f)
    || StorageCause(p.spec.storage, "metrics", ids, f) || StorageCause(p.spec.storage, "logs", ids, f)
    || StorageCause(p.spec.storage, "traces", ids, f)
  }

  lemma ProductExactly(path: string, product: string, f: Finding)
    ensures f in ProductFindings(path, product) <==> ProductCause(path, product, f)
  {
  }

  lemma VersionExactly(path: string, v: Option<VersionSpec>, f: Finding)
    ensures f in VersionFindings(path, v) <==> VersionCause(path, v, f)
  {
    if v.Some? {
      var sev := GateSeverity(v.value);
      OneOrTwo(BelowMin(v.value), Finding(sev, VersionsBelowMin, path),
               AboveMax(v.value), Finding(sev, VersionsAboveMax, path), f);
      BoundCause(path, v.value, f);
    }
  }

  lemma OneOrTwo(p: bool, a: Finding, q: bool, b: Finding, f: Finding)
    ensures f in (if p then [a] else []) + (if q then [b] else []) <==> (p && f == a) || (q && f == b)
  {
  }

  lemma BoundCause(path: string, v: VersionSpec, f: Finding)
    ensures VersionCause(path, Some(v), f) <==>
              || (BelowMin(v) && f == Finding(GateSeverity(v), VersionsBelowMin, path))
              || (AboveMax(v) && f == Finding(GateSeverity(v), VersionsAboveMax, path))
  {
  }

  lemma RefExactly(path: string, ref: string, ids: set<string>, f: Finding)
    ensures f in RefFindings(path, ref, ids) <==> RefCause(path, ref, ids, f)
  {
  }

  lemma InThree<T>(a: seq<T>, b: seq<T>, c: seq<T>, x: T)
    ensures x in a + b + c <==> x in a || x in b || x in c
  {
  }

  lemma EarlierId(bs: seq<Backend>, i: nat)
    requires i < |bs|
    ensures bs[i].id in Ids(bs[..i]) <==> exists j | 0 <= j < i :: bs[j].id == bs[i].id
  {
    if b :| b in bs[..i] && b.id == bs[i].id {
      var j :| 0 <= j < i && bs[..i][j] == b;
      assert bs[j].id == bs[i].id;
    }
    if j :| 0 <= j < i && bs[j].id == bs[i].id {
      assert bs[..i][j] in bs[..i];
    }
  }

  lemma BackendExactly(bs: seq<Backend>, i: nat, f: Finding)
    requires i < |bs|
    ensures f in BackendFindings(bs, i) <==> CatalogCause(bs, i, f)
  {
    var base := ElementPath("spec.telemetry.backends", i);
    var a := if bs[i].id in Ids(bs[..i]) then [Finding(Error, BackendsDuplicateId, base)] else [];
    EarlierId(bs, i);
    InThree(a, ProductFindings(base + ".product", bs[i].product), VersionFindings(base + ".version", bs[i].version), f);
    ProductExactly(base + ".product", bs[i].product, f);
    VersionExactly(base + ".version", bs[i].version, f);
    assert base == "spec.telemetry.backends[" + Decimal(i) + "]";
  }

  lemma InIndexed(g: nat -> seq<Finding>, n: nat, f: Finding)
    ensures f in FlatMap(g, UpTo(n)) <==> exists i: nat | i < n :: f in g(i)
  {
    FlatMapMember(g, UpTo(n), f);
    if i: nat :| i < n && f in g(i) {
      assert UpTo(n)[i] == i;
    }
  }

  lemma CatalogExactly(bs: seq<Backend>, f: Finding)
    ensures f in CatalogFindings(bs) <==> CatalogReported(bs, f)
  {
    var g := BackendAt(bs);
    InIndexed(g, |bs|, f);
    forall i: nat | i < |bs|
      ensures f in g(i) <==> CatalogCause(bs, i, f)
    {
      BackendExactly(bs, i, f);
    }
  }

  lemma ComponentExactly(base: string, c: Component, ids: set<string>, f: Finding)
    ensures f in ComponentFindings(base, c, ids) <==> ComponentCause(base, c, ids, f)
    ensures f in SignalFindings(base, Some(c), ids) <==> ComponentCause(base, c, ids, f)
  {
    var x, y := ProductFindings(base + ".product", c.product), VersionFindings(base + ".version", c.version);
    var z := OptionalRef(base + ".backend", c.backend, ids);
    InThree(x, y, z, f);
    InThree(z, x, y, f);
    ProductExactly(base + ".product", c.product, f);
    VersionExactly(base + ".version", c.version, f);
    RefExactly(base + ".backend", c.backend, ids, f);
  }

  lemma SignalExactly(path: string, b: Option<Component>, ids: set<string>, f: Finding)
    ensures f in SignalFindings(path, b, ids) <==> SignalCause(path, b, ids, f)
  {
    if b.Some? {
      ComponentExactly(path, b.value, ids, f);
    }
  }

  lemma ListExactly(base: string, cs: seq<Component>, ids: set<string>, f: Finding)
    ensures f in ListFindings(base, cs, ids) <==> ListReported(base, cs, ids, f)
  {
    var g := ComponentAt(base, cs, ids);
    InIndexed(g, |cs|, f);
    forall i: nat | i < |cs|
      ensures f in g(i) <==> ComponentCause(base + "[" + Decimal(i) + "]", cs[i], ids, f)
    {
      ComponentExactly(ElementPath(base, i), cs[i], ids, f);
    }
  }

  lemma OverlaysExactly(environments: Environments, ids: set<string>, order: seq<Overlay>, f: Finding)
    requires Visits(environments, order)
    ensures f in FlatMap(OverlayFindings(environments, ids), order) <==>
              exists o :: OverlayCause(environments, ids, o, f)
  {
    var g := OverlayFindings(environments, ids);
    FlatMapMember(g, order, f);
    forall o
      ensures f in g(o) <==> OverlayCause(environments, ids, o, f)
    {
      if Declares(environments, o) {
        RefExactly("spec.environments." + o.name + ".backends." + o.signal, environments[o.name][o.signal], ids, f);
      }
    }
    if o :| OverlayCause(environments, ids, o, f) {
      assert o in order && f in g(o);
    }
  }

  lemma StorageExactly(storage: Fields, signal: string, ids: set<string>, f: Finding)
    ensures f in StorageFindings(storage, ids)(signal) <==> StorageCause(storage, signal, ids, f)
  {
    var blk := Block(storage, signal);
    if blk.Some? {
      var path := "spec.storage." + signal;
      var ref := BlockRef(blk.value);
      var z := if ref == None then [] else RefFindings(path + ".backend_ref", ref.value, ids);
      InThree(ProductFindings(path + ".backend", StringField(blk.value, "backend")),
              VersionFindings(path, Some(BlockVersion(blk.value))), z, f);
      ProductExactly(path + ".backend", StringField(blk.value, "backend"), f);
      VersionExactly(path, Some(BlockVersion(blk.value)), f);
      if ref.Some? {
        RefExactly(path + ".backend_ref", ref.value, ids, f);
      }
    }
  }

  lemma AllStorageExactly(storage: Fields, ids: set<string>, f: Finding)
    ensures f in FlatMap(StorageFindings(storage, ids), STORAGE_SIGNALS) <==>
              || StorageCause(storage, "metrics", ids, f) || StorageCause(storage, "logs", ids, f)
              || StorageCause(storage, "traces", ids, f)
  {
    FlatMapMember(StorageFindings(storage, ids), STORAGE_SIGNALS, f);
    StorageExactly(storage, "metrics", ids, f);
    StorageExactly(storage, "logs", ids, f);
    StorageExactly(storage, "traces", ids, f);
    assert forall s | s in STORAGE_SIGNALS :: s == "metrics" || s == "logs" || s == "traces";
    assert STORAGE_SIGNALS[0] in STORAGE_SIGNALS && STORAGE_SIGNALS[1] in STORAGE_SIGNALS;
    assert STORAGE_SIGNALS[2] in STORAGE_SIGNALS;
  }

  lemma InEight<T>(a: seq<T>, b: seq<T>, c: seq<T>, d: seq<T>, e: seq<T>, g: seq<T>, h: seq<T>, k: seq<T>, x: T)
    ensures x in a + b + c + d + e + g + h + k <==>
              x in a || x in b || x in c || x in d || x in e || x in g || x in h || x in k
  {
  }

  /** What the pass reports, in any map order: exactly these findings, of every severity, at these paths. */
  lemma ReportExactly(p: Pack, order: seq<Overlay>, f: Finding)
    requires Visits(p.spec.environments, order)
    ensures f in BackendsFindings(p, order) <==> Reported(p, f)
  {
    var ids := Ids(p.spec.backends);
    InEight(CatalogFindings(p.spec.backends), FlatMap(OverlayFindings(p.spec.environments, ids), order),
            SignalFindings("spec.profiling", p.spec.profiling, ids),
            SignalFindings("spec.network", p.spec.network, ids),
            SignalFindings("spec.policy_engine", p.spec.policyEngine, ids),
            ListFindings("spec.mesh", p.spec.mesh, ids),
            ListFindings("spec.collection", p.spec.collection, ids),
            FlatMap(StorageFindings(p.spec.storage, ids), STORAGE_SIGNALS), f);
    CatalogExactly(p.spec.backends, f);
    OverlaysExactly(p.spec.environments, ids, order, f);
    SignalExactly("spec.profiling", p.spec.profiling, ids, f);
    SignalExactly("spec.network", p.spec.network, ids, f);
    SignalExactly("spec.policy_engine", p.spec.policyEngine, ids, f);
    ListExactly("spec.mesh", p.spec.mesh, ids, f);
    ListExactly("spec.collection", p.spec.collection, ids, f);
    AllStorageExactly(p.spec.storage, ids, f);
  }
}

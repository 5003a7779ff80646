/** What runs do to the cluster, and what the reported status says about it. */
module ClusterHistory {
  import opened Wrappers
  import opened Manifest
  import opened Conditions
  import opened Apply
  import opened Render
  import opened Controller
  import opened History
  import O = Operator
  import P = Planner
  import H = PlanHash

  /** The objects a pass may write, as it sends them. */
  function SentObjects(lib: H.Library, id: Identity, pass: Pass): seq<Object> {
    if pass.fetched.Found? then Owned(Sent(lib, id, pass.fetched.spec), id.uid) else []
  }

  lemma {:induction false} AcceptedOrigin(objs: seq<Object>, outcomes: Outcomes, owner: string, u: Object)
    requires u in Accepted(objs, outcomes, owner)
    ensures u in Owned(objs, owner)
  {
    if objs != [] {
      var n := |objs| - 1;
      assert Owned(objs, owner) == Owned(objs[..n], owner) + [objs[n].(owner := owner)];
      if u in Accepted(objs[..n], outcomes, owner) {
        AcceptedOrigin(objs[..n], outcomes, owner, u);
      }
    }
  }

  /** One pass keeps every key, and what it changes is an object it sent. */
  lemma StepOrigin(lib: H.Library, id: Identity, w: World, pass: Pass, k: Key)
    ensures var after := Next(lib, id, w, pass).cluster;
            && (k in w.cluster ==> k in after)
            && (k in after ==> (k in w.cluster && after[k] == w.cluster[k])
                               || (after[k] in SentObjects(lib, id, pass) && KeyOf(after[k]) == k))
  {
    if pass.fetched.Found? {
      var sent := Sent(lib, id, pass.fetched.spec);
      var accepted := Accepted(sent, pass.outcomes, id.uid);
      UpsertedLookup(w.cluster, accepted, k);
      LastWithMember(accepted, k);
      if LastWith(accepted, k).Some? {
        AcceptedOrigin(sent, pass.outcomes, id.uid, LastWith(accepted, k).value);
      }
    }
  }

  /**
   No run deletes an object, and whatever a run changed under a key is an object that some pass
   of the run sent, carrying the pack's own owner reference.
   */
  lemma {:induction false} ClusterOrigin(lib: H.Library, id: Identity, w: World, passes: seq<Pass>, k: Key)
    ensures var after := Run(lib, id, w, passes).cluster;
            && (k in w.cluster ==> k in after)
            && (k in after ==>
                  || (k in w.cluster && after[k] == w.cluster[k])
                  || (KeyOf(after[k]) == k && after[k].owner == id.uid
                      && exists i | 0 <= i < |passes| :: after[k] in SentObjects(lib, id, passes[i])))
  {
    if passes != [] {
      var n := |passes| - 1;
      ClusterOrigin(lib, id, w, passes[..n], k);
      StepOrigin(lib, id, Run(lib, id, w, passes[..n]), passes[n], k);
      assert forall i | 0 <= i < n :: passes[..n][i] == passes[i];
    }
  }

  /** A pass that is blocked, or whose core fails, leaves the cluster alone. */
  lemma NothingSentUnlessPlanned(lib: H.Library, id: Identity, w: World, pass: Pass)
    requires pass.fetched.Found?
    requires Core(lib, id, pass.fetched.spec).Err? || Core(lib, id, pass.fetched.spec).value.blocked
    ensures Next(lib, id, w, pass).cluster == w.cluster
  {
    assert Sent(lib, id, pass.fetched.spec) == [];
  }

  // ----- what a Ready status says about the cluster -----

  /** The part of a run up to the latest pass that wrote its status. */
  function UpToPersisted(passes: seq<Pass>): seq<Pass> {
    if passes == [] || Persisted(passes[|passes| - 1]) then passes
    else UpToPersisted(passes[..|passes| - 1])
  }

  /** The objects accepted after it, by passes whose status writes were lost. */
  function LostObjects(lib: H.Library, id: Identity, passes: seq<Pass>): seq<Object> {
    if passes == [] || Persisted(passes[|passes| - 1]) then []
    else
      var last := passes[|passes| - 1];
      LostObjects(lib, id, passes[..|passes| - 1]) + AcceptedBy(lib, id, last)
  }

  function AcceptedBy(lib: H.Library, id: Identity, pass: Pass): seq<Object> {
    if pass.fetched.Found? then Accepted(Sent(lib, id, pass.fetched.spec), pass.outcomes, id.uid) else []
  }

  lemma {:induction false} UpsertedOn(cluster: map<Key, Object>, a: seq<Object>, b: seq<Object>)
    ensures Upserted(Upserted(cluster, a), b) == Upserted(cluster, a + b)
  {
    if b == [] {
      assert a + b == a;
    } else {
      var n := |b| - 1;
      assert (a + b)[..|a| + n] == a + b[..n];
      UpsertedOn(cluster, a, b[..n]);
    }
  }

  lemma NextCluster(lib: H.Library, id: Identity, w: World, pass: Pass)
    ensures Next(lib, id, w, pass).cluster == Upserted(w.cluster, AcceptedBy(lib, id, pass))
  {
  }

  /** Since the latest written status, the cluster has changed by those objects alone. */
  lemma {:induction false} ClusterSince(lib: H.Library, id: Identity, w: World, passes: seq<Pass>)
    ensures Run(lib, id, w, passes).cluster
         == Upserted(Run(lib, id, w, UpToPersisted(passes)).cluster, LostObjects(lib, id, passes))
  {
    if passes != [] && !Persisted(passes[|passes| - 1]) {
      var n := |passes| - 1;
      ClusterSince(lib, id, w, passes[..n]);
      NextCluster(lib, id, Run(lib, id, w, passes[..n]), passes[n]);
      UpsertedOn(Run(lib, id, w, UpToPersisted(passes)).cluster, LostObjects(lib, id, passes[..n]),
                 AcceptedBy(lib, id, passes[n]));
    }
  }

  lemma {:induction false} StatusSince(lib: H.Library, id: Identity, passes: seq<Pass>)
    ensures After(lib, id, UpToPersisted(passes)) == After(lib, id, passes)
    ensures UpToPersisted(passes) != [] ==> Persisted(UpToPersisted(passes)[|UpToPersisted(passes)| - 1])
    ensures LastPersisted(passes) == if UpToPersisted(passes) == [] then None
                                     else Some(UpToPersisted(passes)[|UpToPersisted(passes)| - 1])
  {
    if passes != [] && !Persisted(passes[|passes| - 1]) {
      StatusSince(lib, id, passes[..|passes| - 1]);
    }
  }

  /** For each object, the last one accepted under its key is none or the object itself. */
  predicate Unspoiled(os: seq<Object>, late: seq<Object>) {
    forall o | o in os :: LastWith(late, KeyOf(o)) == None || LastWith(late, KeyOf(o)) == Some(o)
  }

  /** Which objects survive later upserts. */
  lemma IntactAfter(os: seq<Object>, late: seq<Object>, cluster: map<Key, Object>)
    ensures Intact(os, Upserted(Upserted(cluster, os), late)) <==> KeysDetermine(os) && Unspoiled(os, late)
  {
    var first := Upserted(cluster, os);
    IntactExactly(os, os, cluster);
    forall o | o in os
      ensures KeyOf(o) in first
      ensures var after := Upserted(first, late);
              KeyOf(o) in after &&
              after[KeyOf(o)] == match LastWith(late, KeyOf(o)) case Some(x) => x case None => first[KeyOf(o)]
    {
      LastWithMember(os, KeyOf(o));
      UpsertedLookup(cluster, os, KeyOf(o));
      UpsertedLookup(first, late, KeyOf(o));
    }
  }

  /** A pass with the verdict Applied had every object accepted. */
  lemma AppliedAcceptsAll(lib: H.Library, id: Identity, pass: Pass)
    requires pass.fetched.Found? && PassVerdict(lib, id, pass).Applied?
    ensures Deployable(lib, id, pass.fetched.spec)
    ensures AcceptedBy(lib, id, pass) == SentObjects(lib, id, pass)
  {
    PlanPresent(lib, id, pass.fetched.spec);
    AppliedExactly(Core(lib, id, pass.fetched.spec), pass.fetched.spec.target, pass);
    AllAccepted(Sent(lib, id, pass.fetched.spec), pass.outcomes, id.uid);
  }

  /** Phase Ready means that the latest written status was that of an applied pass. */
  lemma ReadyApplied(lib: H.Library, id: Identity, passes: seq<Pass>)
    requires After(lib, id, passes).phase == PhaseReady
    ensures var q := LastPersisted(passes);
            q.Some? && q.value.fetched.Found? && PassVerdict(lib, id, q.value).Applied?
    ensures UpToPersisted(passes) != []
  {
    StatusSince(lib, id, passes);
    StepEffect(lib, id, UpToPersisted(passes));
  }

  /**
   Ready, exactly: when a run ends in phase Ready, the cluster holds every object of the spec that
   status reports, as rendered, if and only if objects of that spec sharing a key are the same
   object and no pass with a lost status write has since left another object under one of the keys.
   */
  lemma ReadyExactly(lib: H.Library, id: Identity, cluster: map<Key, Object>, passes: seq<Pass>)
    requires After(lib, id, passes).phase == PhaseReady
    ensures LastPersisted(passes).Some?
    ensures var sent := SentObjects(lib, id, LastPersisted(passes).value);
            Intact(sent, Run(lib, id, World(EMPTY_STATUS, cluster), passes).cluster) <==>
              KeysDetermine(sent) && Unspoiled(sent, LostObjects(lib, id, passes))
  {
    var w := World(EMPTY_STATUS, cluster);
    ReadyApplied(lib, id, passes);
    ClusterSince(lib, id, w, passes);
    var before := ReadyCluster(lib, id, w, passes);
    IntactAfter(SentObjects(lib, id, LastPersisted(passes).value), LostObjects(lib, id, passes), before);
  }

  /** The latest written pass put all its objects on top of what it found. */
  lemma ReadyCluster(lib: H.Library, id: Identity, w: World, passes: seq<Pass>) returns (before: map<Key, Object>)
    requires LastPersisted(passes).Some? && LastPersisted(passes).value.fetched.Found?
    requires PassVerdict(lib, id, LastPersisted(passes).value).Applied?
    ensures Run(lib, id, w, UpToPersisted(passes)).cluster
         == Upserted(before, SentObjects(lib, id, LastPersisted(passes).value))
  {
    StatusSince(lib, id, passes);
    var prefix := UpToPersisted(passes);
    var n := |prefix| - 1;
    before := Run(lib, id, w, prefix[..n]).cluster;
    NextCluster(lib, id, Run(lib, id, w, prefix[..n]), prefix[n]);
    AppliedAcceptsAll(lib, id, prefix[n]);
  }

  /** The latest pass that read the resource. */
  function LastRead(passes: seq<Pass>): Option<Pass> {
    if passes == [] then None
    else if passes[|passes| - 1].fetched.Found? then Some(passes[|passes| - 1])
    else LastRead(passes[..|passes| - 1])
  }

  lemma {:induction false} NothingLost(lib: H.Library, id: Identity, passes: seq<Pass>)
    requires LastRead(passes).Some? && LastRead(passes).value.writeOk
    ensures LostObjects(lib, id, passes) == [] && LastPersisted(passes) == LastRead(passes)
  {
    if passes != [] && !passes[|passes| - 1].fetched.Found? {
      NothingLost(lib, id, passes[..|passes| - 1]);
    }
  }

  /**
   Ready means applied: when a run ends in phase Ready and the latest pass that read the resource
   also wrote its status, the cluster holds every object of that spec if and only if objects
   sharing a key are the same object.
   */
  lemma ReadyMeansApplied(lib: H.Library, id: Identity, cluster: map<Key, Object>, passes: seq<Pass>)
    requires After(lib, id, passes).phase == PhaseReady
    requires LastRead(passes).Some? && LastRead(passes).value.writeOk
    ensures var sent := SentObjects(lib, id, LastRead(passes).value);
            Intact(sent, Run(lib, id, World(EMPTY_STATUS, cluster), passes).cluster) <==> KeysDetermine(sent)
  {
    NothingLost(lib, id, passes);
    ReadyExactly(lib, id, cluster, passes);
  }

  // ----- that condition, on the manifest -----

  /** Dashboards of a manifest that share an id render to the same object. */
  predicate ManifestDashboardsAgree(m: Pack) {
    forall d, e | d in m.spec.dashboards && e in m.spec.dashboards && d.id == e.id ::
      DashboardSpec(m.service, P.PlanDashboard(d)) == DashboardSpec(m.service, P.PlanDashboard(e))
  }

  lemma PlannedDashboards(m: Pack, pl: P.Plan)
    requires pl.grafana == P.PlanGrafana(m)
    ensures DashboardsAgree(pl) <==> ManifestDashboardsAgree(m)
  {
    var ds, ps := m.spec.dashboards, pl.grafana.dashboards;
    forall d | d in ds
      ensures P.PlanDashboard(d) in ps
    {
      var i :| 0 <= i < |ds| && ds[i] == d;
      assert ps[i] == P.PlanDashboard(d);
    }
    forall x | x in ps
      ensures exists d | d in ds :: x == P.PlanDashboard(d)
    {
      var i :| 0 <= i < |ps| && ps[i] == x;
      assert ds[i] in ds;
    }
  }

  lemma OwnedDetermine(os: seq<Object>, owner: string)
    requires forall o | o in os :: o.owner == ""
    ensures KeysDetermine(Owned(os, owner)) <==> KeysDetermine(os)
  {
    var us := Owned(os, owner);
    forall o | o in os
      ensures o.(owner := owner) in us
    {
      var i :| 0 <= i < |os| && os[i] == o;
      assert us[i] == o.(owner := owner);
    }
    forall u | u in us
      ensures u.(owner := "") in os && u.owner == owner
    {
      var i :| 0 <= i < |us| && us[i] == u;
      assert os[i] in os && os[i].owner == "";
    }
    if KeysDetermine(us) {
      forall x, y | x in os && y in os && KeyOf(x) == KeyOf(y)
        ensures x == y
      {
        assert x.(owner := owner) == y.(owner := owner);
      }
    }
    if KeysDetermine(os) {
      forall x, y | x in us && y in us && KeyOf(x) == KeyOf(y)
        ensures x == y
      {
        assert x.(owner := "") == y.(owner := "");
      }
    }
  }

  lemma RenderedUnowned(pl: P.Plan, namespace: string)
    ensures forall o | o in Objects(pl, namespace) :: o.owner == ""
  {
    forall o | o in Objects(pl, namespace)
      ensures o.owner == ""
    {
      RenderedOrigin(pl, namespace, o);
    }
  }

  function NamespaceOf(id: Identity, spec: PackSpec): string {
    if spec.namespace == "" then id.namespace else spec.namespace
  }

  /** What a pass over a deployable spec sends: the rendering of the spec's own plan. */
  lemma SentIsRendered(lib: H.Library, id: Identity, spec: PackSpec) returns (pl: P.Plan)
    requires Deployable(lib, id, spec)
    ensures spec.manifest.Parsed? && Sent(lib, id, spec) == Objects(pl, NamespaceOf(id, spec))
    ensures pl.pack == spec.manifest.pack.name && pl.version == spec.manifest.pack.version
    ensures pl.grafana == P.PlanGrafana(spec.manifest.pack)
  {
    var res := Core(lib, id, spec).value;
    O.CorePlan(lib, spec.manifest, spec.target, NamespaceOf(id, spec), spec.azure, res);
    O.CoreRendered(lib, spec.manifest, spec.target, NamespaceOf(id, spec), spec.azure, res);
    pl := res.plan.value;
  }

  /** Objects of a deployable spec that share a key are the same exactly when its dashboards agree. */
  lemma SentDetermineExactly(lib: H.Library, id: Identity, pass: Pass)
    requires pass.fetched.Found? && Deployable(lib, id, pass.fetched.spec)
    ensures pass.fetched.spec.manifest.Parsed?
    ensures KeysDetermine(SentObjects(lib, id, pass)) <==> ManifestDashboardsAgree(pass.fetched.spec.manifest.pack)
  {
    var spec := pass.fetched.spec;
    var ns := NamespaceOf(id, spec);
    var pl := SentIsRendered(lib, id, spec);
    RenderedUnowned(pl, ns);
    OwnedDetermine(Objects(pl, ns), id.uid);
    if DashboardsAgree(pl) {
      AgreeingDetermine(pl, ns);
    }
    if KeysDetermine(Objects(pl, ns)) {
      DetermineAgree(pl, ns);
    }
    PlannedDashboards(spec.manifest.pack, pl);
  }

  // ----- a run in which Ready no longer tells the truth -----

  lemma LastOfKind(os: seq<Object>, k: Key, o: Object)
    requires o in os && KeyOf(o) == k && forall x | x in os && KeyOf(x) == k :: x == o
    ensures LastWith(os, k) == Some(o)
  {
    LastWithMember(os, k);
  }

  /** The collector is the one object of its kind a pass sends. */
  lemma CollectorSent(lib: H.Library, id: Identity, pass: Pass) returns (o: Object)
    requires pass.fetched.Found? && Deployable(lib, id, pass.fetched.spec)
    ensures pass.fetched.spec.manifest.Parsed? && o in SentObjects(lib, id, pass)
    ensures KeyOf(o) == Key(OTEL_KIND, NamespaceOf(id, pass.fetched.spec),
                            "pack-" + pass.fetched.spec.manifest.pack.name + "-gateway")
    ensures "observability.platform/pack-version" in o.labels
    ensures o.labels["observability.platform/pack-version"] == pass.fetched.spec.manifest.pack.version
    ensures forall x | x in SentObjects(lib, id, pass) && x.kind == OTEL_KIND :: x == o
  {
    var ns := NamespaceOf(id, pass.fetched.spec);
    var pl := SentIsRendered(lib, id, pass.fetched.spec);
    var os, us := Objects(pl, ns), SentObjects(lib, id, pass);
    o := OTelObject(pl, ns).(owner := id.uid);
    assert os[|os| - 1] == OTelObject(pl, ns);
    assert us[|us| - 1] == o;
    forall x | x in us && x.kind == OTEL_KIND
      ensures x == o
    {
      var i :| 0 <= i < |us| && us[i] == x;
      RenderedOrigin(pl, ns, os[i]);
    }
  }

  /** A pass whose status write is lost changes nothing but the cluster. */
  lemma LostPass(lib: H.Library, id: Identity, w: World, passes: seq<Pass>, lost: Pass)
    requires lost.fetched.Found? && !lost.writeOk
    ensures After(lib, id, passes + [lost]) == After(lib, id, passes)
    ensures LastPersisted(passes + [lost]) == LastPersisted(passes)
    ensures Run(lib, id, w, passes + [lost]).cluster
         == Upserted(Run(lib, id, w, passes).cluster, AcceptedBy(lib, id, lost))
  {
    assert (passes + [lost])[..|passes|] == passes;
    NextCluster(lib, id, Run(lib, id, w, passes), lost);
  }

  lemma AppliedPass(lib: H.Library, id: Identity, passes: seq<Pass>, last: Pass)
    requires Persisted(last) && PassVerdict(lib, id, last).Applied?
    ensures After(lib, id, passes + [last]).phase == PhaseReady
    ensures LastPersisted(passes + [last]) == Some(last)
  {
    StepEffect(lib, id, passes + [last]);
  }

  /**
   A failing run: at the end of any run, a pass applies a spec and writes Ready; an edit bumps the
   version, and the pass that applies it loses its status write. The status still reports the
   first spec as Ready, and that spec's collector is gone from the cluster.
   */
  lemma LostWriteSplits(lib: H.Library, id: Identity, cluster: map<Key, Object>, earlier: seq<Pass>,
                        first: Pass, second: Pass)
    requires Persisted(first) && PassVerdict(lib, id, first).Applied?
    requires second.fetched.Found? && !second.writeOk && PassVerdict(lib, id, second).Applied?
    requires first.fetched.spec.manifest.Parsed? && second.fetched.spec.manifest.Parsed?
    requires first.fetched.spec.manifest.pack.name == second.fetched.spec.manifest.pack.name
    requires NamespaceOf(id, first.fetched.spec) == NamespaceOf(id, second.fetched.spec)
    requires first.fetched.spec.manifest.pack.version != second.fetched.spec.manifest.pack.version
    ensures var run := earlier + [first] + [second];
            && After(lib, id, run).phase == PhaseReady && LastPersisted(run) == Some(first)
            && exists o | o in SentObjects(lib, id, first) ::
                 Displaced(o, Run(lib, id, World(EMPTY_STATUS, cluster), run).cluster, SentObjects(lib, id, second))
  {
    var w := World(EMPTY_STATUS, cluster);
    AppliedPass(lib, id, earlier, first);
    LostPass(lib, id, w, earlier + [first], second);
    AppliedAcceptsAll(lib, id, first);
    AppliedAcceptsAll(lib, id, second);
    var o := CollectorSent(lib, id, first);
    var o' := CollectorSent(lib, id, second);
    LastOfKind(SentObjects(lib, id, second), KeyOf(o), o');
    UpsertedLookup(Run(lib, id, w, earlier + [first]).cluster, SentObjects(lib, id, second), KeyOf(o));
    assert Displaced(o, Run(lib, id, w, earlier + [first] + [second]).cluster, SentObjects(lib, id, second));
  }

  /** Another object, one of `others`, has taken the place of `o`. */
  predicate Displaced(o: Object, cluster: map<Key, Object>, others: seq<Object>) {
    KeyOf(o) in cluster && cluster[KeyOf(o)] != o && cluster[KeyOf(o)] in others
  }
}

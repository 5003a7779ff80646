/**
 What the reference pass reports, place by place of the manifest (internal/lint/refs.go:15-126):
 which finding, at which path, for which reason, without going through the order of the visit.
 */
module RefsReport {
  import opened Lists
  import opened Text
  import opened Numbers
  import opened Manifest
  import opened Findings
  import opened Refs

  /** A reference that needs no finding of severity error. */
  predicate Sound(ref: string, section: string, ids: set<string>) {
    ref != "" && (HasPrefix(ref, "ref:") || Names(ref, section, ids))
  }

  /** The finding one reference gets at a path, if it names nothing of the wanted kind unless `named`. */
  predicate RefCause(path: string, ref: string, named: bool, f: Finding) {
    || (ref == "" && f == Finding(Error, RefsEmpty, path))
    || (HasPrefix(ref, "ref:") && f == Finding(Info, RefsExternal, path))
    || (ref != "" && !HasPrefix(ref, "ref:") && !named && f == Finding(Error, RefsUnresolved, path))
  }

  function ListPath(base: string, i: nat, leaf: string): string {
    base + "[" + Decimal(i) + "]." + leaf
  }

  /** Some burn-rate window gives this alert name once prefixes and punctuation are gone. */
  predicate Expected(p: Pack, name: string) {
    exists b, w | b in p.spec.policy.burnRateAlerts && w in b.windows ::
      name == StripRef(b.slo) + "_burn_" + Sanitize(w.short) + "_" + Sanitize(w.long)
  }

  predicate SloReported(p: Pack, f: Finding) {
    exists i | 0 <= i < |p.spec.slos| ::
      RefCause("slos." + p.spec.slos[i].id + ".sli", p.spec.slos[i].sli,
               Names(p.spec.slos[i].sli, "slis", SliIds(p)), f)
  }

  predicate BurnReported(p: Pack, f: Finding) {
    var burns := p.spec.policy.burnRateAlerts;
    exists i | 0 <= i < |burns| ::
      RefCause(ListPath("spec.policy.burn_rate_alerts", i, "slo"), burns[i].slo,
               Names(burns[i].slo, "slos", SloIds(p)), f)
  }

  predicate ForecastReported(p: Pack, f: Finding) {
    var forecasts := p.spec.policy.forecasts;
    exists i | 0 <= i < |forecasts| ::
      RefCause(ListPath("spec.policy.forecasts", i, "slo"), forecasts[i], Names(forecasts[i], "slos", SloIds(p)), f)
  }

  predicate TriggerCause(p: Pack, i: nat, f: Finding)
    requires i < |p.spec.remediation|
  {
    var trigger, path := p.spec.remediation[i].trigger, ListPath("spec.remediation", i, "trigger");
    || (!HasPrefix(trigger, "alert:") && f == Finding(Error, RefsBadTrigger, path))
    || (HasPrefix(trigger, "alert:") && !Expected(p, trigger[6..]) && f == Finding(Warn, RefsUnknownAlert, path))
  }

  predicate TriggerReported(p: Pack, f: Finding) {
    exists i | 0 <= i < |p.spec.remediation| :: TriggerCause(p, i, f)
  }

  predicate PanelCause(p: Pack, di: nat, pi: nat, f: Finding)
    requires di < |p.spec.dashboards| && pi < |p.spec.dashboards[di].panelBindings|
  {
    var ref := p.spec.dashboards[di].panelBindings[pi];
    RefCause(ListPath("spec.dashboards", di, "panel_bindings." + Decimal(pi) + ".binds_to"), ref,
             Names(ref, "slis", SliIds(p)) || Names(ref, "slos", SloIds(p)), f)
  }

  predicate DashboardReported(p: Pack, di: nat, f: Finding)
    requires di < |p.spec.dashboards|
  {
    exists pi | 0 <= pi < |p.spec.dashboards[di].panelBindings| :: PanelCause(p, di, pi, f)
  }

  predicate PanelReported(p: Pack, f: Finding) {
    exists di | 0 <= di < |p.spec.dashboards| :: DashboardReported(p, di, f)
  }

  /** An expected alert of a chaos experiment that is a text and that no window gives. */
  predicate ChaosCause(p: Pack, vi: nat, ai: nat, f: Finding)
    requires vi < |p.spec.chaosExperiments|
  {
    var exp := p.spec.chaosExperiments[vi];
    && "expected_alerts" in exp && exp["expected_alerts"].JArray? && ai < |exp["expected_alerts"].items|
    && exp["expected_alerts"].items[ai].JString? && !Expected(p, exp["expected_alerts"].items[ai].s)
    && f == Finding(Warn, RefsUnknownAlert,
                    ListPath("spec.validation.chaos_experiments", vi, "expected_alerts." + Decimal(ai)))
  }

  predicate ExperimentReported(p: Pack, vi: nat, f: Finding)
    requires vi < |p.spec.chaosExperiments|
  {
    exists ai | 0 <= ai < |ExpectedAlerts(p.spec.chaosExperiments[vi])| :: ChaosCause(p, vi, ai, f)
  }

  predicate ChaosReported(p: Pack, f: Finding) {
    exists vi | 0 <= vi < |p.spec.chaosExperiments| :: ExperimentReported(p, vi, f)
  }

  lemma RefCauseExactly(path: string, ref: string, kind: Kind, slis: set<string>, slos: set<string>, f: Finding)
    ensures f in RefFindings(path, ref, kind, slis, slos) <==> RefCause(path, ref, Resolves(ref, kind, slis, slos), f)
  {
  }

  lemma {:induction false} KnownExactly(p: Pack, name: string)
    ensures name in KnownAlerts(p) <==> Expected(p, name)
  {
    var burns := p.spec.policy.burnRateAlerts;
    UnionMember(NamesOf, burns, name);
    forall b
      ensures name in NamesOf(b) <==> exists w | w in b.windows :: LintAlertName(b.slo, w) == name
    {
      NamesOfMember(b, name);
    }
    if name in KnownAlerts(p) {
      var b :| b in burns && name in NamesOf(b);
      var w :| w in b.windows && LintAlertName(b.slo, w) == name;
      assert name == StripRef(b.slo) + "_burn_" + Sanitize(w.short) + "_" + Sanitize(w.long);
    }
    if Expected(p, name) {
      var b, w :| b in burns && w in b.windows
                  && name == StripRef(b.slo) + "_burn_" + Sanitize(w.short) + "_" + Sanitize(w.long);
      assert LintAlertName(b.slo, w) == name;
    }
  }

  /** A finding of a list of sites is a finding of one of them. */
  lemma FromSite(p: Pack, sites: seq<Site>, f: Finding)
    ensures f in Report(p, sites) <==> exists i | 0 <= i < |sites| :: f in SiteFindings(p, sites[i])
  {
    FlatMapMember(Judge(p), sites, f);
    if f in Report(p, sites) {
      var site :| site in sites && f in Judge(p)(site);
      var i :| 0 <= i < |sites| && sites[i] == site;
      assert f in SiteFindings(p, sites[i]);
    }
    if i :| 0 <= i < |sites| && f in SiteFindings(p, sites[i]) {
      assert sites[i] in sites && f in Judge(p)(sites[i]);
    }
  }

  lemma SlosExactly(p: Pack, f: Finding)
    ensures f in Report(p, SloSites(p)) <==> SloReported(p, f)
  {
    FromSite(p, SloSites(p), f);
    forall i | 0 <= i < |p.spec.slos|
      ensures f in SiteFindings(p, SloSites(p)[i]) <==>
                RefCause("slos." + p.spec.slos[i].id + ".sli", p.spec.slos[i].sli,
                         Names(p.spec.slos[i].sli, "slis", SliIds(p)), f)
    {
      RefCauseExactly("slos." + p.spec.slos[i].id + ".sli", p.spec.slos[i].sli, NeedsSli, SliIds(p), SloIds(p), f);
    }
  }

  lemma BurnsExactly(p: Pack, f: Finding)
    ensures f in Report(p, BurnSites(p)) <==> BurnReported(p, f)
  {
    var burns := p.spec.policy.burnRateAlerts;
    FromSite(p, BurnSites(p), f);
    forall i | 0 <= i < |burns|
      ensures f in SiteFindings(p, BurnSites(p)[i]) <==>
                RefCause(ListPath("spec.policy.burn_rate_alerts", i, "slo"), burns[i].slo,
                         Names(burns[i].slo, "slos", SloIds(p)), f)
    {
      RefCauseExactly(RefPath(BURN_PATH, i, "slo"), burns[i].slo, NeedsSlo, SliIds(p), SloIds(p), f);
    }
  }

  lemma ForecastsExactly(p: Pack, f: Finding)
    ensures f in Report(p, ForecastSites(p)) <==> ForecastReported(p, f)
  {
    var forecasts := p.spec.policy.forecasts;
    FromSite(p, ForecastSites(p), f);
    forall i | 0 <= i < |forecasts|
      ensures f in SiteFindings(p, ForecastSites(p)[i]) <==>
                RefCause(ListPath("spec.policy.forecasts", i, "slo"), forecasts[i],
                         Names(forecasts[i], "slos", SloIds(p)), f)
    {
      RefCauseExactly(RefPath(FORECAST_PATH, i, "slo"), forecasts[i], NeedsSlo, SliIds(p), SloIds(p), f);
    }
  }

  lemma TriggersExactly(p: Pack, f: Finding)
    ensures f in Report(p, TriggerSites(p)) <==> TriggerReported(p, f)
  {
    FromSite(p, TriggerSites(p), f);
    forall i | 0 <= i < |p.spec.remediation|
      ensures f in SiteFindings(p, TriggerSites(p)[i]) <==> TriggerCause(p, i, f)
    {
      var trigger := p.spec.remediation[i].trigger;
      if HasPrefix(trigger, "alert:") {
        KnownExactly(p, trigger[6..]);
      }
    }
  }

  lemma BindingsExactly(p: Pack, di: nat, f: Finding)
    requires di < |p.spec.dashboards|
    ensures f in Report(p, BindingSites(p.spec.dashboards[di], di)) <==> DashboardReported(p, di, f)
  {
    var d := p.spec.dashboards[di];
    FromSite(p, BindingSites(d, di), f);
    forall pi | 0 <= pi < |d.panelBindings|
      ensures f in SiteFindings(p, BindingSites(d, di)[pi]) <==> PanelCause(p, di, pi, f)
    {
      RefCauseExactly(PanelPath(di, pi), d.panelBindings[pi], NeedsEither, SliIds(p), SloIds(p), f);
    }
  }

  lemma PanelStep(p: Pack, n: nat, f: Finding)
    requires 0 < n <= |p.spec.dashboards|
    ensures f in Report(p, PanelSites(p, n)) <==>
              f in Report(p, PanelSites(p, n - 1)) || DashboardReported(p, n - 1, f)
  {
    FlatMapConcat(Judge(p), PanelSites(p, n - 1), BindingSites(p.spec.dashboards[n - 1], n - 1));
    BindingsExactly(p, n - 1, f);
  }

  lemma {:induction false} PanelFound(p: Pack, n: nat, f: Finding) returns (di: nat)
    requires n <= |p.spec.dashboards| && f in Report(p, PanelSites(p, n))
    ensures di < n && DashboardReported(p, di, f)
  {
    if n > 0 {
      PanelStep(p, n, f);
      if DashboardReported(p, n - 1, f) {
        di := n - 1;
      } else {
        di := PanelFound(p, n - 1, f);
      }
    }
  }

  lemma {:induction false} PanelMissed(p: Pack, n: nat, di: nat, f: Finding)
    requires di < n <= |p.spec.dashboards| && DashboardReported(p, di, f)
    ensures f in Report(p, PanelSites(p, n))
  {
    PanelStep(p, n, f);
    if di < n - 1 {
      PanelMissed(p, n - 1, di, f);
    }
  }

  lemma PanelsExactly(p: Pack, f: Finding)
    ensures f in Report(p, PanelSites(p, |p.spec.dashboards|)) <==> PanelReported(p, f)
  {
    var n := |p.spec.dashboards|;
    if f in Report(p, PanelSites(p, n)) {
      var di := PanelFound(p, n, f);
    }
    if di :| 0 <= di < n && DashboardReported(p, di, f) {
      PanelMissed(p, n, di, f);
    }
  }

  /** The finding of one expected alert. */
  lemma ExpectedOne(p: Pack, vi: nat, ai: nat, f: Finding)
    requires vi < |p.spec.chaosExperiments| && ai < |ExpectedAlerts(p.spec.chaosExperiments[vi])|
    ensures ChaosCause(p, vi, ai, f) <==>
              && ExpectedAlerts(p.spec.chaosExperiments[vi])[ai].JString?
              && ExpectedAlerts(p.spec.chaosExperiments[vi])[ai].s !in KnownAlerts(p)
              && f == Finding(Warn, RefsUnknownAlert, RefPath(CHAOS_PATH, vi, "expected_alerts." + Decimal(ai)))
  {
    var name := ExpectedAlerts(p.spec.chaosExperiments[vi])[ai];
    if name.JString? {
      KnownExactly(p, name.s);
    }
  }

  lemma {:induction false} ExpectedExactly(p: Pack, vi: nat, n: nat, f: Finding)
    requires vi < |p.spec.chaosExperiments| && n <= |ExpectedAlerts(p.spec.chaosExperiments[vi])|
    ensures f in ExpectedFindings(KnownAlerts(p), ExpectedAlerts(p.spec.chaosExperiments[vi])[..n], vi) <==>
              exists ai | 0 <= ai < n :: ChaosCause(p, vi, ai, f)
  {
    var names := ExpectedAlerts(p.spec.chaosExperiments[vi]);
    if n > 0 {
      assert names[..n][..n - 1] == names[..n - 1];
      ExpectedExactly(p, vi, n - 1, f);
      ExpectedOne(p, vi, n - 1, f);
    }
  }

  lemma ChaosStep(p: Pack, n: nat, f: Finding)
    requires 0 < n <= |p.spec.chaosExperiments|
    ensures f in ChaosFindings(p, n) <==> f in ChaosFindings(p, n - 1) || ExperimentReported(p, n - 1, f)
  {
    var names := ExpectedAlerts(p.spec.chaosExperiments[n - 1]);
    ExpectedExactly(p, n - 1, |names|, f);
    assert names[..|names|] == names;
  }

  lemma {:induction false} ChaosFound(p: Pack, n: nat, f: Finding) returns (vi: nat)
    requires n <= |p.spec.chaosExperiments| && f in ChaosFindings(p, n)
    ensures vi < n && ExperimentReported(p, vi, f)
  {
    if n > 0 {
      ChaosStep(p, n, f);
      if ExperimentReported(p, n - 1, f) {
        vi := n - 1;
      } else {
        vi := ChaosFound(p, n - 1, f);
      }
    }
  }

  lemma {:induction false} ChaosMissed(p: Pack, n: nat, vi: nat, f: Finding)
    requires vi < n <= |p.spec.chaosExperiments| && ExperimentReported(p, vi, f)
    ensures f in ChaosFindings(p, n)
  {
    ChaosStep(p, n, f);
    if vi < n - 1 {
      ChaosMissed(p, n - 1, vi, f);
    }
  }

  lemma ChaosExactly(p: Pack, f: Finding)
    ensures f in ChaosFindings(p, |p.spec.chaosExperiments|) <==> ChaosReported(p, f)
  {
    var n := |p.spec.chaosExperiments|;
    if f in ChaosFindings(p, n) {
      var vi := ChaosFound(p, n, f);
    }
    if vi :| 0 <= vi < n && ExperimentReported(p, vi, f) {
      ChaosMissed(p, n, vi, f);
    }
  }

  /** The sections of the report, in the order of the visit. */
  lemma Sections(p: Pack)
    ensures RefsFindings(p)
         == Report(p, SloSites(p)) + Report(p, BurnSites(p)) + Report(p, ForecastSites(p))
            + Report(p, TriggerSites(p)) + Report(p, PanelSites(p, |p.spec.dashboards|))
            + ChaosFindings(p, |p.spec.chaosExperiments|)
  {
    SitesReport(p, []);
    NoPrefix(Report(p, SloSites(p)));
    NoPrefix(Report(p, Sites(p)));
  }

  lemma NoPrefix<T>(a: seq<T>)
    ensures [] + a == a
  {
  }

  lemma InSix<T>(a: seq<T>, b: seq<T>, c: seq<T>, d: seq<T>, e: seq<T>, g: seq<T>, x: T)
    ensures x in a + b + c + d + e + g <==> x in a || x in b || x in c || x in d || x in e || x in g
  {
  }

  /** What the pass reports: exactly these findings, of every severity, at these paths. */
  lemma ReportExactly(p: Pack, f: Finding)
    ensures f in RefsFindings(p) <==> Reported(p, f)
  {
    Sections(p);
    InSix(Report(p, SloSites(p)), Report(p, BurnSites(p)), Report(p, ForecastSites(p)), Report(p, TriggerSites(p)),
          Report(p, PanelSites(p, |p.spec.dashboards|)), ChaosFindings(p, |p.spec.chaosExperiments|), f);
    SlosExactly(p, f);
    BurnsExactly(p, f);
    ForecastsExactly(p, f);
    TriggersExactly(p, f);
    PanelsExactly(p, f);
    ChaosExactly(p, f);
  }

  predicate Reported(p: Pack, f: Finding) {
    || SloReported(p, f) || BurnReported(p, f) || ForecastReported(p, f)
    || TriggerReported(p, f) || PanelReported(p, f) || ChaosReported(p, f)
  }

  // ----- when a pack is clean -----

  /** Every reference of the manifest is external or names what it needs; every trigger names an alert. */
  predicate Clean(p: Pack) {
    && (forall s | s in p.spec.slos :: Sound(s.sli, "slis", SliIds(p)))
    && (forall b | b in p.spec.policy.burnRateAlerts :: Sound(b.slo, "slos", SloIds(p)))
    && (forall ref | ref in p.spec.policy.forecasts :: Sound(ref, "slos", SloIds(p)))
    && (forall rm | rm in p.spec.remediation :: HasPrefix(rm.trigger, "alert:"))
    && (forall d, ref | d in p.spec.dashboards && ref in d.panelBindings ::
          Sound(ref, "slis", SliIds(p)) || Sound(ref, "slos", SloIds(p)))
  }

  lemma CleanLists(p: Pack, s: Site)
    requires Clean(p)
    requires s in SloSites(p) || s in BurnSites(p) || s in ForecastSites(p) || s in TriggerSites(p)
    ensures !Defective(p, s)
  {
    if i :| 0 <= i < |SloSites(p)| && SloSites(p)[i] == s {
      assert p.spec.slos[i] in p.spec.slos;
    } else if i :| 0 <= i < |BurnSites(p)| && BurnSites(p)[i] == s {
      assert p.spec.policy.burnRateAlerts[i] in p.spec.policy.burnRateAlerts;
    } else if i :| 0 <= i < |ForecastSites(p)| && ForecastSites(p)[i] == s {
      assert p.spec.policy.forecasts[i] in p.spec.policy.forecasts;
    } else {
      var i :| 0 <= i < |TriggerSites(p)| && TriggerSites(p)[i] == s;
      assert p.spec.remediation[i] in p.spec.remediation;
    }
  }

  lemma CleanSites(p: Pack)
    requires Clean(p)
    ensures forall s | s in Sites(p) :: !Defective(p, s)
  {
    forall s | s in Sites(p)
      ensures !Defective(p, s)
    {
      if s in PanelSites(p, |p.spec.dashboards|) {
        var d, ref := PanelOrigin(p, |p.spec.dashboards|, s);
        assert Sound(ref, "slis", SliIds(p)) || Sound(ref, "slos", SloIds(p));
      } else {
        CleanLists(p, s);
      }
    }
  }

  lemma {:induction false} PanelOrigin(p: Pack, n: nat, s: Site) returns (d: Dashboard, ref: string)
    requires n <= |p.spec.dashboards| && s in PanelSites(p, n)
    ensures d in p.spec.dashboards && ref in d.panelBindings && s.RefSite? && s.ref == ref && s.kind == NeedsEither
  {
    if s in PanelSites(p, n - 1) {
      d, ref := PanelOrigin(p, n - 1, s);
    } else {
      d := p.spec.dashboards[n - 1];
      var i :| 0 <= i < |d.panelBindings| && BindingSites(d, n - 1)[i] == s;
      ref := d.panelBindings[i];
    }
  }

  lemma {:induction false} PanelSite(p: Pack, n: nat, di: nat, pi: nat)
    requires di < n <= |p.spec.dashboards| && pi < |p.spec.dashboards[di].panelBindings|
    ensures BindingSites(p.spec.dashboards[di], di)[pi] in PanelSites(p, n)
  {
    if di < n - 1 {
      PanelSite(p, n - 1, di, pi);
    }
  }

  lemma SitesClean(p: Pack)
    requires forall s | s in Sites(p) :: !Defective(p, s)
    ensures Clean(p)
  {
    forall i | 0 <= i < |p.spec.slos|
      ensures Sound(p.spec.slos[i].sli, "slis", SliIds(p))
    {
      assert SloSites(p)[i] in Sites(p);
    }
    forall i | 0 <= i < |p.spec.policy.burnRateAlerts|
      ensures Sound(p.spec.policy.burnRateAlerts[i].slo, "slos", SloIds(p))
    {
      assert BurnSites(p)[i] in Sites(p);
    }
    forall i | 0 <= i < |p.spec.policy.forecasts|
      ensures Sound(p.spec.policy.forecasts[i], "slos", SloIds(p))
    {
      assert ForecastSites(p)[i] in Sites(p);
    }
    forall i | 0 <= i < |p.spec.remediation|
      ensures HasPrefix(p.spec.remediation[i].trigger, "alert:")
    {
      assert TriggerSites(p)[i] in Sites(p);
    }
    forall di, pi | 0 <= di < |p.spec.dashboards| && 0 <= pi < |p.spec.dashboards[di].panelBindings|
      ensures var ref := p.spec.dashboards[di].panelBindings[pi];
              Sound(ref, "slis", SliIds(p)) || Sound(ref, "slos", SloIds(p))
    {
      PanelSite(p, |p.spec.dashboards|, di, pi);
      assert BindingSites(p.spec.dashboards[di], di)[pi] in Sites(p);
    }
  }

  /** The pass is free of errors exactly when the manifest is clean, so the core blocks exactly the others. */
  lemma CleanExactly(p: Pack)
    ensures !HasError(RefsFindings(p)) <==> Clean(p)
  {
    BlocksExactly(p);
    if Clean(p) {
      CleanSites(p);
    } else if forall s | s in Sites(p) :: !Defective(p, s) {
      SitesClean(p);
    }
  }

  // ----- one finding at most -----

  function BindingCount(ds: seq<Dashboard>): nat {
    if ds == [] then 0 else BindingCount(ds[..|ds| - 1]) + |ds[|ds| - 1].panelBindings|
  }

  lemma {:induction false} PanelSiteCount(p: Pack, n: nat)
    requires n <= |p.spec.dashboards|
    ensures |PanelSites(p, n)| == BindingCount(p.spec.dashboards[..n])
  {
    if n > 0 {
      PanelSiteCount(p, n - 1);
      assert p.spec.dashboards[..n][..n - 1] == p.spec.dashboards[..n - 1];
    }
  }

  lemma {:induction false} ReportCount(p: Pack, sites: seq<Site>)
    ensures |Report(p, sites)| <= |sites|
  {
    if sites != [] {
      ReportCount(p, sites[..|sites| - 1]);
    }
  }

  /** No reference and no trigger gets more than one finding. */
  lemma OneFindingEach(p: Pack)
    ensures |Report(p, Sites(p))| <= |p.spec.slos| + |p.spec.policy.burnRateAlerts| + |p.spec.policy.forecasts|
                                     + |p.spec.remediation| + BindingCount(p.spec.dashboards)
  {
    ReportCount(p, Sites(p));
    PanelSiteCount(p, |p.spec.dashboards|);
    assert p.spec.dashboards[..|p.spec.dashboards|] == p.spec.dashboards;
  }
}

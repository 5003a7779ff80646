/** Reference integrity and alert naming (internal/lint/refs.go). */
module Refs {
  import opened Lists
  import opened Text
  import opened Numbers
  import opened Manifest
  import opened Findings

  const BURN_PATH := "spec.policy.burn_rate_alerts"
  const FORECAST_PATH := "spec.policy.forecasts"
  const REMEDIATION_PATH := "spec.remediation"
  const DASHBOARD_PATH := "spec.dashboards"
  const CHAOS_PATH := "spec.validation.chaos_experiments"

  // ----- references -----

  datatype Split = Split(target: string, id: string)

  /** `splitRef`: a dot at position 0 does not separate. */
  function SplitRef(ref: string): Split {
    var i := IndexOf(ref, '.');
    if i > 0 then Split(ref[..i], ref[i + 1..]) else Split("", ref)
  }

  function StripRef(ref: string): string {
    SplitRef(ref).id
  }

  /** A reference without a section prefix. */
  predicate Bare(ref: string) {
    '.' !in ref || ref[0] == '.'
  }

  /** `ref` names one of `ids`: by its section, or by the bare identifier. */
  predicate Names(ref: string, section: string, ids: set<string>) {
    || (exists id | id in ids :: ref == section + "." + id)
    || (Bare(ref) && ref in ids)
  }

  predicate IsExternal(ref: string) {
    HasPrefix(ref, "ref:")
  }

  function SliIds(p: Pack): set<string> {
    set s | s in p.spec.slis :: s.id
  }

  function SloIds(p: Pack): set<string> {
    set s | s in p.spec.slos :: s.id
  }

  datatype Kind = NeedsSli | NeedsSlo | NeedsEither

  predicate Resolves(ref: string, kind: Kind, slis: set<string>, slos: set<string>) {
    match kind
    case NeedsSli => Names(ref, "slis", slis)
    case NeedsSlo => Names(ref, "slos", slos)
    case NeedsEither => Names(ref, "slis", slis) || Names(ref, "slos", slos)
  }

  lemma SplitRefNames(ref: string, section: string, ids: set<string>)
    requires section != "" && '.' !in section
    ensures var s := SplitRef(ref);
            (s.target == "" || s.target == section) && s.id in ids <==> Names(ref, section, ids)
  {
    var i := IndexOf(ref, '.');
    if i > 0 {
      assert ref == ref[..i] + "." + ref[i + 1..];
      if section + "." <= ref {
        assert ref[..|section|] == section;
        IndexOfUnique(ref, '.', |section|);
      }
      forall id | ref == section + "." + id
        ensures i == |section| && ref[i + 1..] == id
      {
        assert section + "." <= ref;
      }
    } else {
      forall id | id in ids
        ensures ref != section + "." + id
      {
        var r := section + "." + id;
        assert r[..|section|] == section;
        IndexOfUnique(r, '.', |section|);
      }
    }
  }

  /** `checkRef`: at most one finding for one reference. */
  function RefFindings(path: string, ref: string, kind: Kind, slis: set<string>, slos: set<string>):
    seq<Finding>
  {
    if ref == "" then [Finding(Error, RefsEmpty, path)]
    else if IsExternal(ref) then [Finding(Info, RefsExternal, path)]
    else if Resolves(ref, kind, slis, slos) then []
    else [Finding(Error, RefsUnresolved, path)]
  }

  method CheckRef(r: LintResult, path: string, ref: string,
                  slis: set<string>, slos: set<string>, kind: Kind)
    modifies r`findings
    ensures r.findings == old(r.findings) + RefFindings(path, ref, kind, slis, slos)
  {
    SplitRefNames(ref, "slis", slis);
    SplitRefNames(ref, "slos", slos);
    if ref == "" {
      r.AddFinding(Error, RefsEmpty, path);
      return;
    }
    if HasPrefix(ref, "ref:") {
      r.AddFinding(Info, RefsExternal, path);
      return;
    }
    var s := SplitRef(ref);
    match kind {
      case NeedsSli =>
        if (s.target == "" || s.target == "slis") && s.id in slis {
          return;
        }
      case NeedsSlo =>
        if (s.target == "" || s.target == "slos") && s.id in slos {
          return;
        }
      case NeedsEither =>
        if s.target == "" || s.target == "slis" {
          if s.id in slis {
            return;
          }
        }
        if s.target == "" || s.target == "slos" {
          if s.id in slos {
            return;
          }
        }
    }
    r.AddFinding(Error, RefsUnresolved, path);
  }

  // ----- alert names -----

  /**
   `strings.ToLower` followed by the removal of everything outside [a-z0-9]. Beside A-Z, the
   only code points whose lower case survives are U+0130 and the Kelvin sign U+212A.
   */
  function KeepLower(c: char): string {
    if 'a' <= c <= 'z' || '0' <= c <= '9' then [c]
    else if 'A' <= c <= 'Z' then [(c as int + 32) as char]
    else if c == '\U{130}' then "i"
    else if c == '\U{212A}' then "k"
    else ""
  }

  function Sanitize(s: string): string {
    if s == "" then "" else KeepLower(s[0]) + Sanitize(s[1..])
  }

  /** Only lower-case ASCII letters and digits. */
  predicate Plain(s: string) {
    forall i | 0 <= i < |s| :: 'a' <= s[i] <= 'z' || '0' <= s[i] <= '9'
  }

  function AlertName(slo: string, short: string, long: string): string {
    slo + "_burn_" + short + "_" + long
  }

  /** The name the linter expects (`burnAlertName` on a stripped reference). */
  function LintAlertName(slo: string, w: BurnWindow): string {
    AlertName(StripRef(slo), Sanitize(w.short), Sanitize(w.long))
  }

  /** The name the planner gives (internal/operator/plan/plan.go:171). */
  function PlanAlertName(slo: string, w: BurnWindow): string {
    AlertName(slo, w.short, w.long)
  }

  lemma KeepLowerPlain(c: char)
    ensures |KeepLower(c)| <= 1 && Plain(KeepLower(c))
    ensures Plain([c]) <==> KeepLower(c) == [c]
  {
    assert [c][0] == c;
    var kept := KeepLower(c);
    if kept == [c] {
      assert kept[0] == c;
    }
  }

  lemma {:induction false} SanitizeShrinks(s: string)
    ensures |Sanitize(s)| <= |s|
    ensures Plain(Sanitize(s))
    ensures Plain(s) <==> Sanitize(s) == s
  {
    if s != "" {
      var head, rest := KeepLower(s[0]), Sanitize(s[1..]);
      SanitizeShrinks(s[1..]);
      KeepLowerPlain(s[0]);
      PlainCons(s[0], s[1..]);
      assert s == [s[0]] + s[1..];
      assert Sanitize(s) == head + rest;
      if Sanitize(s) == s {
        assert Plain(s);
      }
    }
  }

  lemma PlainCons(c: char, s: string)
    ensures Plain([c] + s) <==> Plain([c]) && Plain(s)
  {
    assert forall i | 0 <= i < |s| :: ([c] + s)[i + 1] == s[i];
    assert ([c] + s)[0] == [c][0];
  }

  /**
   Linter and planner name one window the same way exactly when the reference carries no section
   prefix and both window texts already consist of lower-case letters and digits.
   */
  lemma NamesAgree(slo: string, w: BurnWindow)
    ensures LintAlertName(slo, w) == PlanAlertName(slo, w)
       <==> StripRef(slo) == slo && Plain(w.short) && Plain(w.long)
  {
    SanitizeShrinks(w.short);
    SanitizeShrinks(w.long);
    if LintAlertName(slo, w) == PlanAlertName(slo, w) {
      ShorterParts(StripRef(slo), Sanitize(w.short), Sanitize(w.long), slo, w.short, w.long);
    }
  }

  /** Two equal names whose parts are no longer on one side have the same parts. */
  lemma ShorterParts(a: string, b: string, c: string, a': string, b': string, c': string)
    requires |a| <= |a'| && |b| <= |b'| && |c| <= |c'|
    requires AlertName(a, b, c) == AlertName(a', b', c')
    ensures a == a' && b == b' && c == c'
  {
    var x, y := AlertName(a, b, c), AlertName(a', b', c');
    assert |x| == |a| + |b| + |c| + 7 && |y| == |a'| + |b'| + |c'| + 7;
    var n, m := |a| + 6, |a| + 7 + |b|;
    assert x[..|a|] == a && y[..|a|] == a';
    assert x[n..n + |b|] == b && y[n..n + |b|] == b';
    assert x[m..] == c && y[m..] == c';
  }

  /** The alert names the linter collects from the burn-rate policy. */
  function KnownAlerts(p: Pack): set<string> {
    AlertNames(p.spec.policy.burnRateAlerts)
  }

  function AlertNames(burns: seq<BurnRateAlert>): set<string> {
    Union(NamesOf, burns)
  }

  function NamesOf(b: BurnRateAlert): set<string> {
    Union(NameOf(b.slo), b.windows)
  }

  function NameOf(slo: string): BurnWindow -> set<string> {
    w => {LintAlertName(slo, w)}
  }

  lemma NamesOfMember(b: BurnRateAlert, name: string)
    ensures name in NamesOf(b) <==> exists w | w in b.windows :: LintAlertName(b.slo, w) == name
  {
    UnionMember(NameOf(b.slo), b.windows, name);
    forall w
      ensures name in NameOf(b.slo)(w) <==> LintAlertName(b.slo, w) == name
    {
    }
  }

  /** The alert names the planner emits. */
  function PlannedAlertNames(p: Pack): set<string> {
    set b, w | b in p.spec.policy.burnRateAlerts && w in b.windows :: PlanAlertName(b.slo, w)
  }

  /** No window needs stripping or sanitising. */
  predicate PlainNames(p: Pack) {
    forall b, w | b in p.spec.policy.burnRateAlerts && w in b.windows ::
      StripRef(b.slo) == b.slo && Plain(w.short) && Plain(w.long)
  }

  /** A pack whose windows all agree has one set of alert names. */
  lemma NameSetsAgree(p: Pack)
    requires PlainNames(p)
    ensures KnownAlerts(p) == PlannedAlertNames(p)
  {
    forall b, w | b in p.spec.policy.burnRateAlerts && w in b.windows
      ensures LintAlertName(b.slo, w) == PlanAlertName(b.slo, w)
    {
      NamesAgree(b.slo, w);
    }
    var burns := p.spec.policy.burnRateAlerts;
    forall name
      ensures name in KnownAlerts(p) <==> name in PlannedAlertNames(p)
    {
      UnionMember(NamesOf, burns, name);
      if name in KnownAlerts(p) {
        var b :| b in burns && name in NamesOf(b);
        NamesOfMember(b, name);
        var w :| w in b.windows && LintAlertName(b.slo, w) == name;
        assert PlanAlertName(b.slo, w) == name;
      }
      if name in PlannedAlertNames(p) {
        var b, w :| b in burns && w in b.windows && PlanAlertName(b.slo, w) == name;
        NamesOfMember(b, name);
        assert LintAlertName(b.slo, w) == name;
      }
    }
  }

  // ----- the pass -----

  /** Every place of a pack that `Refs` judges, in the order it visits them. */
  datatype Site =
    | RefSite(path: string, ref: string, kind: Kind)
    | TriggerSite(path: string, trigger: string)

  function SloSites(p: Pack): seq<Site> {
    seq(|p.spec.slos|, i requires 0 <= i < |p.spec.slos| =>
      RefSite("slos." + p.spec.slos[i].id + ".sli", p.spec.slos[i].sli, NeedsSli))
  }

  function BurnSites(p: Pack): seq<Site> {
    var burns := p.spec.policy.burnRateAlerts;
    seq(|burns|, i requires 0 <= i < |burns| =>
      RefSite(RefPath(BURN_PATH, i, "slo"), burns[i].slo, NeedsSlo))
  }

  function ForecastSites(p: Pack): seq<Site> {
    var forecasts := p.spec.policy.forecasts;
    seq(|forecasts|, i requires 0 <= i < |forecasts| =>
      RefSite(RefPath(FORECAST_PATH, i, "slo"), forecasts[i], NeedsSlo))
  }

  function TriggerSites(p: Pack): seq<Site> {
    seq(|p.spec.remediation|, i requires 0 <= i < |p.spec.remediation| =>
      TriggerSite(RefPath(REMEDIATION_PATH, i, "trigger"), p.spec.remediation[i].trigger))
  }

  function PanelPath(di: nat, pi: nat): string {
    RefPath(DASHBOARD_PATH, di, "panel_bindings." + Decimal(pi) + ".binds_to")
  }

  function BindingSites(d: Dashboard, di: nat): seq<Site> {
    seq(|d.panelBindings|, i requires 0 <= i < |d.panelBindings| =>
      RefSite(PanelPath(di, i), d.panelBindings[i], NeedsEither))
  }

  /** The panel bindings of the first `n` dashboards. */
  function PanelSites(p: Pack, n: nat): seq<Site>
    requires n <= |p.spec.dashboards|
  {
    if n == 0 then [] else PanelSites(p, n - 1) + BindingSites(p.spec.dashboards[n - 1], n - 1)
  }

  function Sites(p: Pack): seq<Site> {
    SloSites(p) + BurnSites(p) + ForecastSites(p) + TriggerSites(p)
    + PanelSites(p, |p.spec.dashboards|)
  }

  /** What makes a site an error: nothing a resolver could still supply, and not declared. */
  predicate Defective(p: Pack, site: Site) {
    match site
    case RefSite(_, ref, kind) =>
      ref == "" || (!IsExternal(ref) && !Resolves(ref, kind, SliIds(p), SloIds(p)))
    case TriggerSite(_, trigger) => !HasPrefix(trigger, "alert:")
  }

  /** The one error finding a defective site deserves. */
  function Defect(site: Site): Finding {
    match site
    case RefSite(path, ref, _) =>
      Finding(Error, if ref == "" then RefsEmpty else RefsUnresolved, path)
    case TriggerSite(path, _) => Finding(Error, RefsBadTrigger, path)
  }

  function DefectOf(p: Pack): Site -> seq<Finding> {
    site => if Defective(p, site) then [Defect(site)] else []
  }

  /** One finding for each defective site, in order. */
  function Defects(p: Pack, sites: seq<Site>): seq<Finding> {
    FlatMap(DefectOf(p), sites)
  }

  function SiteFindings(p: Pack, site: Site): seq<Finding> {
    match site
    case RefSite(path, ref, kind) => RefFindings(path, ref, kind, SliIds(p), SloIds(p))
    case TriggerSite(path, trigger) =>
      if !HasPrefix(trigger, "alert:") then [Finding(Error, RefsBadTrigger, path)]
      else if trigger[6..] !in KnownAlerts(p) then [Finding(Warn, RefsUnknownAlert, path)]
      else []
  }

  function Judge(p: Pack): Site -> seq<Finding> {
    site => SiteFindings(p, site)
  }

  function Report(p: Pack, sites: seq<Site>): seq<Finding> {
    FlatMap(Judge(p), sites)
  }

  /** The expected alerts of one chaos experiment, as a list of JSON values. */
  function ExpectedAlerts(exp: Fields): seq<Json> {
    if "expected_alerts" in exp && exp["expected_alerts"].JArray?
    then exp["expected_alerts"].items else []
  }

  function ExpectedFindings(known: set<string>, names: seq<Json>, vi: nat): seq<Finding> {
    if names == [] then []
    else
      var ai := |names| - 1;
      ExpectedFindings(known, names[..ai], vi) +
      (if names[ai].JString? && names[ai].s !in known
       then [Finding(Warn, RefsUnknownAlert, RefPath(CHAOS_PATH, vi, "expected_alerts." + Decimal(ai)))]
       else [])
  }

  /** The warnings of the first `n` chaos experiments. */
  function ChaosFindings(p: Pack, n: nat): seq<Finding>
    requires n <= |p.spec.chaosExperiments|
  {
    if n == 0 then []
    else ChaosFindings(p, n - 1)
         + ExpectedFindings(KnownAlerts(p), ExpectedAlerts(p.spec.chaosExperiments[n - 1]), n - 1)
  }

  /** All findings of the pass, in order. */
  function RefsFindings(p: Pack): seq<Finding> {
    Report(p, Sites(p)) + ChaosFindings(p, |p.spec.chaosExperiments|)
  }

  /** `Refs`. */
  method Refs(p: Pack, r: LintResult)
    modifies r`findings, r`refsOK
    ensures r.findings == old(r.findings) + RefsFindings(p)
    ensures r.refsOK <==> !HasError(r.findings)
  {
    var slis, slos := DeclaredIds(p);
    CheckSlos(p, r, slis, slos);
    var alerts := CheckBurnAlerts(p, r, slis, slos);
    CheckForecasts(p, r, slis, slos);
    CheckTriggers(p, r, alerts);
    CheckPanels(p, r, slis, slos);
    SitesReport(p, old(r.findings));
    CheckChaos(p, r, alerts);
    Assoc(old(r.findings), Report(p, Sites(p)), ChaosFindings(p, |p.spec.chaosExperiments|));
    var failed := r.HasErrors();
    r.refsOK := !failed;
  }

  method DeclaredIds(p: Pack) returns (slis: set<string>, slos: set<string>)
    ensures slis == SliIds(p) && slos == SloIds(p)
  {
    slis, slos := {}, {};
    for i := 0 to |p.spec.slis|
      invariant slis == set s | s in p.spec.slis[..i] :: s.id
    {
      assert p.spec.slis[..i + 1] == p.spec.slis[..i] + [p.spec.slis[i]];
      slis := slis + {p.spec.slis[i].id};
    }
    assert p.spec.slis[..|p.spec.slis|] == p.spec.slis;
    for i := 0 to |p.spec.slos|
      invariant slos == set s | s in p.spec.slos[..i] :: s.id
    {
      assert p.spec.slos[..i + 1] == p.spec.slos[..i] + [p.spec.slos[i]];
      slos := slos + {p.spec.slos[i].id};
    }
    assert p.spec.slos[..|p.spec.slos|] == p.spec.slos;
  }

  lemma SitesReport(p: Pack, earlier: seq<Finding>)
    ensures earlier + Report(p, SloSites(p)) + Report(p, BurnSites(p)) + Report(p, ForecastSites(p))
            + Report(p, TriggerSites(p)) + Report(p, PanelSites(p, |p.spec.dashboards|))
         == earlier + Report(p, Sites(p))
  {
    var a, b, c, d := SloSites(p), BurnSites(p), ForecastSites(p), TriggerSites(p);
    var e := PanelSites(p, |p.spec.dashboards|);
    FlatMapConcat(Judge(p), a, b);
    FlatMapConcat(Judge(p), a + b, c);
    FlatMapConcat(Judge(p), a + b + c, d);
    FlatMapConcat(Judge(p), a + b + c + d, e);
    Assoc(earlier, Report(p, a), Report(p, b));
    Assoc(earlier, Report(p, a + b), Report(p, c));
    Assoc(earlier, Report(p, a + b + c), Report(p, d));
    Assoc(earlier, Report(p, a + b + c + d), Report(p, e));
  }

  method CheckSlos(p: Pack, r: LintResult, slis: set<string>, slos: set<string>)
    requires slis == SliIds(p) && slos == SloIds(p)
    modifies r`findings
    ensures r.findings == old(r.findings) + Report(p, SloSites(p))
  {
    for i := 0 to |p.spec.slos|
      invariant r.findings == old(r.findings) + Report(p, SloSites(p)[..i])
    {
      FlatMapStep(Judge(p), SloSites(p), i);
      CheckRef(r, "slos." + p.spec.slos[i].id + ".sli", p.spec.slos[i].sli, slis, slos, NeedsSli);
    }
    assert SloSites(p)[..|p.spec.slos|] == SloSites(p);
  }

  method CheckBurnAlerts(p: Pack, r: LintResult, slis: set<string>, slos: set<string>)
    returns (alerts: set<string>)
    requires slis == SliIds(p) && slos == SloIds(p)
    modifies r`findings
    ensures r.findings == old(r.findings) + Report(p, BurnSites(p))
    ensures alerts == KnownAlerts(p)
  {
    var burns := p.spec.policy.burnRateAlerts;
    ghost var sites := BurnSites(p);
    alerts := {};
    for i := 0 to |burns|
      invariant r.findings == old(r.findings) + Report(p, sites[..i])
      invariant alerts == AlertNames(burns[..i])
    {
      FlatMapStep(Judge(p), sites, i);
      CheckRef(r, RefPath(BURN_PATH, i, "slo"), burns[i].slo, slis, slos, NeedsSlo);
      alerts := AddAlertNames(burns[i], alerts);
      UnionStep(NamesOf, burns, i);
    }
    assert sites[..|burns|] == sites && burns[..|burns|] == burns;
  }

  /** The inner loop over the windows of one burn-rate alert. */
  method AddAlertNames(b: BurnRateAlert, earlier: set<string>) returns (alerts: set<string>)
    ensures alerts == earlier + NamesOf(b)
  {
    alerts := earlier;
    for j := 0 to |b.windows|
      invariant alerts == earlier + Union(NameOf(b.slo), b.windows[..j])
    {
      UnionStep(NameOf(b.slo), b.windows, j);
      alerts := alerts + {LintAlertName(b.slo, b.windows[j])};
    }
    assert b.windows[..|b.windows|] == b.windows;
  }

  method CheckForecasts(p: Pack, r: LintResult, slis: set<string>, slos: set<string>)
    requires slis == SliIds(p) && slos == SloIds(p)
    modifies r`findings
    ensures r.findings == old(r.findings) + Report(p, ForecastSites(p))
  {
    var forecasts := p.spec.policy.forecasts;
    for i := 0 to |forecasts|
      invariant r.findings == old(r.findings) + Report(p, ForecastSites(p)[..i])
    {
      FlatMapStep(Judge(p), ForecastSites(p), i);
      CheckRef(r, RefPath(FORECAST_PATH, i, "slo"), forecasts[i], slis, slos, NeedsSlo);
    }
    assert ForecastSites(p)[..|forecasts|] == ForecastSites(p);
  }

  method CheckTriggers(p: Pack, r: LintResult, alerts: set<string>)
    requires alerts == KnownAlerts(p)
    modifies r`findings
    ensures r.findings == old(r.findings) + Report(p, TriggerSites(p))
  {
    for i := 0 to |p.spec.remediation|
      invariant r.findings == old(r.findings) + Report(p, TriggerSites(p)[..i])
    {
      FlatMapStep(Judge(p), TriggerSites(p), i);
      var path := RefPath(REMEDIATION_PATH, i, "trigger");
      var trigger := p.spec.remediation[i].trigger;
      var name := if HasPrefix(trigger, "alert:") then trigger[6..] else trigger;
      if name == trigger {
        r.AddFinding(Error, RefsBadTrigger, path);
        continue;
      }
      if name !in alerts {
        r.AddFinding(Warn, RefsUnknownAlert, path);
      }
    }
    assert TriggerSites(p)[..|p.spec.remediation|] == TriggerSites(p);
  }

  method CheckPanels(p: Pack, r: LintResult, slis: set<string>, slos: set<string>)
    requires slis == SliIds(p) && slos == SloIds(p)
    modifies r`findings
    ensures r.findings == old(r.findings) + Report(p, PanelSites(p, |p.spec.dashboards|))
  {
    for di := 0 to |p.spec.dashboards|
      invariant r.findings == old(r.findings) + Report(p, PanelSites(p, di))
    {
      var d := p.spec.dashboards[di];
      ghost var sites, earlier := BindingSites(d, di), r.findings;
      for pi := 0 to |d.panelBindings|
        invariant r.findings == earlier + Report(p, sites[..pi])
      {
        FlatMapStep(Judge(p), sites, pi);
        CheckRef(r, PanelPath(di, pi), d.panelBindings[pi], slis, slos, NeedsEither);
      }
      assert sites[..|d.panelBindings|] == sites;
      FlatMapConcat(Judge(p), PanelSites(p, di), sites);
      Assoc(old(r.findings), Report(p, PanelSites(p, di)), Report(p, sites));
    }
  }

  method CheckChaos(p: Pack, r: LintResult, alerts: set<string>)
    requires alerts == KnownAlerts(p)
    modifies r`findings
    ensures r.findings == old(r.findings) + ChaosFindings(p, |p.spec.chaosExperiments|)
  {
    for vi := 0 to |p.spec.chaosExperiments|
      invariant r.findings == old(r.findings) + ChaosFindings(p, vi)
    {
      var names := ExpectedAlerts(p.spec.chaosExperiments[vi]);
      CheckExpected(r, names, vi, alerts);
      Assoc(old(r.findings), ChaosFindings(p, vi), ExpectedFindings(alerts, names, vi));
    }
  }

  method CheckExpected(r: LintResult, names: seq<Json>, vi: nat, alerts: set<string>)
    modifies r`findings
    ensures r.findings == old(r.findings) + ExpectedFindings(alerts, names, vi)
  {
    for ai := 0 to |names|
      invariant r.findings == old(r.findings) + ExpectedFindings(alerts, names[..ai], vi)
    {
      assert names[..ai + 1][..ai] == names[..ai];
      if names[ai].JString? && names[ai].s !in alerts {
        r.AddFinding(Warn, RefsUnknownAlert, RefPath(CHAOS_PATH, vi, "expected_alerts." + Decimal(ai)));
      }
    }
    assert names[..|names|] == names;
  }

  // ----- soundness and completeness -----

  lemma SiteErrors(p: Pack, site: Site)
    ensures ErrorsOf(SiteFindings(p, site)) == if Defective(p, site) then [Defect(site)] else []
  {
    var fs := SiteFindings(p, site);
    if fs != [] {
      assert |fs| == 1 && ErrorsOf(fs[..0]) == [];
    }
  }

  lemma {:induction false} ReportErrors(p: Pack, sites: seq<Site>)
    ensures ErrorsOf(Report(p, sites)) == Defects(p, sites)
  {
    if sites != [] {
      var n := |sites| - 1;
      ReportErrors(p, sites[..n]);
      SiteErrors(p, sites[n]);
      var fs := Judge(p)(sites[n]);
      assert Report(p, sites) == Report(p, sites[..n]) + fs;
      ErrorsOfConcat(Report(p, sites[..n]), fs);
    }
  }

  lemma {:induction false} ExpectedAreWarnings(known: set<string>, names: seq<Json>, vi: nat)
    ensures forall f | f in ExpectedFindings(known, names, vi) :: f.severity == Warn
  {
    if names != [] {
      ExpectedAreWarnings(known, names[..|names| - 1], vi);
    }
  }

  lemma {:induction false} ChaosAreWarnings(p: Pack, n: nat)
    requires n <= |p.spec.chaosExperiments|
    ensures forall f | f in ChaosFindings(p, n) :: f.severity == Warn
  {
    if n > 0 {
      ChaosAreWarnings(p, n - 1);
      ExpectedAreWarnings(KnownAlerts(p), ExpectedAlerts(p.spec.chaosExperiments[n - 1]), n - 1);
    }
  }

  /**
   Soundness and completeness: the error findings are one `Defect` for each defective site, in
   order, and nothing else.
   */
  lemma RefsExact(p: Pack)
    ensures ErrorsOf(RefsFindings(p)) == Defects(p, Sites(p))
  {
    var chaos := ChaosFindings(p, |p.spec.chaosExperiments|);
    ReportErrors(p, Sites(p));
    ChaosAreWarnings(p, |p.spec.chaosExperiments|);
    ErrorsOfEmpty(chaos);
    ErrorsOfConcat(Report(p, Sites(p)), chaos);
  }

  /** The pass reports an error exactly when some site is defective. */
  lemma BlocksExactly(p: Pack)
    ensures HasError(RefsFindings(p)) <==> exists s | s in Sites(p) :: Defective(p, s)
  {
    RefsExact(p);
    ErrorsOfEmpty(RefsFindings(p));
    FlatMapEmpty(DefectOf(p), Sites(p));
    assert forall s :: DefectOf(p)(s) == [] <==> !Defective(p, s);
  }

  /** Without an error, every burn-rate SLO reference is external or names a declared SLO. */
  lemma BurnReferencesSound(p: Pack, b: BurnRateAlert)
    requires !HasError(RefsFindings(p))
    requires b in p.spec.policy.burnRateAlerts
    ensures b.slo != "" && (IsExternal(b.slo) || Names(b.slo, "slos", SloIds(p)))
  {
    BlocksExactly(p);
    var i :| 0 <= i < |p.spec.policy.burnRateAlerts| && p.spec.policy.burnRateAlerts[i] == b;
    var site := BurnSites(p)[i];
    assert site in Sites(p);
    assert !Defective(p, site);
  }

  /** Distinct panel bindings are reported under distinct paths. */
  lemma PanelPathsDistinct(di: nat, pi: nat, dj: nat, pj: nat)
    requires PanelPath(di, pi) == PanelPath(dj, pj)
    ensures di == dj && pi == pj
  {
    var x, y := "panel_bindings." + Decimal(pi) + ".binds_to", "panel_bindings." + Decimal(pj) + ".binds_to";
    RefPathInjective(DASHBOARD_PATH, di, x, dj, y);
    assert x[15..][..|Decimal(pi)|] == Decimal(pi);
    assert y[15..][..|Decimal(pj)|] == Decimal(pj);
    assert |x| == |y|;
    DecimalInjective(pi, pj);
  }

  lemma {:induction false} SanitizeConcat(a: string, b: string)
    ensures Sanitize(a + b) == Sanitize(a) + Sanitize(b)
  {
    if a == "" {
      assert a + b == b;
    } else {
      assert (a + b)[0] == a[0] && (a + b)[1..] == a[1..] + b;
      SanitizeConcat(a[1..], b);
    }
  }

  /** On ASCII, sanitising lowers capitals, keeps lower-case letters and digits, and drops the rest. */
  lemma SanitizeChar(c: char)
    requires c < '\U{80}'
    ensures 'A' <= c <= 'Z' ==> Sanitize([c]) == [(c as int + 32) as char]
    ensures 'a' <= c <= 'z' || '0' <= c <= '9' ==> Sanitize([c]) == [c]
    ensures !('A' <= c <= 'Z' || 'a' <= c <= 'z' || '0' <= c <= '9') ==> Sanitize([c]) == ""
  {
    assert [c][1..] == "";
  }

  /** For one: window texts in capitals and with spaces name the alert their plain forms name. */
  lemma SanitizeSample()
    ensures Sanitize("1 H") == "1h"
  {
    SanitizeConcat("1", " H");
    SanitizeConcat(" ", "H");
    assert "1" + " H" == "1 H" && " " + "H" == " H";
    SanitizeChar('1');
    SanitizeChar(' ');
    SanitizeChar('H');
  }
}

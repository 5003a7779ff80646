/** What each field of a plan holds, entry by entry (internal/operator/plan/plan.go:116-257). */
module PlanLaws {
  import opened Wrappers
  import opened Lists
  import opened Manifest
  import opened Planner

  // ----- alerts -----

  /** The texts of a planned alert, spelled out. */
  lemma AlertTexts(p: Pack, i: nat)
    requires i < |Burns(p)|
    ensures |PlanPrometheus(p).alertRules| == |Burns(p)|
    ensures var a, slo, w := PlanPrometheus(p).alertRules[i], Burns(p)[i].slo, Burns(p)[i].window;
            && a.alert == slo + "_burn_" + w.short + "_" + w.long
            && a.expr == "burn_rate{slo=\"" + slo + "\",window=\"" + w.short + "\"} > " + w.factor
                         + " and " + ("burn_rate{slo=\"" + slo + "\",window=\"" + w.long + "\"} > " + w.factor)
            && a.wait == w.short && a.severity == w.severity
  {
  }

  /** Its labels and annotations. */
  lemma AlertMaps(p: Pack, i: nat)
    requires i < |Burns(p)|
    ensures var a, slo, w := PlanPrometheus(p).alertRules[i], Burns(p)[i].slo, Burns(p)[i].window;
            && a.labels.Keys == {"pack", "service", "slo", "severity"}
            && a.labels["pack"] == p.name && a.labels["service"] == p.service
            && a.labels["slo"] == slo && a.labels["severity"] == w.severity
            && a.annotations.Keys == {"summary", "description"}
            && a.annotations["summary"] == "SLO " + slo + " burn rate exceeded (" + w.short + "/" + w.long + ")"
            && a.annotations["description"]
               == "Burn rate factor " + w.factor + " over short=" + w.short + " and long=" + w.long + " windows."
  {
  }

  /** The windows of the policy, alert by alert and in order. */
  lemma {:induction false} BurnsInOrder(bs: seq<BurnRateAlert>, k: nat, j: nat)
    requires k < |bs| && j < |bs[k].windows|
    ensures var at := |FlatMap(BurnsOf, bs[..k])| + j;
            at < |FlatMap(BurnsOf, bs)| && FlatMap(BurnsOf, bs)[at] == Burn(bs[k].slo, bs[k].windows[j])
    decreases |bs|
  {
    var n := |bs| - 1;
    if k < n {
      assert bs[..n][..k] == bs[..k];
      BurnsInOrder(bs[..n], k, j);
    }
  }

  /** What stands before the first quote is determined by the whole. */
  lemma QuoteEnds(a: string, x: string, b: string, y: string)
    requires '"' !in a && '"' !in b && a + "\"" + x == b + "\"" + y
    ensures a == b && x == y
  {
    var s := a + "\"" + x;
    assert s[|a|] == '"' && forall k | 0 <= k < |a| :: s[k] == a[k] && s[k] != '"';
    assert s == b + "\"" + y;
    assert s[|b|] == '"' && forall k | 0 <= k < |b| :: s[k] == b[k] && s[k] != '"';
    assert |a| == |b|;
    assert s[..|a|] == a && s[..|b|] == b;
    assert s[|a| + 1..] == x && s[|b| + 1..] == y;
  }

  lemma Between(x: string, a: string, y: string, b: string)
    requires x + a + y == x + b + y
    ensures a == b
  {
    assert |a| == |b|;
    assert (x + a + y)[|x|..|x| + |a|] == a && (x + b + y)[|x|..|x| + |b|] == b;
  }

  lemma After(x: string, a: string, b: string)
    requires x + a == x + b
    ensures a == b
  {
    assert (x + a)[|x|..] == a && (x + b)[|x|..] == b;
  }

  predicate QuoteFree(b: Burn) {
    '"' !in b.slo && '"' !in b.window.short && '"' !in b.window.long && '"' !in b.window.factor
  }

  /** One comparison, cut at its quotes; `rest` is what follows the window. */
  function Half(slo: string, window: string, rest: string): string {
    "burn_rate{slo=" + "\"" + (slo + "\"" + (",window=" + "\"" + (window + "\"" + rest)))
  }

  lemma RateIsHalf(slo: string, window: string, factor: string, tail: string)
    ensures Rate(slo, window, factor) + tail == Half(slo, window, "} > " + factor + tail)
  {
  }

  lemma HalfDecodes(slo: string, window: string, rest: string, slo': string, window': string, rest': string)
    requires '"' !in slo && '"' !in window && '"' !in slo' && '"' !in window'
    requires Half(slo, window, rest) == Half(slo', window', rest')
    ensures slo == slo' && window == window' && rest == rest'
  {
    var b3, c3 := window + "\"" + rest, window' + "\"" + rest';
    var b2, c2 := ",window=" + "\"" + b3, ",window=" + "\"" + c3;
    QuoteEnds("burn_rate{slo=", slo + "\"" + b2, "burn_rate{slo=", slo' + "\"" + c2);
    QuoteEnds(slo, b2, slo', c2);
    QuoteEnds(",window=", b3, ",window=", c3);
    QuoteEnds(window, rest, window', rest');
  }

  /** The end of the first comparison and the start of the second. */
  function Middle(factor: string): string {
    "} > " + factor + " and burn_rate{slo="
  }

  lemma MiddleDecodes(f: string, x: string, g: string, y: string)
    requires '"' !in f && '"' !in g && Middle(f) + "\"" + x == Middle(g) + "\"" + y
    ensures f == g
  {
    QuoteEnds(Middle(f), x, Middle(g), y);
    Between("} > ", f, " and burn_rate{slo=", g);
  }

  /** The rest of an expression after its first window, cut at the next quote. */
  lemma SecondHalf(slo: string, window: string, factor: string)
    ensures "} > " + factor + (" and " + Rate(slo, window, factor))
         == Middle(factor) + "\"" + (slo + "\"" + (",window=" + "\"" + (window + "\"" + ("} > " + factor))))
    ensures " and " + Rate(slo, window, factor) == " and " + Half(slo, window, "} > " + factor)
  {
    RateIsHalf(slo, window, factor, "");
    assert Rate(slo, window, factor) + "" == Rate(slo, window, factor);
    assert "} > " + factor + "" == "} > " + factor;
  }

  /** An alert expression of quote-free texts determines the SLO, both windows and the factor. */
  lemma ExprDecodes(p: Pack, q: Pack, b: Burn, c: Burn)
    requires QuoteFree(b) && QuoteFree(c) && AlertFor(p, b).expr == AlertFor(q, c).expr
    ensures b.slo == c.slo && b.window.short == c.window.short && b.window.long == c.window.long
    ensures b.window.factor == c.window.factor
  {
    var v, w := b.window, c.window;
    var x, y := " and " + Rate(b.slo, v.long, v.factor), " and " + Rate(c.slo, w.long, w.factor);
    ExprParts(p, b);
    ExprParts(q, c);
    RateIsHalf(b.slo, v.short, v.factor, x);
    RateIsHalf(c.slo, w.short, w.factor, y);
    HalfDecodes(b.slo, v.short, "} > " + v.factor + x, c.slo, w.short, "} > " + w.factor + y);
    SecondHalf(b.slo, v.long, v.factor);
    SecondHalf(c.slo, w.long, w.factor);
    MiddleDecodes(v.factor, b.slo + "\"" + (",window=" + "\"" + (v.long + "\"" + ("} > " + v.factor))),
                  w.factor, c.slo + "\"" + (",window=" + "\"" + (w.long + "\"" + ("} > " + w.factor))));
    After("} > " + v.factor, x, y);
    After(" and ", Half(b.slo, v.long, "} > " + v.factor), Half(c.slo, w.long, "} > " + w.factor));
    HalfDecodes(b.slo, v.long, "} > " + v.factor, c.slo, w.long, "} > " + w.factor);
  }

  lemma ExprParts(p: Pack, b: Burn)
    ensures AlertFor(p, b).expr
         == Rate(b.slo, b.window.short, b.window.factor) + (" and " + Rate(b.slo, b.window.long, b.window.factor))
  {
  }

  // ----- the other entries -----

  /** A planned recording rule keeps name, expression and labels; pack and service are added underneath. */
  lemma RuleEntry(p: Pack, i: nat)
    requires i < |p.spec.recordingRules|
    ensures |PlanPrometheus(p).recordingRules| == |p.spec.recordingRules|
    ensures var r, rr := PlanPrometheus(p).recordingRules[i], p.spec.recordingRules[i];
            && r.name == rr.name && r.expr == rr.expr
            && r.labels.Keys == rr.labels.Keys + {"pack", "service"}
            && (forall k | k in rr.labels :: r.labels[k] == rr.labels[k])
            && ("pack" !in rr.labels ==> r.labels["pack"] == p.name)
            && ("service" !in rr.labels ==> r.labels["service"] == p.service)
  {
  }

  lemma DashboardEntry(p: Pack, i: nat)
    requires i < |p.spec.dashboards|
    ensures |PlanGrafana(p).dashboards| == |p.spec.dashboards|
    ensures var d, e := p.spec.dashboards[i], PlanGrafana(p).dashboards[i];
            e.id == d.id && e.source == d.source && e.template == d.template && e.params == d.params
  {
  }

  /** A stage is named by the text under "name", if there is one, and keeps its whole configuration. */
  predicate StageOf(config: Fields, s: Stage) {
    && s.config == config
    && (if "name" in config && config["name"].JString? then JString(s.name) == config["name"] else s.name == "")
  }

  lemma StageEntries(p: Pack)
    ensures var i, pipes := PlanOTel(p), p.spec.pipelines;
            && |i.receivers| == |pipes.receivers|
            && (forall k | 0 <= k < |pipes.receivers| :: StageOf(pipes.receivers[k], i.receivers[k]))
            && |i.processors| == |pipes.processors|
            && (forall k | 0 <= k < |pipes.processors| :: StageOf(pipes.processors[k], i.processors[k]))
            && i.exporters == pipes.exporters
            && i.semconv == p.spec.otel.semconv && i.required == p.spec.otel.required
  {
  }

  /** The head of a plan, and when it holds a pipeline call. */
  lemma PlanHead(p: Pack, target: Target, azure: Option<AzureRef>)
    ensures var pl := Intents(p, target, azure);
            && pl.pack == p.name && pl.version == p.version && pl.service == p.service && pl.target == target
            && pl.prometheus.groupName == p.service && pl.grafana.folder == p.service
            && (pl.azure.Some? <==> target == TARGET_AZURE && azure.Some?)
            && (pl.azure.Some? ==>
                  && pl.azure.value.provider == azure.value.provider
                  && pl.azure.value.pipeline == azure.value.pipeline
                  && pl.azure.value.branch == azure.value.branch)
  {
  }

  /** The payload of the pipeline call. */
  lemma AzurePayload(p: Pack, ref: AzureRef)
    ensures var m := PlanAzure(p, ref).payload;
            && m.Keys == {"pack", "version", "service", "environments", "criticality", "effectiveSpec"}
            && m["pack"] == JString(p.name) && m["version"] == JString(p.version)
            && m["service"] == JString(p.service) && m["criticality"] == JString(p.criticality)
            && m["effectiveSpec"] == p.raw
            && (match p.environments
                case None => m["environments"] == JNull
                case Some(names) =>
                  && m["environments"].JArray? && |m["environments"].items| == |names|
                  && forall k | 0 <= k < |names| :: m["environments"].items[k] == JString(names[k]))
  {
  }
}

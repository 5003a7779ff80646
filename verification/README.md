# Verification of the observability-pack operator and linter

This project models the observability-pack operator and the lint passes it relies on, and proves
what they keep. A pack is a manifest describing a service's SLIs, SLOs, alerts, dashboards and
telemetry pipelines. The operator's core validates its references, builds a plan with a canonical
digest, and renders the plan into cluster objects or an Azure pipeline request; the controller
applies the result and reports phase, conditions, hash and per-tool state on the resource's status.

| file | what it holds |
|---|---|
| Text, Numbers, Versions | string order, splitting and trimming; int64 wrap-around; decimal printing; the two version orders |
| Manifest, Findings | the typed pack, lint findings and the result object the passes fill |
| Refs, Backends, Conformance | the three lint passes as loops, each against a declarative meaning |
| RefsReport, BackendsReport, ConformanceReport | which findings each pass reports, read off the manifest |
| Lists, Sorting, Wrappers | what appending loops leave behind; what a sort by key promises; optional values |
| Planner, PlanJson, PlanHash | plan building, the JSON the plan encodes to, and the digest |
| PlanLaws, JsonLaws | what each entry of a plan holds and under which key it is encoded |
| Render, Operator | plan to objects; the validate, plan, render gate |
| RenderLaws, CoreLaws | what each rendered object holds; what the core reports and requests |
| Conditions, Apply, Controller | status conditions, the apply loop and its aggregation, one reconcile pass |
| ApplyLaws | what the apply loop's tallies and tool entries count |
| History | sequences of passes: invariants, transition times, hash history, convergence |
| ClusterHistory | what runs do to the cluster, and what a Ready status says about it |
| HeapValues, DeepCopy | nested maps and slices in the heap and when they are acyclic; their recursive copy, and that of a pack's spec |

## How the program is modelled

Loops, buffers, slices and status fields that the program changes step by step are methods,
arrays and classes; each such method is proved equal to a function of its inputs or of the old
state, and the properties below are proved about those functions. `Controller.Reconcile` refines
one `Next` step of a world (persisted status and cluster), and `History` reasons about `Run`, any
sequence of such steps. Everything the program cannot control is part of a `Pass`: what the API
server returned, the clock, the outcome of each apply by its place in the attempt order, the Azure
trigger, the status write, and the order in which Go iterates a map.

- Strings are sequences of Unicode code points; UTF-8 byte order is code-point order.
- The integer width is explicit wherever it matters (`Numbers.Wrap`); generations and clocks are
  plain integers that are only compared.
- `sort.Slice`, `sort.Strings`, `json.Marshal`, base64 and SHA-256 are the functions of a `Library`
  value. Sorting is assumed to return an ordered permutation with ties in any order, the encoders
  to be injective. Nothing is assumed of SHA-256 where a claim is about the bytes that are hashed; a
  claim about digests names injectivity as its hypothesis (`PlanHash.DigestExactly`).
- Finding codes, reasons, phases, condition messages and errors are enumerations; their wording is
  not modelled. Burn-rate factors are kept as the text they print as, the only use made of them.
- A nil list or string map and an empty one are one value, except for exporters, environment
  bindings, and everywhere in `HeapValues` and `DeepCopy`, where the program tells them apart.

## What turned out not to hold as widely as one might expect

- The digest does not depend on list order exactly when, in each sorted list, entries that share a
  name are the same entry (`PlanHash.OrderFreeExactly`); distinct names are sufficient. Under one
  SLO, an alert name stands for one pair of windows exactly when neither text holds an underscore
  (`Planner.WindowsDecodeExactly`, with an instance in `PlanHash.UnderscoreCollides`).
- Equal hashed bytes mean equal rendering up to order, except for an exporter that is present but
  empty, which the digest does not see and the rendering does (`Render.EqualBytesRender`,
  `Render.EmptyExporterHidden`).
- All rendered objects survive in the cluster exactly when dashboards that share an id render alike
  (`Render.RenderedIntactExactly`); distinct ids are sufficient.
- "No error finding" and "target tier reached" differ for an unknown criticality and for the word
  "none"; the exact condition is in `Conformance.ConformanceExact`. Appending entries never hurts,
  but a service-overview dashboard inserted in front of the first one can, and
  `Conformance.InsertingDashboard` says exactly when.
- A version is ranked by its precedence exactly when its components fit int64
  (`Versions.PrecedenceExactly`); a larger one counts for the number it wraps to. `itoa` is wrong
  for the smallest int64 and for no other number (`Numbers.ItoaExact`).
- An empty target, and no other, is accepted and rendered by the core and then degraded by the
  controller (`Controller.EmptyTargetDegrades`).
- A blocked pass leaves Degraded as it was, and a pass whose core fails leaves Validated as it was;
  `History.DegradedHistory` and `History.ValidatedHistory` say which pass each of them speaks of.
- A Ready status vouches for the cluster exactly until a pass whose status write is lost leaves
  another object in the place of a reported one (`ClusterHistory.ReadyExactly`); bumping the version
  is enough (`ClusterHistory.LostWriteSplits`).
- Copying a spec onto itself blanks its pipeline reference (`DeepCopy.SpecNode.DeepCopyInto`): the
  reference is read after it has been replaced.

Where the code and its own documentation disagree, the model follows the code:

- internal/operator/controller/conditions.go:21-22 says Progressing turns false on a terminal
  Degraded; the code leaves it True, as lines 72-74 say.
- docs/operator-design.md:228 says stages after a failed one are skipped; the apply loop attempts
  every object (internal/operator/controller/pack_controller.go:188-204).
- internal/lint/conformance.go:34-35 speaks of info-only findings above the target tier; no such
  tier is ever scored (`Conformance.OnlyErrors`).
- internal/lint/refs.go:141-142 says the linter's alert names mirror the emitted ones; they do
  exactly for unprefixed references and windows in [a-z0-9] (`Refs.NamesAgree`).
- api/v1alpha1/types.go:69 calls the target required; the core reads an absent one as SKE.

## Model

| member | source | states |
|---|---|---|
| Numbers.Itoa | internal/lint/refs.go:163-184 | for every int64 the digit loop stays inside its 20-byte buffer, terminates, and returns the decimal numeral, except that the smallest int64 prints as a lone minus sign |
| Numbers.ItoaExact | internal/lint/refs.go:163-184 | the printed text is a canonical numeral that reads back to the argument if and only if the argument is not the smallest int64 |
| Numbers.PrintReadRoundTrip | internal/lint/refs.go:163-184 | reading a printed integer gives it back, with no superfluous leading zero and no negative zero |
| Numbers.ValuePositional | internal/lint/refs.go:163-184 | numerals are positional: the number of two digit texts joined is the first times a power of ten plus the second |
| Numbers.RefPathInjective | internal/lint/refs.go:186-188 | with the base fixed, a finding path determines its index and its leaf |
| Versions.ParseVersionParts | internal/lint/backends.go:194-208 | the tolerant parser reads, in int64, the number each of the first three components starts with, zero for a missing one |
| Versions.VersionLT | internal/lint/backends.go:183-192 | the loop decides the lexicographic order of the parsed triples |
| Versions.ParseSemver | internal/lint/conformance.go:587-604 | accepts exactly three all-digit components and returns their int64 values |
| Versions.SemverGTE | internal/lint/conformance.go:570-585 | false unless both sides are accepted, otherwise the lexicographic order of the triples |
| Versions.VersionStrictWeakOrder | internal/lint/backends.go:183-192 | the tolerant order is irreflexive, asymmetric and transitive with transitive ties on all strings; ties are exactly equal triples |
| Versions.ComparisonsAgree | internal/lint/conformance.go:570-604 | on strings the strict parser accepts, less-than of one comparison is the negation of at-least of the other, whatever the component size |
| Versions.Precedence | internal/lint/conformance.go:568-585 | on accepted strings whose components fit int64 both comparisons are core-version precedence of the mathematical components |
| Versions.PrecedenceExactly | internal/lint/conformance.go:568-585 | an accepted version is ranked by core-version precedence against every fitting version, in both directions and by both comparisons, if and only if its own components fit int64 |
| Versions.OversizedRanksLow | internal/lint/backends.go:198-206 | one failing pair: 2^63.0.0 is ranked below 1.0.0 |
| Versions.OverflowWraps | internal/lint/backends.go:198-206 | the parsed triple is the mathematical one exactly when every component fits int64 |
| Versions.PrintedTripleReadsBack | internal/lint/conformance.go:587-604 | three printed int64 naturals joined by dots survive both parsers |
| Versions.PrintedOrder | internal/lint/backends.go:183-192 | on printed triples of int64 naturals both comparisons are the lexicographic order of the numbers |
| Versions.TwoComponents | internal/lint/backends.go:194-208 | a printed pair has a zero patch component |
| Versions.SuffixIgnored | internal/lint/backends.go:194-208 | whatever follows the digits of the last component is ignored |
| Findings.LintResult.AddFinding | internal/lint/result.go:77-84 | appends one finding and changes nothing else |
| Findings.LintResult.HasErrors | internal/lint/result.go:67-74 | true exactly when some finding is an error |
| Findings.ErrorsOfExactly | internal/lint/result.go:67-74 | the errors of a list are its findings of that severity, each as often as it occurs |
| Refs.SplitRefNames | internal/lint/refs.go:129-134 | splitting a reference and testing section and id is the same as the reference being section-dot-id, or bare and declared |
| Refs.CheckRef | internal/lint/refs.go:91-126 | appends one finding: empty is an error, external is information, a reference that names nothing of the wanted kind is an error; otherwise none |
| Refs.DeclaredIds | internal/lint/refs.go:16-23 | the two sets hold exactly the declared SLI and SLO ids |
| Refs.CheckSlos | internal/lint/refs.go:26-30 | one judgement per SLO, in order, on its SLI reference |
| Refs.CheckBurnAlerts | internal/lint/refs.go:32-40 | one judgement per burn-rate alert, and the set of expected alert names over all windows |
| Refs.CheckForecasts | internal/lint/refs.go:42-46 | one judgement per forecast, in order, as a reference that needs an SLO; `RefsReport.ReportExactly` and `RefsReport.CleanExactly` say on the manifest what that means |
| Refs.CheckTriggers | internal/lint/refs.go:48-63 | a trigger without its prefix is an error, one that names no known alert a warning |
| Refs.CheckPanels | internal/lint/refs.go:65-71 | one judgement per panel binding, dashboard by dashboard |
| Refs.CheckChaos | internal/lint/refs.go:73-84 | one warning per expected alert that is a text and not known; other values are skipped |
| Refs.Refs | internal/lint/refs.go:15-87 | appends exactly the findings of every site in visiting order, then the chaos warnings, and sets the flag exactly when no error is held |
| Refs.RefsExact | internal/lint/refs.go:26-84 | the error findings are one per defective SLO, burn-rate, forecast, panel reference or remediation trigger, in order, and nothing else |
| Refs.BlocksExactly | internal/lint/refs.go:86-126 | the pass reports an error if and only if some site is defective |
| Refs.BurnReferencesSound | internal/lint/refs.go:33-35 | without an error, every burn-rate reference is non-empty and external or names a declared SLO |
| Refs.PanelPathsDistinct | internal/lint/refs.go:66-69 | distinct panel bindings are reported under distinct paths |
| RefsReport.ReportExactly | internal/lint/refs.go:15-126 | a finding of any severity is reported if and only if the manifest gives cause for it: an SLI reference of an SLO, an SLO reference of a burn-rate alert or forecast, a panel binding of either kind, a trigger, or an expected alert of a chaos experiment, each at its own path |
| RefsReport.CleanExactly | internal/lint/refs.go:26-71 | the pass has no error if and only if every SLO names a declared SLI, every burn-rate alert and forecast a declared SLO, every panel binding either, external references aside, and every trigger starts with "alert:" |
| RefsReport.KnownExactly | internal/lint/refs.go:32-40 | an alert name is known if and only if some window of some burn-rate alert gives it once the prefix is stripped and the windows are sanitised |
| RefsReport.OneFindingEach | internal/lint/refs.go:91-126 | references and triggers get at most one finding each |
| Refs.SanitizeShrinks | internal/lint/refs.go:149-153 | sanitising never lengthens, yields [a-z0-9] only, and is the identity exactly there |
| Refs.SanitizeConcat | internal/lint/refs.go:149-153 | sanitising goes character by character |
| Refs.SanitizeChar | internal/lint/refs.go:149-153 | of the ASCII characters, capitals become small letters, small letters and digits stay, all others go |
| Refs.NamesAgree | internal/lint/refs.go:136-147 | for every reference and window, linter and planner give one alert name if and only if the reference has no section prefix to strip and both windows lie in [a-z0-9]* |
| Refs.NameSetsAgree | internal/lint/refs.go:33-40 | when that holds for every window, the linter's known-alert set is the set of names the planner gives |
| Backends.EvalVersion | internal/lint/backends.go:137-160 | appends below-minimum and above-maximum findings exactly when gated and out of range, as errors only under "enforce" |
| Backends.NeverBothSides | internal/lint/backends.go:152-159 | a version is reported on both sides of its range only when the range itself is inverted |
| Backends.InvertedRangeRejects | internal/lint/backends.go:152-159 | an inverted range reports every gated version on at least one side |
| Backends.ResolveBackendRef | internal/lint/backends.go:164-178 | empty and undeclared references are errors, external ones information, declared ones silent |
| Backends.CheckProduct | internal/lint/backends.go:126-134 | a product outside the registry is a warning, an empty one is silent |
| Backends.CheckCatalog | internal/lint/backends.go:47-58 | returns the declared ids; an id is a duplicate exactly when an earlier entry has it |
| Backends.CheckOverlays | internal/lint/backends.go:60-66 | the nested map loops visit each backend override exactly once, in some order |
| Backends.CheckSignalBlock | internal/lint/backends.go:111-122 | reference, product and version of an optional block, nothing for an absent one |
| Backends.CheckComponents | internal/lint/backends.go:73-90 | product, version and optional reference of each component, in order |
| Backends.CheckStorage | internal/lint/backends.go:92-108 | the three storage signals in order, object blocks only, with their inline version and reference |
| Backends.Backends | internal/lint/backends.go:44-109 | appends exactly the findings of the catalog, overlays, signal blocks, component lists and storage blocks, each overlay visited once in some map order |
| Backends.BackendsExact | internal/lint/backends.go:32-109 | in any map order, an error is reported if and only if an id repeats, an enforced version is out of range, or a reference is empty where required or neither external nor declared |
| BackendsReport.ReportExactly | internal/lint/backends.go:44-178 | in any map order, a finding of any severity is reported if and only if some entry of the manifest gives cause for it: a repeated id, an unknown product, a gated version out of range as error or warning by its mode, or a reference, each at its own path |
| Conformance.AllSlosRecorded | internal/lint/conformance.go:142-161 | clause 3.4 holds exactly when every SLO id occurs in the name or expression of some recording rule |
| Conformance.OverviewCovers | internal/lint/conformance.go:164-192 | clause 3.5 holds exactly when the first service-overview dashboard binds every SLI |
| Conformance.AllMultiWindow | internal/lint/conformance.go:292-312 | the counting loop of clause 2.5 accepts exactly when every burn-rate alert has two windows whose factors differ |
| Conformance.RouteHasThree | internal/lint/conformance.go:444-471 | a route passes clause 1.6 exactly when it is SEV1 with chat, voice and one out-of-band channel over all its channel blocks |
| Conformance.IsDurationLEMinute | internal/lint/conformance.go:608-634 | accepts exactly sub-second units, "1m", and digit texts in seconds whose int64 value is at most 60 |
| Conformance.LookupDashboard | internal/lint/conformance.go:542-549 | the first dashboard with the id, or none when no dashboard has it |
| Conformance.CountKinds | internal/lint/conformance.go:361-371 | the number of distinct SLI types |
| Conformance.ScoreTier3 | internal/lint/conformance.go:100-241 | the loops decide the nine non-constant clauses of tier 3 as stated declaratively |
| Conformance.ScoreTier2 | internal/lint/conformance.go:243-356 | the loops decide the nine clauses of tier 2 as stated declaratively |
| Conformance.ScoreTier1 | internal/lint/conformance.go:358-530 | the loops decide the twelve clauses of tier 1 as stated declaratively |
| Conformance.EmitFindings | internal/lint/conformance.go:71-84 | one finding per failed check, in order, at the severity the tier and target give |
| Conformance.Conformance | internal/lint/conformance.go:17-43 | target, reached tier, the three check lists and one finding per failed scored check; lists of unscored tiers are left as they were |
| Conformance.OnlyErrors | internal/lint/conformance.go:34-84 | every finding emitted is an error, and there is one exactly when a scored check fails: the information branch is unreachable |
| Conformance.NeverStricterThanTarget | internal/lint/conformance.go:46-60 | the tier reached is never stricter than the target, for any criticality text |
| Conformance.ConformanceExact | internal/lint/conformance.go:17-60 | "no error finding if and only if the target is reached" holds exactly for a known tier, or for an unknown one other than "none" on a pack that fails some tier-3 clause |
| Conformance.LaxerTargetPasses | internal/lint/conformance.go:14-16 | a pack that passes at its criticality passes, and reaches the target, at every laxer one |
| Conformance.Tier3Monotone | internal/lint/conformance.go:100-241 | appending receivers, processors, required attributes, recording rules, derived views, dashboards, routes, forecasts, synthetic checks or chaos experiments fails no passing tier-3 clause |
| Conformance.Tier2Monotone | internal/lint/conformance.go:243-356 | the same for tier 2 |
| Conformance.Tier1Monotone | internal/lint/conformance.go:358-530 | the same for tier 1 |
| Conformance.AppendingNeverHurts | internal/lint/conformance.go:17-60 | such appending never adds an error to a clean pack nor lowers the tier reached |
| ConformanceReport.ReportedExactly | internal/lint/conformance.go:17-84 | a clause is reported as failed if and only if its tier is scored for the target and the check of that name fails |
| ConformanceReport.OnlyScoredTiers | internal/lint/conformance.go:34-60 | no clause of a tier stricter than the target is reported |
| ConformanceReport.Tier3Findings | internal/lint/conformance.go:100-241 | which verdict of tier 3 each clause name reports; 3.3 and 3.8 are never reported |
| ConformanceReport.Tier2Findings | internal/lint/conformance.go:243-356 | the same for tier 2 |
| ConformanceReport.Tier1Findings | internal/lint/conformance.go:358-530 | the same for tier 1 |
| ConformanceReport.OverviewExactly | internal/lint/conformance.go:163-192 | clause 3.5 holds if and only if some service-overview dashboard stands before all others of that id and binds every SLI |
| ConformanceReport.Tier3Means | internal/lint/conformance.go:100-241 | objectives, required attributes, overview, alerts, baselines and probe on the manifest |
| ConformanceReport.Tier3MeansLists | internal/lint/conformance.go:118-217 | default receiver, recorded SLOs and chat routes on the manifest |
| ConformanceReport.Tier2MeansLists | internal/lint/conformance.go:292-356 | burn-rate windows, voice route and monthly chaos on the manifest |
| ConformanceReport.Tier1MeansViews | internal/lint/conformance.go:411-530 | rollup views, dashboards, weekly chaos in production and fast probes on the manifest |
| ConformanceReport.Tier1MeansExporters | internal/lint/conformance.go:373-394 | exporters and tail sampling on the manifest |
| ConformanceReport.Tier1MeansChannels | internal/lint/conformance.go:444-471 | some SEV1 route reaches chat, voice and a further channel over its blocks |
| ConformanceReport.IntervalSeconds | internal/lint/conformance.go:608-634 | an int64 natural of seconds is short exactly up to sixty |
| ConformanceReport.IntervalMinutes | internal/lint/conformance.go:608-634 | of the minutes only one is short |
| ConformanceReport.IntervalMillis | internal/lint/conformance.go:608-634 | milliseconds always are |
| Conformance.InsertingDashboard | internal/lint/conformance.go:163-192 | a pack passing clause 3.5 still passes it with a dashboard inserted at any position if and only if that dashboard is no service-overview, comes after one, or binds every SLI |
| Conformance.PrependingDashboardHurts | internal/lint/conformance.go:542-549 | one failing input: an empty service-overview in front of a covering one |
| Sorting.SortUnique | internal/operator/plan/plan.go:279-284 | two sorted arrangements of the same elements are equal when keys determine elements |
| Sorting.AmbiguousSort | internal/operator/plan/plan.go:279-284 | when some key is shared by different elements, two different arrangements both satisfy the sort's contract |
| Planner.CloneLabels | internal/operator/plan/plan.go:230-239 | pack and service labels overridden by the rule's own, in any map order |
| Planner.BuildRules | internal/operator/plan/plan.go:160-166 | one planned rule per recording rule, with its labels |
| Planner.AppendWindows | internal/operator/plan/plan.go:169-187 | one planned alert per window of a burn-rate alert, in order; `PlanLaws.AlertTexts`, `PlanLaws.AlertMaps` and `PlanLaws.ExprDecodes` say what such an alert holds |
| Planner.BuildPrometheus | internal/operator/plan/plan.go:157-190 | one rule per recording rule and one alert per burn-rate window, in manifest order |
| Planner.BuildGrafana | internal/operator/plan/plan.go:192-203 | one reference per dashboard, in manifest order |
| Planner.BuildOTel | internal/operator/plan/plan.go:205-228 | receivers and processors in order under their name field, exporters and attributes as given |
| Planner.AlertNameDecodes | internal/operator/plan/plan.go:171-171 | with underscore-free windows an alert name determines its SLO reference and both windows |
| Planner.WindowsDecodeExactly | internal/operator/plan/plan.go:171-171 | under one SLO, no other pair of windows shares the name of a pair if and only if that pair is free of underscores |
| Planner.PlannedNames | internal/operator/plan/plan.go:168-188 | the names of the alerts in the plan are exactly the names of the manifest's windows |
| Planner.LinterKnowsPlannedAlerts | internal/lint/refs.go:129-153 | on a pack whose references and windows are plain, the linter's known-alert set equals the alert names in the plan |
| PlanLaws.ExprDecodes | internal/operator/plan/plan.go:172-173 | an alert expression of quote-free texts determines the SLO, the short and the long window and the factor |
| PlanLaws.AlertTexts | internal/operator/plan/plan.go:169-187 | name, expression over both windows, duration and severity of every planned alert |
| PlanLaws.AlertMaps | internal/operator/plan/plan.go:175-186 | labels and annotations of every planned alert |
| PlanLaws.BurnsInOrder | internal/operator/plan/plan.go:168-169 | the j-th window of the k-th burn-rate alert is planned behind all windows of earlier alerts and its own earlier ones |
| PlanLaws.RuleEntry | internal/operator/plan/plan.go:160-166 | a planned recording rule keeps name, expression and its own labels; pack and service labels appear only where it has none |
| PlanLaws.DashboardEntry | internal/operator/plan/plan.go:192-203 | a planned dashboard keeps id, source, template and parameters |
| PlanLaws.StageEntries | internal/operator/plan/plan.go:205-228 | a stage keeps its configuration and is named by its text name, if any; exporters and attributes are carried over |
| PlanLaws.PlanHead | internal/operator/plan/plan.go:116-155 | head of the plan, and a pipeline call exactly for the Azure target with a reference |
| PlanLaws.AzurePayload | internal/operator/plan/plan.go:134-151 | keys and values of the pipeline payload; absent environments are null |
| PlanJson.PrometheusJsonInjective | internal/operator/plan/plan.go:37-60 | the encoding of rules and alerts, with its omitted empty fields, loses nothing |
| PlanJson.GrafanaJsonInjective | internal/operator/plan/plan.go:62-75 | the encoding of the dashboards loses nothing |
| PlanJson.ExportersJsonExact | internal/operator/plan/plan.go:96-100 | exporters encode alike exactly when they agree up to empty against absent |
| PlanJson.OTelJsonInjective | internal/operator/plan/plan.go:77-100 | collector intents encode alike exactly when they agree up to that one identification |
| PlanJson.AzureJsonInjective | internal/operator/plan/plan.go:106-111 | the encoding of the pipeline call loses nothing |
| JsonLaws.RuleTags | internal/operator/plan/plan.go:43-47 | keys of an encoded recording rule; empty labels are omitted |
| JsonLaws.AlertMapTags | internal/operator/plan/plan.go:49-60 | labels and annotations of an encoded alert stand under their keys and are omitted when empty |
| JsonLaws.AlertKeys | internal/operator/plan/plan.go:49-60 | the keys an encoded alert can have |
| JsonLaws.DashboardTags | internal/operator/plan/plan.go:67-75 | keys of an encoded dashboard and which are omitted when empty |
| JsonLaws.StageTags | internal/operator/plan/plan.go:89-94 | keys of an encoded stage; an empty configuration is omitted |
| JsonLaws.AzureTags | internal/operator/plan/plan.go:106-111 | keys of an encoded pipeline call; an empty branch is omitted |
| PlanHash.SortedCopy | internal/operator/plan/plan.go:274-284 | copying and sorting yields the sorted list and writes nothing but the copy |
| PlanHash.HashPlan | internal/operator/plan/plan.go:262-304 | returns the digest of the sorted document and leaves the plan as it was; `PlanHash.DigestExactly` says what the digest is a digest of |
| PlanHash.Build | internal/operator/plan/plan.go:116-155 | fails without a name, and for Azure without a pipeline; otherwise returns the intents with their digest |
| PlanHash.BuildFailsExactly | internal/operator/plan/plan.go:116-138 | which of the two failures occurs exactly when, and that there is a plan exactly otherwise |
| PlanHash.BuildHashExactly | internal/operator/plan/plan.go:116-155 | built hashes agree, under the same hypothesis, if and only if both manifests plan the same content |
| PlanHash.PreimageSound | internal/operator/plan/plan.go:262-304 | plans with equal hashed bytes agree up to the order of rules, alerts, dashboards and required attributes (and empty exporters); receivers, processors and everything else are equal |
| PlanHash.PreimageComplete | internal/operator/plan/plan.go:262-304 | when names determine entries, plans that agree up to that order have equal hashed bytes |
| PlanHash.CanonicalHash | internal/operator/plan/plan.go:259-304 | hence, for such a plan, equal hashed bytes if and only if equal content |
| PlanHash.DigestIsChecksum | internal/operator/plan/plan.go:295-303 | the digest is the checksum of the text one gets by leaving the checksum out |
| PlanHash.DigestExactly | internal/operator/plan/plan.go:262-304 | if the checksum never collides, an unambiguous plan shares its digest with exactly the plans of the same content in any order |
| PlanHash.HashedTextExactly | internal/operator/plan/plan.go:262-304 | the same for the text that is hashed, with nothing assumed of the checksum |
| PlanHash.OrderFreeExactly | internal/operator/plan/plan.go:279-284 | the hashed bytes are independent of list order and of how ties are sorted if and only if names determine entries |
| PlanHash.DistinctKeysAreUnambiguous | internal/operator/plan/plan.go:279-284 | pairwise distinct rule names, alert names and dashboard ids meet that condition |
| PlanHash.ManifestOrderIrrelevant | internal/operator/plan/plan.go:116-155 | off Azure, reordering rules, burn-rate windows, dashboards or required attributes of the manifest leaves the built hash unchanged when names determine the planned entries |
| PlanHash.PlainManifestUnambiguous | internal/operator/plan/plan.go:168-188 | determining rule names and dashboard ids, underscore-free windows and determining (slo, short, long) triples are enough for that |
| PlanHash.BurnsReordered | internal/operator/plan/plan.go:168-169 | reordering the burn-rate alerts reorders the planned windows |
| PlanHash.WindowsReordered | internal/operator/plan/plan.go:168-169 | reordering the windows of one alert reorders the planned windows |
| PlanHash.AzureHashSeesManifest | internal/operator/plan/plan.go:134-151 | Azure plans with equal hashed bytes, built with any two pipeline references, embed equal raw manifests and call the same provider, pipeline and branch |
| PlanHash.ShuffledManifestSameHash | internal/operator/plan/plan.go:116-190 | off Azure, shuffling rules, burn-rate alerts, the windows inside each, dashboards and required attributes leaves the built hash unchanged, under conditions on the manifest alone |
| PlanHash.UnderscoreCollides | internal/operator/plan/plan.go:171-171 | two different windows with an underscore share one alert name |
| Render.Prometheus | internal/operator/render/render.go:27-76 | one rule object whose list is the recording rules then the alerts, empty fields left out |
| Render.Grafana | internal/operator/render/render.go:82-112 | one object per dashboard, by url if it has a source, else by template |
| Render.OTel | internal/operator/render/render.go:117-167 | one collector object with the stage maps, the present exporters and the resource attributes |
| Render.RenderRules | internal/operator/render/render.go:31-57 | the rule entries, with labels, duration and annotations only where non-empty |
| Render.CollectStages | internal/operator/render/render.go:121-134 | the loop over stages leaves the last-wins map |
| Render.StripNameLoop | internal/operator/render/render.go:208-220 | the configuration without its name field, in any map order |
| Render.StageMapLastWins | internal/operator/render/render.go:121-134 | a name is in the stage map exactly when it is non-empty and some stage carries it, and it holds the configuration of the last such stage without its name field |
| Render.RuleCount | internal/operator/render/render.go:31-57 | the rendered rule list has one entry per recording rule and per burn-rate window |
| Render.RenderedKeysDistinct | internal/operator/render/render.go:59-153 | the rendered (kind, namespace, name) keys are pairwise distinct if and only if the dashboard ids are |
| Render.RenderedClusterIntact | internal/operator/operator.go:91-96 | with distinct dashboard ids, upserting the objects in any order leaves each of them present and intact and touches no other key |
| Render.RenderedIntactExactly | internal/operator/render/render.go:82-112 | for every plan, cluster and upsert order, all rendered objects are present and intact afterwards if and only if dashboards that share an id render alike |
| Render.IntactExactly | internal/operator/controller/pack_controller.go:196-204 | upserting any objects in any order leaves all of them intact if and only if objects that share a key are the same object |
| Render.UpsertIdempotent | internal/operator/controller/pack_controller.go:169-170 | applying the same objects again changes nothing, even when some share a key |
| Render.EqualBytesRender | internal/operator/plan/plan.go:259-304 | plans with equal hashed bytes render alike: same labels and group, rules, dashboard objects and required attributes up to order, and equal collector configuration if and only if the exporters are equal, which holds whenever none is present but empty |
| Render.EmptyExporterHidden | internal/operator/render/render.go:135-144 | changing only the exporters keeps the hashed bytes exactly when the change is between empty and absent, under any of the three signals, and keeps the rendered collector exactly when nothing changes |
| RenderLaws.PrometheusIdentity | internal/operator/render/render.go:59-76 | kind, name, namespace and the five labels of the rule object, the last with sixteen characters of the hash |
| RenderLaws.DashboardIdentity | internal/operator/render/render.go:82-112 | the same for each dashboard object, named after its id |
| RenderLaws.OTelIdentity | internal/operator/render/render.go:153-167 | the same for the collector object |
| RenderLaws.RuleGroup | internal/operator/render/render.go:31-76 | one group under the planned name, holding the recording rules and then the alerts |
| RenderLaws.RecordTags | internal/operator/render/render.go:31-41 | keys of a rendered recording rule; empty labels are left out |
| RenderLaws.AlertMapTags | internal/operator/render/render.go:42-57 | labels and annotations of a rendered alert stand under their keys and are left out when empty |
| RenderLaws.AlertKeys | internal/operator/render/render.go:42-57 | the keys a rendered alert can have; severity is not one of them |
| RenderLaws.DashboardFields | internal/operator/render/render.go:82-112 | folder and url or template; a source wins over a template, and only a template carries parameters |
| RenderLaws.CollectorStages | internal/operator/render/render.go:117-134 | under config.receivers and config.processors, each name holds the last stage of that name without its name field, and there is nothing else |
| RenderLaws.CollectorExporters | internal/operator/render/render.go:135-144 | under config.exporters, each signal that is present, empty or not |
| RenderLaws.CollectorAttributes | internal/operator/render/render.go:145-167 | mode, required attributes in order, and the semantic convention |
| Operator.Reconcile | internal/operator/operator.go:55-107 | computes the core outcome: malformed input, blocked by references, plan failure, objects, request or unknown target |
| Operator.FirstError | internal/operator/operator.go:78-83 | the scan finds an error finding exactly when there is one |
| Operator.CorePartition | internal/operator/operator.go:78-106 | an error-free outcome is blocked exactly when a reference is defective, and then holds nothing; otherwise it holds exactly one of objects and request, chosen by the target |
| Operator.CorePlan | internal/operator/operator.go:85-89 | an unblocked outcome holds exactly the plan of this manifest, with its digest |
| Operator.CoreRendered | internal/operator/operator.go:91-102 | its objects are the rendering of that plan, or its request carries the plan's digest |
| Operator.CoreErrors | internal/operator/operator.go:56-105 | the core fails exactly on a missing or malformed manifest, or on a reference-clean pack without a name, without an Azure pipeline, or with an unknown target; the request error never occurs |
| Operator.RenderedAlertsResolve | internal/operator/operator.go:75-96 | every alert rendered from an unblocked pack carries an SLO label that is external or names a declared SLO |
| CoreLaws.CoreFindings | internal/operator/operator.go:72-83 | the core hands on exactly the findings the manifest gives cause for, and blocks exactly the packs whose references are not clean |
| CoreLaws.CoreRequest | internal/operator/operator.go:97-102 | a request carries the caller's pipeline reference, the plan and its digest |
| Conditions.PackObject.SetStatusCondition | internal/operator/controller/conditions.go:50-63 | search and update in place are the upsert by type that keeps the transition time while the status stays |
| Conditions.SetConditionFinds | internal/operator/controller/conditions.go:50-63 | the upsert stamps its own type, changes no other, and keeps one condition per type |
| Conditions.PackObject.MarkReady | internal/operator/controller/conditions.go:66-70 | sets Ready, Progressing and Degraded and no other status field |
| Conditions.PackObject.MarkDegraded | internal/operator/controller/conditions.go:75-78 | sets Ready and Degraded only, both with the given reason and message; Progressing is left alone; `History.RunWords` and `History.DegradedWords` say what they give in every run |
| Conditions.PackObject.MarkBlocked | internal/operator/controller/conditions.go:81-85 | sets Validated, Ready and Progressing only; Degraded is left alone |
| Conditions.PackObject.MarkProgressing | internal/operator/controller/conditions.go:88-90 | sets Progressing only |
| Conditions.PackObject.MarkValidated | internal/operator/controller/conditions.go:93-95 | sets Validated only |
| Apply.Cluster.Apply | internal/operator/controller/pack_controller.go:50-52 | an upsert under kind, namespace and name, or no change when it fails |
| Apply.Attempt | internal/operator/controller/pack_controller.go:192-204 | every object is sent exactly once, in order, failures included; the cluster holds the accepted ones with their owner; both maps tally successes and last failures by kind |
| Apply.ApplyObjects | internal/operator/controller/pack_controller.go:191-225 | in any map order the report lists each kind as the outcomes dictate, and the error counts the kinds with a failure |
| Apply.AggregationExact | internal/operator/controller/pack_controller.go:206-224 | for any outcomes and map order: one entry per distinct kind, object counts adding up to the successful attempts, and a Degraded entry (and an error) exactly when some attempt failed |
| Apply.EntriesMeaning | internal/operator/controller/pack_controller.go:207-220 | an entry counts the successes of its kind and is Degraded exactly when that kind had a failure |
| ApplyLaws.EntryMeans | internal/operator/controller/pack_controller.go:206-224 | an entry counts the attempts of its kind that succeeded and gives the error of the last one that failed, if any |
| ApplyLaws.SuccessesCount | internal/operator/controller/pack_controller.go:192-204 | the tally of a kind is the number of its attempts without an error |
| ApplyLaws.AcceptedExactly | internal/operator/controller/pack_controller.go:192-204 | the accepted objects are those of the attempts without an error, with the owner set |
| ApplyLaws.LastAccepted | internal/operator/controller/pack_controller.go:192-204 | of the objects sharing a key, the last accepted one stays |
| ApplyLaws.SmoothReport | internal/operator/controller/pack_controller.go:206-238 | a rendering applied without failure lists prometheus and otel with one object each, and grafana with one per dashboard if there is any |
| Apply.SumObjects | internal/operator/controller/pack_controller.go:173-179 | the sum of the object counts |
| Controller.Fail | internal/operator/controller/pack_controller.go:258-269 | writes the degraded status with the error, requeues in a minute, and leaves the stored status alone when the write fails |
| Controller.ApplyTarget | internal/operator/controller/pack_controller.go:126-143 | the in-cluster branch sends every object once and concludes with failure or readiness by the outcomes |
| Controller.TriggerTarget | internal/operator/controller/pack_controller.go:144-157 | the Azure branch records the run and one tool entry, or fails as the trigger did |
| Controller.SwitchTarget | internal/operator/controller/pack_controller.go:124-166 | the switch concludes the verdict of the target; only the in-cluster branch touches the cluster |
| Controller.Block | internal/operator/controller/pack_controller.go:114-121 | writes the blocked status and does not requeue unless the write fails |
| Controller.Dispatch | internal/operator/controller/pack_controller.go:108-170 | from an announced status, the core result settles to its verdict, whatever branch it takes |
| Controller.Reconcile | internal/operator/controller/pack_controller.go:86-171 | a pass is one step of the world: status, cluster and requeue are those of the verdict on the spec it read; a failed write changes no status |
| Controller.PlanPresent | internal/operator/controller/pack_controller.go:143-163 | the plan the controller dereferences is always there |
| Controller.UnreachableBranches | internal/operator/controller/pack_controller.go:144-160 | the nil-request branch is unreachable, and the unknown-target branch is reached only for the empty target, which never succeeds |
| Controller.EmptyTargetDegrades | internal/operator/controller/pack_controller.go:158-159 | a pass degrades with an unknown target if and only if the target is empty and the core result unblocked, although the core has rendered objects |
| History.SettleEffect | internal/operator/controller/pack_controller.go:97-165 | what one persisted pass does to each condition, reason and message included, and to phase, generation, error, hash, tools and pipeline run, for each verdict |
| History.RunWords | internal/operator/controller/conditions.go:50-95 | in every run: while Degraded, Ready and Degraded give the reason and the error of `lastError`; while Blocked, Validated, Ready and Progressing give their reasons and the lint message; while Applying, Ready and Progressing give the run id of the pipeline run; while Ready, the totals of the listed tools |
| History.DegradedWords | internal/operator/controller/conditions.go:65-85 | in every run, Blocked statuses included, a true Degraded gives the reason and error of the latest written pass that was not blocked |
| History.VerdictExactly | internal/operator/controller/pack_controller.go:108-166 | which verdict a pass gets, from the core result and the outcomes, and the cause of every failure; a partial report exactly after a failed apply |
| History.RequeueExactly | internal/operator/controller/pack_controller.go:110-171 | a pass returns with the error exactly when its write fails, and otherwise requeues as the phase it leaves demands |
| History.AfterIsRun | internal/operator/controller/pack_controller.go:86-171 | the status a run persists does not depend on what the cluster held |
| History.RunInvariant | internal/operator/controller/pack_controller.go:86-171 | in every run: one condition per type; Ready is true exactly in phase Ready or Applying, and then Validated is true, Progressing and Degraded false and no error held; Degraded phase exactly when Progressing is true, then Ready false and Degraded true; Blocked has Validated, Ready and Progressing false; Planning is never persisted |
| History.RunDated | internal/operator/controller/pack_controller.go:97-166 | with non-decreasing generations, every condition's generation is at most the status's, Ready's equals it, and all are equal while Ready is true |
| History.TransitionTimes | internal/operator/controller/conditions.go:50-63 | Ready, Validated and Degraded carry the clock of the latest persisted pass that changed their status |
| History.ProgressingTimes | internal/operator/controller/conditions.go:65-90 | Progressing carries the clock of the latest persisted pass that ended non-Degraded or began the current Degraded streak |
| History.HashHistory | internal/operator/controller/pack_controller.go:162-165 | the effective hash is empty, or the plan hash of the spec the latest persisted successful pass read |
| History.SpecHashExactly | internal/operator/plan/plan.go:262-304 | if the checksum never collides, two specs have one hash if and only if their plans have the same content |
| History.ReadyMeansCurrent | internal/operator/controller/pack_controller.go:162-165 | while Ready is true, the latest persisted pass succeeded and generation and hash are those of the spec it read |
| History.DeployableExactly | internal/operator/operator.go:56-96 | a pass gets as far as applying exactly for an in-cluster target and a named pack without a defective reference |
| History.EndsReadyExactly | internal/operator/controller/pack_controller.go:124-170 | from any status and cluster, a pass that writes its status ends in phase Ready if and only if its spec is deployable and every apply succeeds |
| History.Converges | internal/operator/controller/pack_controller.go:124-170 | from any status and cluster, one pass over an unblocked in-cluster spec whose applies and write succeed ends Ready with that spec's hash and generation and all objects upserted |
| History.RepeatIsIdempotent | internal/operator/controller/pack_controller.go:124-170 | repeating it leaves cluster, phase, hash, generation, tools up to order and every condition unchanged, except that Progressing's transition time moves to the new clock |
| History.DegradedHistory | internal/operator/controller/conditions.go:65-85 | in every run, Degraded is true if and only if the latest written pass that was not blocked failed, Blocked statuses included |
| History.ValidatedHistory | internal/operator/controller/pack_controller.go:108-122 | in every run, Validated is true if and only if the latest written pass whose core answered was not blocked, Degraded statuses included |
| History.DegradedSurvivesBlock | internal/operator/controller/conditions.go:80-85 | a blocked pass keeps a Degraded condition unchanged |
| History.ValidatedGoesStale | internal/operator/controller/pack_controller.go:108-112 | a pass whose core fails degrades and keeps the Validated condition unchanged |
| ClusterHistory.ClusterOrigin | internal/operator/controller/pack_controller.go:188-204 | no run deletes an object, and whatever a run changed is an object some pass of it sent, with the pack's own owner reference |
| ClusterHistory.NothingSentUnlessPlanned | internal/operator/controller/pack_controller.go:108-121 | a blocked pass and a pass whose core fails leave the cluster alone |
| ClusterHistory.ReadyExactly | internal/operator/controller/pack_controller.go:124-170 | in every run that ends in phase Ready, the cluster holds all objects of the reported spec intact if and only if objects of it sharing a key are the same and no later pass with a lost status write left another object under one of the keys |
| ClusterHistory.ReadyMeansApplied | internal/operator/controller/pack_controller.go:124-170 | hence, when the latest pass that read the resource wrote its status, if and only if objects sharing a key are the same |
| ClusterHistory.SentDetermineExactly | internal/operator/render/render.go:82-112 | they are, for a deployable spec, exactly when its dashboards that share an id render alike |
| ClusterHistory.LostWriteSplits | internal/operator/controller/pack_controller.go:165-167 | a failing run: after an edit of the version whose pass loses its status write, the status still reports the first spec as Ready and that spec's collector is gone from the cluster |
| DeepCopy.DeepCopyValue | api/v1alpha1/zz_deepcopy.go:108-119 | the copy shows at every path what the original shows, all its maps and slices are fresh and none is shared with the original, and nothing that existed before is written |
| DeepCopy.DeepCopyMap | api/v1alpha1/zz_deepcopy.go:86-95 | the same for a map in any iteration order; nil exactly for nil |
| DeepCopy.DeepCopySlice | api/v1alpha1/zz_deepcopy.go:97-106 | the same for a slice, a window of a backing array that others may share; the copy has a backing array of its own; nil exactly for nil |
| DeepCopy.SpecNode.DeepCopyInto | api/v1alpha1/zz_deepcopy.go:56-63 | target and namespace carried over, pipeline reference copied into a fresh object, manifest copied deeply, only the destination written; a spec copied onto itself ends with a blank pipeline reference |
| HeapValues.ShapeUnique | api/v1alpha1/zz_deepcopy.go:86-119 | the shape of a value is determined by the heap, so equal shape is structural equality |
| HeapValues.ShapeShowsAll | api/v1alpha1/zz_deepcopy.go:86-119 | the shape of a value says at every path which scalar, keys, length or nil one finds there |
| HeapValues.EqualShapesShowTheSame | api/v1alpha1/zz_deepcopy.go:86-119 | values of equal shape have the same scalars at the same paths, and the same keys, lengths and nils |
| HeapValues.GlimpseIsLead | api/v1alpha1/zz_deepcopy.go:114-117 | a scalar is seen at a path exactly when the path leads to it |
| HeapValues.BoundedUnfolds | api/v1alpha1/zz_deepcopy.go:83-85 | a value of bounded nesting meets the copy's precondition |
| HeapValues.AcyclicUnfolds | api/v1alpha1/zz_deepcopy.go:83-119 | every value of a finite heap from which no value is reached that is reached again from itself meets it, nested no deeper than the heap is large |
| HeapValues.UnfoldsAcyclic | api/v1alpha1/zz_deepcopy.go:83-119 | and only such values do |
| HeapValues.FiniteExactly | api/v1alpha1/zz_deepcopy.go:83-119 | in a finite heap, nesting is bounded if and only if it is acyclic |
| HeapValues.CycleNeverUnfolds | api/v1alpha1/zz_deepcopy.go:83-85 | a value that can be reached from itself never meets it |
| DeepCopy.Independent | api/v1alpha1/zz_deepcopy.go:86-119 | of a copy and its original, writes confined to the objects of one side leave the other side as it was, in both directions |

## Left out

- JSON Schema validation, YAML and JSON loading, and the re-encoding that types the manifest: a document is absent, malformed, or a typed pack with its raw value.
- The HTTP trigger client and the field copying of the Azure request: the trigger is an outcome, the request is its reference, hash and plan.
- Guards against a nil pack or plan, and marshalling errors: no caller in the modelled code passes nil, and decoded JSON always marshals.
- Finding messages, check titles and details, condition messages and error texts: only their kind and the values they carry.
- Printing with %q and %g: a burn-rate factor is its printed text, and two factors are equal when their texts are.
- Server-side-apply field ownership, caches and conflicts: an apply is an upsert that succeeds or fails, a status write is all or nothing.
- Owner reference details beyond the owner's uid, events, logging and manager wiring: no property of the modelled state depends on them.
- Copying of the status, of a whole pack and of pack lists, which delegates to library copies; the spec's free-form manifest is the recursive part.
- Import resolution and composition, drift detection, finalizers and adapter ordering described in docs/operator-design.md: not implemented in the code modelled here.
- The command-line entry points and the one-line lint summary.
- The capacity of a slice beyond its length: the copy never reads it.
- Planner.LinterKnowsPlannedAlerts: one direction for the sets; name by name `Refs.NamesAgree` is an equivalence, but two sets can coincide although single names differ.
- PlanHash.Build: the plan's four sortable lists become slices only when the digest is taken; building them is modelled on values.
- Controller.Reconcile: one clock value per pass, and the generation and spec of a pass are read together.

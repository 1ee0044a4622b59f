/** Configuration: the checks that decide what may be allowed or resolved
    (validation.ts) and the resolution into runtime form (loader.ts,
    resolved-policy.ts, validate-action.ts). */
module Config {
  import opened Wrappers
  import opened Text
  import opened Domain
  import opened Durations
  import DecisionEngine
  import Policies

  const DEFAULT_AGING_THRESHOLD := 0.75
  const DEFAULT_MAX_AGE := Millis(30_000)
  const MAX_EXECUTION_DEADLINE_MS := 2_147_000_000

  // ---- The file ----------------------------------------------------------------

  datatype HybridConfig = HybridConfig(
    ttl: Option<bool>, version: Option<bool>, hash: Option<bool>, preconditions: Option<bool>)
  {
    predicate AnyDefined() { ttl.Some? || version.Some? || hash.Some? || preconditions.Some? }
    function Enabled(): Components {
      Components(ttl == Some(true), version == Some(true), hash == Some(true), preconditions == Some(true))
    }
  }

  datatype FreshnessConfig = FreshnessConfig(
    strategy: Strategy, maxAge: Option<Duration>, agingThreshold: Option<real>,
    skew: Option<Duration>, hybrid: Option<HybridConfig>)

  datatype ExecutionConfig = ExecutionConfig(
    deadline: Option<Duration>, requireFresh: Option<bool>, allowIdempotentRetry: Option<bool>,
    requireConditional: Option<bool>, onConditionalUnavailable: Option<Outcome>)

  datatype RuleConfig = RuleConfig(
    source: Option<Text>, resource: Option<Text>, resourceId: Option<Text>, freshness: FreshnessConfig)

  datatype PolicyConfig = PolicyConfig(
    name: Text, matcher: Matcher, risk: Option<Risk>, freshness: Option<FreshnessConfig>,
    preconditions: seq<Precondition>, rules: seq<RuleConfig>, outcomes: Outcomes,
    execution: Option<ExecutionConfig>)

  /** `outcomes` holds the on_* keys, `short` the bare ones they shadow. */
  datatype DefaultsConfig = DefaultsConfig(
    outcomes: Outcomes, short: Outcomes, freshness: Option<FreshnessConfig>,
    agingThreshold: Option<real>, skew: Option<Duration>, deadline: Option<Duration>)

  datatype RootConfig = RootConfig(
    mode: Mode, acknowledgeUnknownAllow: bool, defaults: Option<DefaultsConfig>, actions: seq<PolicyConfig>)

  // ---- Validation ----------------------------------------------------------------

  datatype Violation =
    | TtlNeedsMaxAge | MaxAgeNotAllowed | BadDuration | BadThreshold
    | HybridEnablesNothing | HybridTtlNeedsMaxAge | HybridDefaultNeedsMaxAge
    | InvalidAllowed | UnknownAllowed | StaleAllowed | ConditionalContradiction

  function When(c: bool, v: Violation): seq<Violation> {
    if c then [v] else []
  }

  predicate BadlyTimed(d: Option<Duration>) {
    d.Some? && ParseDuration(d.value).None?
  }

  predicate BadThresholdValue(t: Option<real>) {
    t.Some? && !(0.0 < t.value <= 1.0)
  }

  function FreshnessViolations(f: FreshnessConfig): seq<Violation> {
    LimitViolations(f) + HybridViolations(f)
  }

  function LimitViolations(f: FreshnessConfig): seq<Violation> {
    When(f.strategy == Ttl && f.maxAge.None?, TtlNeedsMaxAge) +
    When(f.strategy !in {Ttl, Hybrid} && f.maxAge.Some?, MaxAgeNotAllowed) +
    When(BadlyTimed(f.maxAge), BadDuration) +
    When(BadlyTimed(f.skew), BadDuration) +
    When(BadThresholdValue(f.agingThreshold), BadThreshold)
  }

  function HybridViolations(f: FreshnessConfig): seq<Violation> {
    When(f.hybrid.Some? && f.hybrid.value.AnyDefined() && !f.hybrid.value.Enabled().Any(), HybridEnablesNothing) +
    When(f.hybrid.Some? && f.hybrid.value.ttl == Some(true) && f.maxAge.None?, HybridTtlNeedsMaxAge) +
    When(f.strategy == Hybrid && f.hybrid.None? && f.maxAge.None?, HybridDefaultNeedsMaxAge)
  }

  function OptionalFreshnessViolations(f: Option<FreshnessConfig>): seq<Violation> {
    if f.Some? then FreshnessViolations(f.value) else []
  }

  function RuleViolations(rules: seq<RuleConfig>): seq<Violation> {
    if rules == [] then []
    else RuleViolations(rules[..|rules| - 1]) + FreshnessViolations(rules[|rules| - 1].freshness)
  }

  function ExecutionViolations(x: Option<ExecutionConfig>): seq<Violation> {
    if x.None? then []
    else
      When(BadlyTimed(x.value.deadline), BadDuration) +
      When(x.value.requireConditional == Some(true) &&
        x.value.onConditionalUnavailable == Some(Allow), ConditionalContradiction)
  }

  function OutcomeViolations(o: Outcomes): seq<Violation> {
    When(o.onInvalid == Some(Allow), InvalidAllowed) +
    When(o.onUnknown == Some(Allow), UnknownAllowed) +
    When(o.onStale == Some(Allow), StaleAllowed)
  }

  function PolicyViolations(p: PolicyConfig): seq<Violation> {
    OptionalFreshnessViolations(p.freshness) +
    RuleViolations(p.rules) +
    OutcomeViolations(p.outcomes) +
    ExecutionViolations(p.execution)
  }

  function AllPolicyViolations(ps: seq<PolicyConfig>): seq<Violation> {
    if ps == [] then [] else AllPolicyViolations(ps[..|ps| - 1]) + PolicyViolations(ps[|ps| - 1])
  }

  function DefaultsViolations(d: DefaultsConfig): seq<Violation> {
    When(OrElse(d.outcomes.onInvalid, d.short.onInvalid) == Some(Allow), InvalidAllowed) +
    OptionalFreshnessViolations(d.freshness) +
    When(BadThresholdValue(d.agingThreshold), BadThreshold) +
    When(BadlyTimed(d.skew), BadDuration) +
    When(BadlyTimed(d.deadline), BadDuration)
  }

  function DefaultOutcomes(d: Option<DefaultsConfig>): Outcomes {
    if d.None? then Outcomes(None, None, None, None, None)
    else
      var o, s := d.value.outcomes, d.value.short;
      Outcomes(
        OrElse(o.onFresh, s.onFresh), OrElse(o.onAging, s.onAging), OrElse(o.onStale, s.onStale),
        OrElse(o.onUnknown, s.onUnknown), OrElse(o.onInvalid, s.onInvalid))
  }

  function ConfigViolations(c: RootConfig): seq<Violation> {
    var o := DefaultOutcomes(c.defaults);
    (if c.defaults.Some? then DefaultsViolations(c.defaults.value) else []) +
    UncertainViolations(o, c.acknowledgeUnknownAllow) +
    AllPolicyViolations(c.actions)
  }

  /** Allowing on unknown or stale state by default takes an acknowledgement. */
  function UncertainViolations(o: Outcomes, acknowledged: bool): seq<Violation> {
    When(o.onUnknown == Some(Allow) && !acknowledged, UnknownAllowed) +
    When(o.onStale == Some(Allow) && !acknowledged, StaleAllowed)
  }

  /** One policy's checks, each pushing onto the shared report. */
  method ValidatePolicyConfig(p: PolicyConfig, report: seq<Violation>) returns (out: seq<Violation>)
    ensures out == report + PolicyViolations(p)
  {
    hide FreshnessViolations, RuleViolations, OutcomeViolations, ExecutionViolations;
    out := report;
    if p.freshness.Some? { out := out + FreshnessViolations(p.freshness.value); }
    ghost var freshness := OptionalFreshnessViolations(p.freshness);
    assert out == report + freshness;
    out := ValidateRules(p.rules, out);
    ghost var rules := freshness + RuleViolations(p.rules);
    assert out == report + rules;
    out := ValidateOutcomes(p.outcomes, out);
    ghost var outcomes := rules + OutcomeViolations(p.outcomes);
    assert out == report + outcomes;
    out := out + ExecutionViolations(p.execution);
  }

  /** Allowing on proven-invalid, unknown or stale state. */
  method ValidateOutcomes(o: Outcomes, report: seq<Violation>) returns (out: seq<Violation>)
    ensures out == report + OutcomeViolations(o)
  {
    out := report;
    if o.onInvalid == Some(Allow) { out := out + [InvalidAllowed]; }
    if o.onUnknown == Some(Allow) { out := out + [UnknownAllowed]; }
    if o.onStale == Some(Allow) { out := out + [StaleAllowed]; }
  }

  method ValidateRules(rules: seq<RuleConfig>, report: seq<Violation>) returns (out: seq<Violation>)
    ensures out == report + RuleViolations(rules)
  {
    hide FreshnessViolations;
    out := report;
    for i := 0 to |rules|
      invariant out == report + RuleViolations(rules[..i])
    {
      assert rules[..i + 1][..i] == rules[..i];
      out := out + FreshnessViolations(rules[i].freshness);
    }
    assert rules[..|rules|] == rules;
  }

  method ValidatePolicies(ps: seq<PolicyConfig>, report: seq<Violation>) returns (out: seq<Violation>)
    ensures out == report + AllPolicyViolations(ps)
  {
    hide PolicyViolations;
    out := report;
    for i := 0 to |ps|
      invariant out == report + AllPolicyViolations(ps[..i])
    {
      assert ps[..i + 1][..i] == ps[..i];
      out := ValidatePolicyConfig(ps[i], out);
    }
    assert ps[..|ps|] == ps;
  }

  method ValidateConfig(c: RootConfig) returns (out: seq<Violation>)
    ensures out == ConfigViolations(c)
  {
    hide DefaultsViolations, AllPolicyViolations, DefaultOutcomes;
    out := [];
    if c.defaults.Some? { out := DefaultsViolations(c.defaults.value); }
    var o := DefaultOutcomes(c.defaults);
    if o.onUnknown == Some(Allow) && !c.acknowledgeUnknownAllow { out := out + [UnknownAllowed]; }
    if o.onStale == Some(Allow) && !c.acknowledgeUnknownAllow { out := out + [StaleAllowed]; }
    out := ValidatePolicies(c.actions, out);
  }

  // ---- What the report tells ----------------------------------------------------------

  predicate IsDuration(d: Option<Duration>) {
    d.Some? ==> ParseDuration(d.value).Some?
  }

  predicate IsThreshold(t: Option<real>) {
    t.Some? ==> t.value > 0.0 && t.value <= 1.0
  }

  /** What is wrong with a freshness section, violation by violation. */
  ghost predicate FreshnessFault(f: FreshnessConfig, v: Violation) {
    var h := if f.hybrid.Some? then f.hybrid.value else HybridConfig(None, None, None, None);
    match v
    case TtlNeedsMaxAge => f.strategy == Ttl && f.maxAge.None?
    case MaxAgeNotAllowed => f.maxAge.Some? && f.strategy != Ttl && f.strategy != Hybrid
    case BadDuration => !IsDuration(f.maxAge) || !IsDuration(f.skew)
    case BadThreshold => !IsThreshold(f.agingThreshold)
    case HybridEnablesNothing => h != HybridConfig(None, None, None, None) &&
      Some(true) !in {h.ttl, h.version, h.hash, h.preconditions}
    case HybridTtlNeedsMaxAge => h.ttl == Some(true) && f.maxAge.None?
    case HybridDefaultNeedsMaxAge => f.strategy == Hybrid && f.hybrid.None? && f.maxAge.None?
    case _ => false
  }

  /** What is wrong with a policy: with its own freshness or a rule's, with outcomes
      that allow what must not be, or with an execution section. */
  ghost predicate PolicyFault(p: PolicyConfig, v: Violation) {
    || (p.freshness.Some? && FreshnessFault(p.freshness.value, v))
    || (exists r :: r in p.rules && FreshnessFault(r.freshness, v))
    || (v == InvalidAllowed && p.outcomes.onInvalid == Some(Allow))
    || (v == UnknownAllowed && p.outcomes.onUnknown == Some(Allow))
    || (v == StaleAllowed && p.outcomes.onStale == Some(Allow))
    || (p.execution.Some? && v == BadDuration && !IsDuration(p.execution.value.deadline))
    || (p.execution.Some? && v == ConditionalContradiction &&
      p.execution.value.requireConditional == Some(true) && p.execution.value.onConditionalUnavailable == Some(Allow))
  }

  /** The on_ key is set to allow, or it is not set and the bare one is. */
  ghost predicate Allows(long: Option<Outcome>, short: Option<Outcome>) {
    match long case Some(o) => o == Allow case None => short == Some(Allow)
  }

  /** What is wrong with the defaults; unknown and stale state may be allowed where
      that is acknowledged. */
  ghost predicate DefaultsFault(d: DefaultsConfig, acknowledged: bool, v: Violation) {
    || (d.freshness.Some? && FreshnessFault(d.freshness.value, v))
    || (v == BadThreshold && !IsThreshold(d.agingThreshold))
    || (v == BadDuration && (!IsDuration(d.skew) || !IsDuration(d.deadline)))
    || (v == InvalidAllowed && Allows(d.outcomes.onInvalid, d.short.onInvalid))
    || (v == UnknownAllowed && !acknowledged && Allows(d.outcomes.onUnknown, d.short.onUnknown))
    || (v == StaleAllowed && !acknowledged && Allows(d.outcomes.onStale, d.short.onStale))
  }

  ghost predicate ConfigFault(c: RootConfig, v: Violation) {
    || (c.defaults.Some? && DefaultsFault(c.defaults.value, c.acknowledgeUnknownAllow, v))
    || exists p :: p in c.actions && PolicyFault(p, v)
  }

  lemma FreshnessReportTells(f: FreshnessConfig, v: Violation)
    ensures v in FreshnessViolations(f) <==> FreshnessFault(f, v)
  {
    LimitReportTells(f, v);
    HybridReportTells(f, v);
    hide LimitViolations, HybridViolations, IsDuration, IsThreshold;
  }

  lemma LimitReportTells(f: FreshnessConfig, v: Violation)
    ensures v in LimitViolations(f) <==>
      FreshnessFault(f, v) && v in {TtlNeedsMaxAge, MaxAgeNotAllowed, BadDuration, BadThreshold}
  {
    hide ParseDuration;
  }

  lemma HybridReportTells(f: FreshnessConfig, v: Violation)
    ensures v in HybridViolations(f) <==>
      FreshnessFault(f, v) && v in {HybridEnablesNothing, HybridTtlNeedsMaxAge, HybridDefaultNeedsMaxAge}
  {
    hide IsDuration, IsThreshold;
  }

  lemma {:induction false} RulesReportTells(rules: seq<RuleConfig>, v: Violation)
    ensures v in RuleViolations(rules) <==> exists r :: r in rules && FreshnessFault(r.freshness, v)
  {
    hide FreshnessViolations, FreshnessFault;
    if rules != [] {
      var last := rules[|rules| - 1];
      RulesReportTells(rules[..|rules| - 1], v);
      FreshnessReportTells(last.freshness, v);
      assert rules == rules[..|rules| - 1] + [last];
    }
  }

  lemma PolicyReportTells(p: PolicyConfig, v: Violation)
    ensures v in PolicyViolations(p) <==> PolicyFault(p, v)
  {
    if p.freshness.Some? { FreshnessReportTells(p.freshness.value, v); }
    RulesReportTells(p.rules, v);
    OutcomesReportTells(p.outcomes, v);
    ExecutionReportTells(p.execution, v);
    hide FreshnessViolations, FreshnessFault, RuleViolations, OutcomeViolations, ExecutionViolations, IsDuration;
  }

  lemma OutcomesReportTells(o: Outcomes, v: Violation)
    ensures v in OutcomeViolations(o) <==>
      || (v == InvalidAllowed && o.onInvalid == Some(Allow))
      || (v == UnknownAllowed && o.onUnknown == Some(Allow))
      || (v == StaleAllowed && o.onStale == Some(Allow))
  {
  }

  lemma ExecutionReportTells(x: Option<ExecutionConfig>, v: Violation)
    ensures v in ExecutionViolations(x) <==>
      || (x.Some? && v == BadDuration && !IsDuration(x.value.deadline))
      || (x.Some? && v == ConditionalContradiction &&
        x.value.requireConditional == Some(true) && x.value.onConditionalUnavailable == Some(Allow))
  {
    hide ParseDuration;
  }

  lemma {:induction false} PoliciesReportTells(ps: seq<PolicyConfig>, v: Violation)
    ensures v in AllPolicyViolations(ps) <==> exists p :: p in ps && PolicyFault(p, v)
  {
    hide PolicyViolations, PolicyFault;
    if ps != [] {
      var last := ps[|ps| - 1];
      PoliciesReportTells(ps[..|ps| - 1], v);
      PolicyReportTells(last, v);
      assert ps == ps[..|ps| - 1] + [last];
    }
  }

  lemma DefaultsReportTells(d: DefaultsConfig, v: Violation)
    ensures v in DefaultsViolations(d) <==>
      || (d.freshness.Some? && FreshnessFault(d.freshness.value, v))
      || (v == BadThreshold && !IsThreshold(d.agingThreshold))
      || (v == BadDuration && (!IsDuration(d.skew) || !IsDuration(d.deadline)))
      || (v == InvalidAllowed && Allows(d.outcomes.onInvalid, d.short.onInvalid))
  {
    if d.freshness.Some? { FreshnessReportTells(d.freshness.value, v); }
    hide FreshnessViolations, FreshnessFault, ParseDuration;
  }

  /** The report names exactly what is wrong with the configuration. */
  lemma ReportTellsExactly(c: RootConfig, v: Violation)
    ensures v in ConfigViolations(c) <==> ConfigFault(c, v)
  {
    PoliciesReportTells(c.actions, v);
    if c.defaults.Some? { DefaultsReportTells(c.defaults.value, v); }
    UncertainReportTells(c.defaults, c.acknowledgeUnknownAllow, v);
    hide FreshnessFault, DefaultsViolations, AllPolicyViolations, PolicyFault, IsDuration, IsThreshold, Allows;
    hide UncertainViolations, DefaultOutcomes;
  }

  lemma UncertainReportTells(d: Option<DefaultsConfig>, acknowledged: bool, v: Violation)
    ensures v in UncertainViolations(DefaultOutcomes(d), acknowledged) <==>
      d.Some? && !acknowledged &&
        ((v == UnknownAllowed && Allows(d.value.outcomes.onUnknown, d.value.short.onUnknown)) ||
        (v == StaleAllowed && Allows(d.value.outcomes.onStale, d.value.short.onStale)))
  {
  }

  /** So it is empty exactly if nothing is wrong. */
  lemma CleanReportExactly(c: RootConfig)
    ensures ConfigViolations(c) == [] <==> forall v :: !ConfigFault(c, v)
  {
    forall v ensures v in ConfigViolations(c) <==> ConfigFault(c, v) { ReportTellsExactly(c, v); }
    hide ConfigFault;
    if ConfigViolations(c) != [] { assert ConfigViolations(c)[0] in ConfigViolations(c); }
    hide ConfigViolations;
  }

  // ---- Resolution; `None` where the source throws ----------------------------------

  function ResolveFreshness(c: FreshnessConfig, fallbackAging: Option<real>, fallbackSkew: Option<Duration>)
    : (f: Option<Freshness>)
    ensures f.Some? && f.value.strategy == Hybrid ==> f.value.hybrid.Any()
  {
    var aging := GetOr(OrElse(c.agingThreshold, fallbackAging), DEFAULT_AGING_THRESHOLD);
    var skew := ParseDuration(GetOr(OrElse(c.skew, fallbackSkew), Millis(0)));
    var maxAge := if c.maxAge.Some? then ParseDuration(c.maxAge.value) else None;
    var explicit := if c.hybrid.Some? then c.hybrid.value.Enabled() else Components(false, false, false, false);
    var components :=
      if c.strategy != Hybrid then Components(false, false, false, false)
      else if explicit.Any() then explicit
      else Components(true, true, false, true);
    if skew.None? || BadlyTimed(c.maxAge) then None
    else if c.strategy == Ttl && (maxAge.None? || maxAge.value <= 0) then None
    else if c.strategy == Hybrid && explicit.Any() && explicit.ttl && maxAge.None? then None
    else if !(0.0 < aging <= 1.0) then None
    else Some(FreshnessRule(c.strategy, maxAge, aging, skew.value, components))
  }

  function ResolveExecution(x: ExecutionConfig): Option<ExecutionPolicy> {
    var deadline := if x.deadline.Some? then ParseDuration(x.deadline.value) else None;
    if BadlyTimed(x.deadline) || (deadline.Some? && deadline.value > MAX_EXECUTION_DEADLINE_MS) then None
    else
      Some(ExecutionPolicy(
        deadline, GetOr(x.requireFresh, true), GetOr(x.allowIdempotentRetry, false),
        GetOr(x.requireConditional, false), GetOr(x.onConditionalUnavailable, Deny)))
  }

  const NO_EXECUTION := ExecutionConfig(None, None, None, None, None)
  const DEFAULT_FRESHNESS := FreshnessConfig(Ttl, Some(DEFAULT_MAX_AGE), None, None, None)

  function ResolveRules(rules: seq<RuleConfig>): Option<seq<DependencyRule>> {
    if rules == [] then Some([])
    else
      var head, tail := ResolveFreshness(rules[0].freshness, None, None), ResolveRules(rules[1..]);
      if head.None? || tail.None? then None
      else Some([DependencyRule(rules[0].source, rules[0].resource, rules[0].resourceId, head.value)] + tail.value)
  }

  function ResolvePolicyConfig(p: PolicyConfig): Option<Policy> {
    var freshness := ResolveFreshness(GetOr(p.freshness, DEFAULT_FRESHNESS), None, None);
    var rules := ResolveRules(p.rules);
    var execution := ResolveExecution(GetOr(p.execution, NO_EXECUTION));
    if freshness.None? || rules.None? || execution.None? then None
    else Some(Policy(p.name, p.matcher, p.risk, freshness.value, p.preconditions, rules.value, p.outcomes,
      execution.value))
  }

  function ResolvePolicies(ps: seq<PolicyConfig>): Option<seq<Policy>> {
    if ps == [] then Some([])
    else
      var head, tail := ResolvePolicyConfig(ps[0]), ResolvePolicies(ps[1..]);
      if head.None? || tail.None? then None else Some([head.value] + tail.value)
  }

  function ResolveDefaults(d: Option<DefaultsConfig>): Option<GlobalDefaults> {
    var freshness :=
      if d.Some? && d.value.freshness.Some? then
        ResolveFreshness(d.value.freshness.value, d.value.agingThreshold, d.value.skew)
      else ResolveFreshness(DEFAULT_FRESHNESS, None, None);
    var execution := ResolveExecution(NO_EXECUTION.(deadline := if d.Some? then d.value.deadline else None));
    var o := DefaultOutcomes(d);
    if freshness.None? || execution.None? then None
    else Some(GlobalDefaults(o.(onFresh := Some(GetOr(o.onFresh, Allow))), freshness.value, execution.value))
  }

  datatype Core = Core(policies: seq<Policy>, defaults: GlobalDefaults, mode: Mode)

  function BuildPolicyCore(c: RootConfig): Option<Core> {
    var ps, d := ResolvePolicies(c.actions), ResolveDefaults(c.defaults);
    if ps.None? || d.None? then None else Some(Core(ps.value, d.value, c.mode))
  }

  // ---- What the resolved configuration says -----------------------------------------------

  /** Three quarters of the age limit is fresh and no skew is tolerated unless the
      rule, or for the defaults the section around it, says otherwise; a hybrid rule
      that enables nothing looks at age, version and preconditions. */
  ghost predicate FreshnessFrom(
    c: FreshnessConfig, aging: Option<real>, skew: Option<Duration>, f: Freshness)
  {
    && f.strategy == c.strategy
    && (c.maxAge.None? ==> f.maxAgeMs == None)
    && (c.maxAge.Some? ==> f.maxAgeMs.Some? && f.maxAgeMs == ParseDuration(c.maxAge.value))
    && (match (c.agingThreshold, aging)
        case (Some(t), _) => f.agingThreshold == t
        case (None, Some(t)) => f.agingThreshold == t
        case (None, None) => f.agingThreshold == 0.75)
    && (match (c.skew, skew)
        case (Some(d), _) => Some(f.skewMs) == ParseDuration(d)
        case (None, Some(d)) => Some(f.skewMs) == ParseDuration(d)
        case (None, None) => f.skewMs == 0)
    && (c.strategy != Hybrid ==> f.hybrid == Components(false, false, false, false))
    && (c.strategy == Hybrid ==>
      var h := if c.hybrid.Some? then c.hybrid.value else HybridConfig(None, None, None, None);
      if Some(true) in {h.ttl, h.version, h.hash, h.preconditions} then
        f.hybrid ==
          Components(h.ttl == Some(true), h.version == Some(true), h.hash == Some(true), h.preconditions == Some(true))
      else f.hybrid == Components(true, true, false, true))
  }

  lemma FreshnessResolves(c: FreshnessConfig, aging: Option<real>, skew: Option<Duration>)
    ensures ResolveFreshness(c, aging, skew).Some? ==>
      FreshnessFrom(c, aging, skew, ResolveFreshness(c, aging, skew).value)
  {
    assert ParseDuration(Millis(0)) == Some(0);
    hide ParseDuration;
  }

  /** Where a policy sets no freshness of its own: a time-to-live of thirty seconds. */
  ghost predicate DefaultFreshness(f: Freshness) {
    && f.strategy == Ttl && f.maxAgeMs == Some(30 * 1_000) && f.agingThreshold == 0.75 && f.skewMs == 0
    && f.hybrid == Components(false, false, false, false)
  }

  /** State is re-checked, a spent id is not retried, no condition is required and a
      required one that cannot be had denies, unless set otherwise. */
  ghost predicate ExecutionFrom(c: ExecutionConfig, x: ExecutionPolicy) {
    && (c.deadline.None? ==> x.deadlineMs == None)
    && (c.deadline.Some? ==> x.deadlineMs.Some? && x.deadlineMs == ParseDuration(c.deadline.value))
    && (x.requireFresh <==> c.requireFresh != Some(false))
    && (x.allowIdempotentRetry <==> c.allowIdempotentRetry == Some(true))
    && (x.requireConditional <==> c.requireConditional == Some(true))
    && x.onConditionalUnavailable ==
      if c.onConditionalUnavailable.Some? then c.onConditionalUnavailable.value else Deny
  }

  lemma ExecutionResolves(c: ExecutionConfig)
    ensures ResolveExecution(c).Some? ==> ExecutionFrom(c, ResolveExecution(c).value)
  {
    hide ParseDuration;
  }

  ghost predicate RuleFrom(c: RuleConfig, r: DependencyRule) {
    && r.source == c.source && r.resource == c.resource && r.resourceId == c.resourceId
    && FreshnessFrom(c.freshness, None, None, r.freshness)
  }

  ghost predicate PolicyFrom(c: PolicyConfig, p: Policy) {
    && p.name == c.name && p.matcher == c.matcher && p.declaredRisk == c.risk
    && p.preconditions == c.preconditions && p.outcomes == c.outcomes
    && (if c.freshness.Some? then FreshnessFrom(c.freshness.value, None, None, p.freshness)
        else DefaultFreshness(p.freshness))
    && |p.dependencyRules| == |c.rules|
    && (forall i :: 0 <= i < |c.rules| ==> RuleFrom(c.rules[i], p.dependencyRules[i]))
    && ExecutionFrom(if c.execution.Some? then c.execution.value else ExecutionConfig(None, None, None, None, None),
      p.execution)
  }

  /** The on_ key counts, else the bare one; what is set by neither is left to the
      decision, but for fresh state, which is allowed. */
  ghost predicate OutcomesFrom(long: Outcomes, short: Outcomes, o: Outcomes) {
    && o.onFresh == (match (long.onFresh, short.onFresh)
        case (Some(x), _) => Some(x) case (None, Some(x)) => Some(x) case (None, None) => Some(Allow))
    && o.onAging == (if long.onAging.Some? then long.onAging else short.onAging)
    && o.onStale == (if long.onStale.Some? then long.onStale else short.onStale)
    && o.onUnknown == (if long.onUnknown.Some? then long.onUnknown else short.onUnknown)
    && o.onInvalid == (if long.onInvalid.Some? then long.onInvalid else short.onInvalid)
  }

  ghost predicate DefaultsFrom(c: Option<DefaultsConfig>, d: GlobalDefaults) {
    var unset := Outcomes(None, None, None, None, None);
    var s := if c.Some? then c.value else DefaultsConfig(unset, unset, None, None, None, None);
    && OutcomesFrom(s.outcomes, s.short, d.outcomes)
    && (if s.freshness.Some? then FreshnessFrom(s.freshness.value, s.agingThreshold, s.skew, d.freshness)
        else DefaultFreshness(d.freshness))
    && ExecutionFrom(ExecutionConfig(s.deadline, None, None, None, None), d.execution)
  }

  lemma {:induction false} RulesResolve(rules: seq<RuleConfig>)
    ensures ResolveRules(rules).Some? ==>
      var rs := ResolveRules(rules).value;
      |rs| == |rules| && forall i :: 0 <= i < |rules| ==> RuleFrom(rules[i], rs[i])
  {
    hide ResolveFreshness, FreshnessFrom;
    if rules != [] && ResolveRules(rules).Some? {
      FreshnessResolves(rules[0].freshness, None, None);
      RulesResolve(rules[1..]);
      assert forall i :: 0 < i < |rules| ==> rules[i] == rules[1..][i - 1];
    }
  }

  lemma PolicyResolves(c: PolicyConfig)
    ensures ResolvePolicyConfig(c).Some? ==> PolicyFrom(c, ResolvePolicyConfig(c).value)
  {
    FreshnessResolves(GetOr(c.freshness, DEFAULT_FRESHNESS), None, None);
    RulesResolve(c.rules);
    ExecutionResolves(GetOr(c.execution, NO_EXECUTION));
    hide ResolveFreshness, ResolveRules, ResolveExecution, RuleFrom;
  }

  lemma {:induction false} PoliciesResolve(cs: seq<PolicyConfig>)
    ensures ResolvePolicies(cs).Some? ==>
      var ps := ResolvePolicies(cs).value;
      |ps| == |cs| && forall i :: 0 <= i < |cs| ==> PolicyFrom(cs[i], ps[i])
  {
    hide ResolvePolicyConfig, PolicyFrom;
    if cs != [] && ResolvePolicies(cs).Some? {
      PolicyResolves(cs[0]);
      PoliciesResolve(cs[1..]);
      assert forall i :: 0 < i < |cs| ==> cs[i] == cs[1..][i - 1];
    }
  }

  /** What is loaded says, policy by policy in the order declared, what the file
      says and what it leaves unsaid. */
  lemma LoadedSaysExactly(c: RootConfig)
    ensures BuildPolicyCore(c).Some? ==>
      var core := BuildPolicyCore(c).value;
      && core.mode == c.mode && DefaultsFrom(c.defaults, core.defaults)
      && |core.policies| == |c.actions|
      && forall i :: 0 <= i < |c.actions| ==> PolicyFrom(c.actions[i], core.policies[i])
  {
    PoliciesResolve(c.actions);
    DefaultsResolve(c.defaults);
    hide ResolvePolicies, ResolveDefaults, PolicyFrom, DefaultsFrom;
  }

  lemma DefaultsResolve(c: Option<DefaultsConfig>)
    ensures ResolveDefaults(c).Some? ==> DefaultsFrom(c, ResolveDefaults(c).value)
  {
    FreshnessResolves(DEFAULT_FRESHNESS, None, None);
    if c.Some? && c.value.freshness.Some? {
      FreshnessResolves(c.value.freshness.value, c.value.agingThreshold, c.value.skew);
    }
    ExecutionResolves(NO_EXECUTION.(deadline := if c.Some? then c.value.deadline else None));
    hide ResolveFreshness, ResolveExecution;
  }

  // ---- A clean report rules out dangerous outcomes ----------------------------------

  lemma {:induction false} ResolvedFrom(ps: seq<PolicyConfig>, p: Policy)
    requires ResolvePolicies(ps).Some? && p in ResolvePolicies(ps).value
    ensures exists c :: c in ps && ResolvePolicyConfig(c) == Some(p)
  {
    hide ResolvePolicyConfig;
    if ps != [] {
      if p != ResolvePolicyConfig(ps[0]).value {
        ResolvedFrom(ps[1..], p);
      }
      assert ps == [ps[0]] + ps[1..];
    }
  }

  lemma {:induction false} NoPolicyViolations(ps: seq<PolicyConfig>, c: PolicyConfig)
    requires AllPolicyViolations(ps) == [] && c in ps
    ensures PolicyViolations(c) == []
  {
    var last := ps[|ps| - 1];
    assert ps == ps[..|ps| - 1] + [last];
    if c != last { NoPolicyViolations(ps[..|ps| - 1], c); }
  }

  /** The policies an intent can be given: a declared one or the synthetic one. */
  predicate Reachable(core: Core, p: Policy) {
    p in core.policies || p == Policies.SyntheticDefault(core.defaults)
  }

  /** With a clean report and no acknowledgement, no policy an intent can be
      given allows unknown or stale state. */
  lemma CleanConfigIsGuarded(c: RootConfig, core: Core, p: Policy)
    requires ConfigViolations(c) == [] && !c.acknowledgeUnknownAllow
    requires BuildPolicyCore(c) == Some(core) && Reachable(core, p)
    ensures DecisionEngine.Guarded(p.outcomes, core.defaults.outcomes)
  {
    hide FreshnessViolations, RuleViolations, ExecutionViolations, ResolveFreshness, ResolveRules, ResolveExecution;
    var o := DefaultOutcomes(c.defaults);
    assert o.onUnknown != Some(Allow) && o.onStale != Some(Allow);
    assert core.defaults.outcomes == o.(onFresh := Some(GetOr(o.onFresh, Allow)));
    if p in core.policies {
      ResolvedFrom(c.actions, p);
      var pc :| pc in c.actions && ResolvePolicyConfig(pc) == Some(p);
      NoPolicyViolations(c.actions, pc);
      assert p.outcomes == pc.outcomes;
      assert pc.outcomes.onUnknown != Some(Allow) && pc.outcomes.onStale != Some(Allow);
    }
  }

  // ---- A clean report and the loader -------------------------------------------------

  /** What validation lets through and resolution refuses: a zero time-to-live. */
  predicate ZeroTtl(f: FreshnessConfig) {
    f.strategy == Ttl && f.maxAge.Some? && ParseDuration(f.maxAge.value) == Some(0)
  }

  predicate DeadlineTooLong(d: Option<Duration>) {
    d.Some? && ParseDuration(d.value).Some? && ParseDuration(d.value).value > 2_147_000_000
  }

  predicate PolicyLoads(p: PolicyConfig) {
    && (p.freshness.Some? ==> !ZeroTtl(p.freshness.value))
    && (forall i | 0 <= i < |p.rules| :: !ZeroTtl(p.rules[i].freshness))
    && (p.execution.Some? ==> !DeadlineTooLong(p.execution.value.deadline))
  }

  /** Decidable from the file alone: no zero time-to-live, no deadline beyond
      the platform timer. */
  predicate Loads(c: RootConfig) {
    && (forall i | 0 <= i < |c.actions| :: PolicyLoads(c.actions[i]))
    && (c.defaults.Some? ==>
      && (c.defaults.value.freshness.Some? ==> !ZeroTtl(c.defaults.value.freshness.value))
      && !DeadlineTooLong(c.defaults.value.deadline))
  }

  lemma FreshnessLoads(f: FreshnessConfig, aging: Option<real>, skew: Option<Duration>)
    requires FreshnessViolations(f) == [] && !BadThresholdValue(aging) && !BadlyTimed(skew)
    ensures ResolveFreshness(f, aging, skew).Some? <==> !ZeroTtl(f)
  {
  }

  lemma ExecutionLoads(x: ExecutionConfig)
    requires !BadlyTimed(x.deadline)
    ensures ResolveExecution(x).Some? <==> !DeadlineTooLong(x.deadline)
  {
  }

  lemma {:induction false} RulesLoad(rules: seq<RuleConfig>)
    requires forall i :: 0 <= i < |rules| ==> FreshnessViolations(rules[i].freshness) == []
    ensures ResolveRules(rules).Some? <==> forall i :: 0 <= i < |rules| ==> !ZeroTtl(rules[i].freshness)
  {
    if rules != [] {
      hide FreshnessViolations, ResolveFreshness, ZeroTtl;
      FreshnessLoads(rules[0].freshness, None, None);
      assert forall i :: 0 <= i < |rules| - 1 ==> rules[1..][i] == rules[i + 1];
      RulesLoad(rules[1..]);
    }
  }

  lemma {:induction false} NoRuleViolations(rules: seq<RuleConfig>)
    requires RuleViolations(rules) == []
    ensures forall i :: 0 <= i < |rules| ==> FreshnessViolations(rules[i].freshness) == []
  {
    hide FreshnessViolations;
    if rules != [] {
      NoRuleViolations(rules[..|rules| - 1]);
      forall i | 0 <= i < |rules| ensures FreshnessViolations(rules[i].freshness) == [] {
        if i < |rules| - 1 { assert rules[..|rules| - 1][i] == rules[i]; }
      }
    }
  }

  lemma PolicyConfigLoads(p: PolicyConfig)
    requires PolicyViolations(p) == []
    ensures ResolvePolicyConfig(p).Some? <==> PolicyLoads(p)
  {
    FreshnessLoads(GetOr(p.freshness, DEFAULT_FRESHNESS), None, None);
    ExecutionLoads(GetOr(p.execution, NO_EXECUTION));
    hide FreshnessViolations, ResolveFreshness, ResolveExecution;
    NoRuleViolations(p.rules);
    RulesLoad(p.rules);
  }

  lemma {:induction false} PoliciesLoad(ps: seq<PolicyConfig>)
    requires forall i :: 0 <= i < |ps| ==> PolicyViolations(ps[i]) == []
    ensures ResolvePolicies(ps).Some? <==> forall i :: 0 <= i < |ps| ==> PolicyLoads(ps[i])
  {
    hide PolicyViolations, ResolvePolicyConfig, PolicyLoads;
    if ps != [] {
      PolicyConfigLoads(ps[0]);
      assert forall i :: 0 <= i < |ps| - 1 ==> ps[1..][i] == ps[i + 1];
      PoliciesLoad(ps[1..]);
    }
  }

  /** A configuration with a clean report resolves exactly when it has no zero
      time-to-live and no deadline beyond the timer's range. */
  lemma CleanConfigLoadsExactly(c: RootConfig)
    requires ConfigViolations(c) == []
    ensures BuildPolicyCore(c).Some? <==> Loads(c)
  {
    hide PolicyViolations, PolicyLoads, DefaultsViolations, ResolvePolicies, ResolveDefaults, ZeroTtl, DeadlineTooLong;
    forall i | 0 <= i < |c.actions| ensures PolicyViolations(c.actions[i]) == [] {
      NoPolicyViolations(c.actions, c.actions[i]);
    }
    PoliciesLoad(c.actions);
    DefaultsLoad(c.defaults);
  }

  lemma DefaultsLoad(d: Option<DefaultsConfig>)
    requires d.Some? ==> DefaultsViolations(d.value) == []
    ensures ResolveDefaults(d).Some? <==> (d.Some? ==>
      (d.value.freshness.Some? ==> !ZeroTtl(d.value.freshness.value)) && !DeadlineTooLong(d.value.deadline))
  {
    FreshnessLoads(DEFAULT_FRESHNESS, None, None);
    assert !ZeroTtl(DEFAULT_FRESHNESS);
    var deadline := if d.Some? then d.value.deadline else None;
    ExecutionLoads(NO_EXECUTION.(deadline := deadline));
    if d.Some? && d.value.freshness.Some? {
      FreshnessLoads(d.value.freshness.value, d.value.agingThreshold, d.value.skew);
    }
    hide FreshnessViolations, ResolveFreshness, ResolveExecution, ZeroTtl, DeadlineTooLong;
  }

  /** So a clean report is not enough: this one is refused by the loader. */
  lemma CleanConfigMayNotLoad()
    ensures exists c :: ConfigViolations(c) == [] && BuildPolicyCore(c).None?
  {
    var zero := FreshnessConfig(Ttl, Some(Millis(0)), None, None, None);
    var none := Outcomes(None, None, None, None, None);
    var c := RootConfig(Enforce, false, Some(DefaultsConfig(none, none, Some(zero), None, None, None)), []);
    assert FreshnessViolations(zero) == [];
    assert ConfigViolations(c) == [] && ZeroTtl(zero);
    CleanConfigLoadsExactly(c);
  }
}

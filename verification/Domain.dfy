/** The vocabulary of the firewall (src/domain, resolved-policy.ts). Times are
    integer milliseconds; a timestamp that is absent or does not parse is
    `None`. Texts that only explain a decision are not carried. */
module Domain {
  import opened Wrappers
  import opened Text
  import opened Json
  import Hashing

  // ---- State -------------------------------------------------------------

  datatype Ref = Ref(source: Text, resource: Text, id: Text)

  const SLASH: Unit := 47

  /** "<source>:<resource>/<resource_id>" */
  function RefKey(r: Ref): Text {
    r.source + [COLON] + r.resource + [SLASH] + r.id
  }

  lemma RefPrints(r: Ref)
    ensures RefKey(r) == r.source + Units(":") + r.resource + Units("/") + r.id
  {
    assert Units(":") == [COLON] && Units("/") == [SLASH];
  }

  /** What the agent declares it observed. */
  datatype Dependency = Dependency(
    ref: Ref, version: Option<Text>, contentHash: Option<Text>, observedAt: Option<int>)

  /** What a provider reports. `serverStamped`: observedAt is the provider's own
      clock; `affirmed`: a conditional request proved the declared version. */
  datatype Snapshot = Snapshot(
    ref: Ref, observedAt: Option<int>, version: Option<Text>, contentHash: Option<Text>,
    metadata: map<Text, Value>, retrievedAt: int, serverStamped: bool, affirmed: bool)

  /** One attempt to fetch a dependency; every failure is `Lost`. */
  datatype Fetch = Fetched(snapshot: Snapshot) | Lost

  // ---- Preconditions -------------------------------------------------------

  datatype Operator =
    | Equals | NotEquals | Contains | NotContains | Exists | NotExists
    | GreaterThan | LessThan | In | NotIn | Matches

  datatype Precondition = Precondition(field: Text, operator: Operator, value: Value, dependency: Option<Text>)

  datatype PreconditionResult = PreconditionResult(precondition: Precondition, passed: bool)

  /** The parts of the runtime the model does not open: the regular-expression
      engine, the order of numbers, and the hash. */
  datatype Engine = Engine(
    regexMatches: (Text, Text) -> bool, numberLess: (Value, Value) -> bool, hash: Hashing.Hash)

  // ---- Policy --------------------------------------------------------------

  datatype Risk = Low | Medium | High | Critical

  function RiskRank(r: Risk): nat {
    match r case Low => 0 case Medium => 1 case High => 2 case Critical => 3
  }

  function MaxRisk(a: Risk, b: Risk): Risk {
    if RiskRank(a) >= RiskRank(b) then a else b
  }

  datatype Outcome = Allow | Deny | Revalidate | Escalate

  datatype Outcomes = Outcomes(
    onFresh: Option<Outcome>, onAging: Option<Outcome>, onStale: Option<Outcome>,
    onUnknown: Option<Outcome>, onInvalid: Option<Outcome>)

  datatype Strategy = Ttl | Version | HashEqual | PreconditionsOnly | Hybrid

  datatype Components = Components(ttl: bool, version: bool, hash: bool, preconditions: bool) {
    predicate Any() { ttl || version || hash || preconditions }
  }

  datatype FreshnessRule = FreshnessRule(
    strategy: Strategy, maxAgeMs: Option<int>, agingThreshold: real, skewMs: int, hybrid: Components)
  {
    predicate Usable() {
      && (strategy == Hybrid ==> hybrid.Any())
      && (strategy == Ttl ==> maxAgeMs.Some? && maxAgeMs.value > 0)
      && (maxAgeMs.Some? ==> maxAgeMs.value >= 0)
      && 0.0 < agingThreshold <= 1.0
      && skewMs >= 0
    }
  }

  /** What `resolveFreshness` lets through. */
  type Freshness = f: FreshnessRule | f.Usable()
    witness FreshnessRule(Version, None, 0.75, 0, Components(false, false, false, false))

  datatype ExecutionPolicy = ExecutionPolicy(
    deadlineMs: Option<int>, requireFresh: bool, allowIdempotentRetry: bool,
    requireConditional: bool, onConditionalUnavailable: Outcome)

  datatype Matcher = Matcher(
    tool: Option<Text>, operation: Option<Text>, target: Option<Text>, risk: Option<Risk>)

  datatype DependencyRule = DependencyRule(
    source: Option<Text>, resource: Option<Text>, resourceId: Option<Text>, freshness: Freshness)

  datatype Policy = Policy(
    name: Text, matcher: Matcher, declaredRisk: Option<Risk>, freshness: Freshness,
    preconditions: seq<Precondition>, dependencyRules: seq<DependencyRule>,
    outcomes: Outcomes, execution: ExecutionPolicy)

  datatype GlobalDefaults = GlobalDefaults(
    outcomes: Outcomes, freshness: Freshness, execution: ExecutionPolicy)

  datatype RiskRule = RiskRule(pattern: Text, risk: Risk)
  datatype RiskDefaults = RiskDefaults(rules: seq<RiskRule>, fallback: Risk)

  datatype Mode = Observe | Enforce | Strict

  // ---- Actions and verdicts -------------------------------------------------

  datatype Intent = Intent(
    tool: Text, operation: Text, target: Option<Text>, arguments: Value,
    dependencies: seq<Dependency>, preconditions: seq<Precondition>,
    risk: Option<Risk>, policyName: Option<Text>)

  /** In order of severity, least severe first. */
  datatype Staleness = Fresh | Aging | Stale | Unknown | Invalid

  datatype Verdict = Verdict(
    ref: Ref, staleness: Staleness, verifiedFresh: bool,
    observedVersion: Option<Text>, currentVersion: Option<Text>,
    observedHash: Option<Text>, currentHash: Option<Text>,
    preconditions: seq<PreconditionResult>)
}

/** The freshness engine (freshness.ts, staleness.ts). Where the comment on
    `classifyByAge` and its code differ on an age equal to the limit, this
    follows the code: the boundary is stale. */
module FreshnessEngine {
  import opened Wrappers
  import opened Text
  import opened Domain
  import Preconditions

  const DEFAULT_MAX_AGE_MS := 30_000

  function Severity(c: Staleness): nat {
    match c case Fresh => 0 case Aging => 1 case Stale => 2 case Unknown => 3 case Invalid => 4
  }

  // ---- Age -----------------------------------------------------------------

  predicate FromTheFuture(observedAt: Option<int>, now: int, skewMs: int) {
    observedAt.Some? && observedAt.value > now + skewMs
  }

  /** The age of an observation that is not from the future. */
  function AgeOf(observedAt: Option<int>, now: int): Option<int> {
    if observedAt.None? then None else Some(if now > observedAt.value then now - observedAt.value else 0)
  }

  function ClassifyByAge(ageMs: int, maxAgeMs: int, agingThreshold: real): Staleness {
    if ageMs >= maxAgeMs then Stale
    else if ageMs as real > agingThreshold * maxAgeMs as real then Aging
    else Fresh
  }

  function TtlClass(age: Option<int>, f: Freshness): Staleness {
    if age.None? then Unknown
    else
      var maxAge := GetOr(f.maxAgeMs, DEFAULT_MAX_AGE_MS);
      var effective := if age.value > f.skewMs then age.value - f.skewMs else 0;
      ClassifyByAge(effective, maxAge, f.agingThreshold)
  }

  // ---- The other strategies ---------------------------------------------------

  function VersionClass(d: Dependency, s: Snapshot): Staleness {
    if s.affirmed && d.version.Some? then Fresh
    else if d.version.None? || s.version.None? then Unknown
    else Fresh
  }

  function HashClass(d: Dependency, s: Snapshot): Staleness {
    if d.contentHash.None? || s.contentHash.None? then Unknown else Fresh
  }

  function PreconditionsClass(rs: seq<PreconditionResult>): Staleness {
    if Preconditions.AllPassed(rs) then Fresh else Invalid
  }

  /** The enabled components of a hybrid rule, in evaluation order. */
  function ComponentClasses(d: Dependency, s: Snapshot, age: Option<int>, f: Freshness, rs: seq<PreconditionResult>)
    : seq<Staleness>
  {
    (if f.hybrid.ttl then [TtlClass(age, f)] else []) +
    (if f.hybrid.version then [VersionClass(d, s)] else []) +
    (if f.hybrid.hash then [HashClass(d, s)] else []) +
    (if f.hybrid.preconditions then [PreconditionsClass(rs)] else [])
  }

  function Worst(cs: seq<Staleness>): (w: Staleness)
    requires cs != []
    ensures w in cs && forall c :: c in cs ==> Severity(c) <= Severity(w)
  {
    if |cs| == 1 then cs[0]
    else
      var w := Worst(cs[..|cs| - 1]);
      var last := cs[|cs| - 1];
      assert cs == cs[..|cs| - 1] + [last];
      if Severity(last) > Severity(w) then last else w
  }

  /** The hybrid strategy as written: collect, then fold to the worst. A usable
      rule enables a component, so the list folded is never empty. */
  method EvaluateHybrid(d: Dependency, s: Snapshot, age: Option<int>, f: Freshness, rs: seq<PreconditionResult>)
    returns (worst: Staleness)
    requires f.strategy == Hybrid
    ensures ComponentClasses(d, s, age, f, rs) != []
    ensures worst == Worst(ComponentClasses(d, s, age, f, rs))
  {
    var results: seq<Staleness> := [];
    if f.hybrid.ttl { results := results + [TtlClass(age, f)]; }
    if f.hybrid.version { results := results + [VersionClass(d, s)]; }
    if f.hybrid.hash { results := results + [HashClass(d, s)]; }
    if f.hybrid.preconditions { results := results + [PreconditionsClass(rs)]; }
    assert results == ComponentClasses(d, s, age, f, rs);
    worst := FoldWorst(results);
  }

  method FoldWorst(results: seq<Staleness>) returns (worst: Staleness)
    requires results != []
    ensures worst == Worst(results)
  {
    worst := results[0];
    for i := 1 to |results|
      invariant worst == Worst(results[..i])
    {
      assert results[..i + 1][..i] == results[..i];
      if Severity(results[i]) > Severity(worst) {
        worst := results[i];
      }
    }
    assert results[..|results|] == results;
  }

  // ---- Classification ----------------------------------------------------------

  predicate Differs(declared: Option<Text>, current: Option<Text>) {
    declared.Some? && current.Some? && declared.value != current.value
  }

  /** The provider's own clock places the state after the claimed observation. */
  predicate ServerDrift(d: Dependency, s: Snapshot, skewMs: int) {
    d.observedAt.Some? && s.serverStamped && s.observedAt.Some? && s.observedAt.value > d.observedAt.value + skewMs
  }

  function StrategyClass(d: Dependency, s: Snapshot, f: Freshness, rs: seq<PreconditionResult>, now: int): Staleness {
    var age := AgeOf(d.observedAt, now);
    match f.strategy
    case Ttl => TtlClass(age, f)
    case Version => VersionClass(d, s)
    case HashEqual => HashClass(d, s)
    case PreconditionsOnly => PreconditionsClass(rs)
    case Hybrid => Worst(ComponentClasses(d, s, age, f, rs))
  }

  /** The verdict class for a fetched dependency. */
  function Classify(d: Dependency, s: Snapshot, f: Freshness, rs: seq<PreconditionResult>, now: int): Staleness {
    if FromTheFuture(d.observedAt, now, f.skewMs) then Unknown
    else if Differs(d.version, s.version) || Differs(d.contentHash, s.contentHash) then Invalid
    else if ServerDrift(d, s, f.skewMs) then Invalid
    else StrategyClass(d, s, f, rs, now)
  }

  // ---- What the class means ----------------------------------------------------------

  /** Nothing places the observation ahead of the clock or proves that the state
      changed after it. */
  ghost predicate Undrifted(d: Dependency, s: Snapshot, f: Freshness, now: int) {
    && (d.observedAt.Some? ==> d.observedAt.value - now <= f.skewMs)
    && (d.version.Some? && s.version.Some? ==> d.version == s.version)
    && (d.contentHash.Some? && s.contentHash.Some? ==> d.contentHash == s.contentHash)
    && (d.observedAt.Some? && s.observedAt.Some? && s.serverStamped ==>
      s.observedAt.value - d.observedAt.value <= f.skewMs)
  }

  /** Before any strategy is asked: an observation from the future is unknown, and
      otherwise proven change is invalid. */
  lemma DriftComesFirst(d: Dependency, s: Snapshot, f: Freshness, rs: seq<PreconditionResult>, now: int)
    ensures d.observedAt.Some? && d.observedAt.value - now > f.skewMs ==> Classify(d, s, f, rs, now) == Unknown
    ensures (d.observedAt.Some? ==> d.observedAt.value - now <= f.skewMs) && !Undrifted(d, s, f, now) ==>
      Classify(d, s, f, rs, now) == Invalid
  {
  }

  /** A time-to-live weighs the age, less the skew, against its limit (thirty
      seconds unless one is set) and the aging part of it; a limit of zero leaves
      nothing fresh. */
  ghost predicate TtlSays(d: Dependency, f: Freshness, now: int, c: Staleness) {
    var limit := if f.maxAgeMs.Some? then f.maxAgeMs.value else 30_000;
    match c
    case Fresh => d.observedAt.Some? && limit > 0 && now - d.observedAt.value - f.skewMs < limit &&
      (now - d.observedAt.value - f.skewMs) as real <= f.agingThreshold * limit as real
    case Aging => d.observedAt.Some? && limit > 0 && now - d.observedAt.value - f.skewMs < limit &&
      (now - d.observedAt.value - f.skewMs) as real > f.agingThreshold * limit as real
    case Stale => d.observedAt.Some? && (limit == 0 || now - d.observedAt.value - f.skewMs >= limit)
    case Unknown => d.observedAt.None?
    case Invalid => false
  }

  ghost predicate VersionSays(d: Dependency, s: Snapshot, c: Staleness) {
    match c
    case Fresh => d.version.Some? && (s.affirmed || s.version.Some?)
    case Unknown => d.version.None? || (!s.affirmed && s.version.None?)
    case _ => false
  }

  ghost predicate HashSays(d: Dependency, s: Snapshot, c: Staleness) {
    match c
    case Fresh => d.contentHash.Some? && s.contentHash.Some?
    case Unknown => d.contentHash.None? || s.contentHash.None?
    case _ => false
  }

  ghost predicate PreconditionsSay(rs: seq<PreconditionResult>, c: Staleness) {
    match c
    case Fresh => forall r :: r in rs ==> r.passed
    case Invalid => exists r :: r in rs && !r.passed
    case _ => false
  }

  /** Some enabled component of a hybrid rule says `c`. */
  ghost predicate ComponentSays(
    d: Dependency, s: Snapshot, f: Freshness, rs: seq<PreconditionResult>, now: int, c: Staleness)
  {
    || (f.hybrid.ttl && TtlSays(d, f, now, c))
    || (f.hybrid.version && VersionSays(d, s, c))
    || (f.hybrid.hash && HashSays(d, s, c))
    || (f.hybrid.preconditions && PreconditionsSay(rs, c))
  }

  /** From the best class to the worst. */
  const BY_SEVERITY := [Fresh, Aging, Stale, Unknown, Invalid]

  /** What each strategy says of an undrifted dependency: exactly one class, the
      hybrid one the worst that an enabled component says. */
  ghost predicate StrategySays(
    d: Dependency, s: Snapshot, f: Freshness, rs: seq<PreconditionResult>, now: int, c: Staleness)
  {
    match f.strategy
    case Ttl => TtlSays(d, f, now, c)
    case Version => VersionSays(d, s, c)
    case HashEqual => HashSays(d, s, c)
    case PreconditionsOnly => PreconditionsSay(rs, c)
    case Hybrid =>
      exists k :: 0 <= k < 5 && BY_SEVERITY[k] == c && ComponentSays(d, s, f, rs, now, c) &&
        forall j :: k < j < 5 ==> !ComponentSays(d, s, f, rs, now, BY_SEVERITY[j])
  }

  lemma TtlClassSays(d: Dependency, f: Freshness, now: int, c: Staleness)
    requires !FromTheFuture(d.observedAt, now, f.skewMs)
    ensures TtlClass(AgeOf(d.observedAt, now), f) == c <==> TtlSays(d, f, now, c)
  {
    var limit := GetOr(f.maxAgeMs, DEFAULT_MAX_AGE_MS);
    var part := f.agingThreshold * limit as real;
    if limit > 0 { PartIsPositive(f.agingThreshold, limit); }
    if d.observedAt.Some? {
      var age := AgeOf(d.observedAt, now).value;
      assert age > f.skewMs ==> age - f.skewMs == now - d.observedAt.value - f.skewMs;
      AgeClassSays(if age > f.skewMs then age - f.skewMs else 0, limit, f.agingThreshold, part);
    }
  }

  lemma PartIsPositive(threshold: real, limit: int)
    requires threshold > 0.0 && limit > 0
    ensures threshold * limit as real > 0.0
  {
  }

  lemma AgeClassSays(age: int, limit: int, threshold: real, part: real)
    requires age >= 0 && part == threshold * limit as real
    ensures ClassifyByAge(age, limit, threshold) ==
      if age >= limit then Stale else if age as real > part then Aging else Fresh
  {
  }

  lemma PreconditionsClassSays(rs: seq<PreconditionResult>, c: Staleness)
    ensures PreconditionsClass(rs) == c <==> PreconditionsSay(rs, c)
  {
    if Preconditions.AllPassed(rs) {
      forall r | r in rs ensures r.passed { var i :| 0 <= i < |rs| && rs[i] == r; }
    } else {
      var i :| 0 <= i < |rs| && !rs[i].passed;
      assert rs[i] in rs;
    }
  }

  lemma ComponentClassSays(
    d: Dependency, s: Snapshot, f: Freshness, rs: seq<PreconditionResult>, now: int, c: Staleness)
    requires !FromTheFuture(d.observedAt, now, f.skewMs)
    ensures c in ComponentClasses(d, s, AgeOf(d.observedAt, now), f, rs) <==> ComponentSays(d, s, f, rs, now, c)
  {
    TtlClassSays(d, f, now, c);
    PreconditionsClassSays(rs, c);
    hide TtlClass, TtlSays, PreconditionsClass, PreconditionsSay;
  }

  lemma HybridClassSays(d: Dependency, s: Snapshot, f: Freshness, rs: seq<PreconditionResult>, now: int)
    requires f.strategy == Hybrid && !FromTheFuture(d.observedAt, now, f.skewMs)
    ensures StrategySays(d, s, f, rs, now, Worst(ComponentClasses(d, s, AgeOf(d.observedAt, now), f, rs)))
  {
    var cs := ComponentClasses(d, s, AgeOf(d.observedAt, now), f, rs);
    var k := Severity(Worst(cs));
    assert BY_SEVERITY[k] == Worst(cs);
    ComponentClassSays(d, s, f, rs, now, Worst(cs));
    forall j | k < j < 5 ensures !ComponentSays(d, s, f, rs, now, BY_SEVERITY[j]) {
      ComponentClassSays(d, s, f, rs, now, BY_SEVERITY[j]);
      assert Severity(BY_SEVERITY[j]) == j;
    }
  }

  /** The class of an undrifted dependency is the one its strategy says, and no other. */
  lemma ClassMeansExactly(
    d: Dependency, s: Snapshot, f: Freshness, rs: seq<PreconditionResult>, now: int, c: Staleness)
    requires Undrifted(d, s, f, now)
    ensures Classify(d, s, f, rs, now) == c <==> StrategySays(d, s, f, rs, now, c)
  {
    TtlClassSays(d, f, now, c);
    PreconditionsClassSays(rs, c);
    hide TtlClass, TtlSays, PreconditionsClass, PreconditionsSay;
    if f.strategy == Hybrid { HybridClassSays(d, s, f, rs, now); }
  }

  // ---- Time ----------------------------------------------------------------------

  lemma ClassifyByAgeMonotone(a: int, b: int, maxAgeMs: int, agingThreshold: real)
    requires a <= b
    ensures Severity(ClassifyByAge(a, maxAgeMs, agingThreshold)) <= Severity(ClassifyByAge(b, maxAgeMs, agingThreshold))
  {
  }

  lemma TtlMonotone(observedAt: Option<int>, f: Freshness, now: int, later: int)
    requires now <= later
    ensures Severity(TtlClass(AgeOf(observedAt, now), f)) <= Severity(TtlClass(AgeOf(observedAt, later), f))
  {
    if observedAt.Some? {
      var a, b := AgeOf(observedAt, now).value, AgeOf(observedAt, later).value;
      var x := if a > f.skewMs then a - f.skewMs else 0;
      var y := if b > f.skewMs then b - f.skewMs else 0;
      ClassifyByAgeMonotone(x, y, GetOr(f.maxAgeMs, DEFAULT_MAX_AGE_MS), f.agingThreshold);
    }
  }

  lemma WorstMonotone(a: seq<Staleness>, b: seq<Staleness>)
    requires |a| == |b| > 0 && forall i :: 0 <= i < |a| ==> Severity(a[i]) <= Severity(b[i])
    ensures Severity(Worst(a)) <= Severity(Worst(b))
  {
    var i :| 0 <= i < |a| && a[i] == Worst(a);
    assert b[i] in b;
  }

  /** Once an observation is not from the future it only gets worse with time,
      under every strategy. */
  lemma SeverityGrowsWithTime(
    d: Dependency, s: Snapshot, f: Freshness, rs: seq<PreconditionResult>, now: int, later: int)
    requires now <= later && !FromTheFuture(d.observedAt, now, f.skewMs)
    ensures Severity(Classify(d, s, f, rs, now)) <= Severity(Classify(d, s, f, rs, later))
  {
    TtlMonotone(d.observedAt, f, now, later);
    if f.strategy == Hybrid {
      var a := ComponentClasses(d, s, AgeOf(d.observedAt, now), f, rs);
      var b := ComponentClasses(d, s, AgeOf(d.observedAt, later), f, rs);
      WorstMonotone(a, b);
    }
  }

  /** The window in which a time-to-live accepts an undrifted observation. */
  lemma TtlWindow(d: Dependency, s: Snapshot, f: Freshness, rs: seq<PreconditionResult>, now: int)
    requires f.strategy == Ttl
    requires !Differs(d.version, s.version) && !Differs(d.contentHash, s.contentHash) && !ServerDrift(d, s, f.skewMs)
    ensures Classify(d, s, f, rs, now) in {Fresh, Aging} <==>
      d.observedAt.Some? && -f.skewMs <= now - d.observedAt.value < f.maxAgeMs.value + f.skewMs
  {
  }

  /** Outside the window the class says which side: ahead of the clock or of
      unknown age is unknown, too old is stale. */
  lemma TtlOutsideWindow(d: Dependency, s: Snapshot, f: Freshness, rs: seq<PreconditionResult>, now: int)
    requires f.strategy == Ttl
    requires !Differs(d.version, s.version) && !Differs(d.contentHash, s.contentHash) && !ServerDrift(d, s, f.skewMs)
    ensures Classify(d, s, f, rs, now) == Unknown <==>
      d.observedAt.None? || now - d.observedAt.value < -f.skewMs
    ensures Classify(d, s, f, rs, now) == Stale <==>
      d.observedAt.Some? && now - d.observedAt.value >= f.maxAgeMs.value + f.skewMs
  {
  }

  predicate ImprovesBetween(d: Dependency, s: Snapshot, f: Freshness, now: int, later: int) {
    now <= later && Classify(d, s, f, [], now) == Unknown && Classify(d, s, f, [], later) == Fresh
  }

  /** Before that moment time can improve the verdict: an observation ahead of
      the clock is unknown and becomes fresh. */
  lemma FutureObservationImproves()
    ensures exists d, s, f: Freshness, now, later :: ImprovesBetween(d, s, f, now, later)
  {
    var r := Ref([], [], []);
    var d := Dependency(r, None, None, Some(10));
    var s := Snapshot(r, None, None, None, map[], 0, false, false);
    var f: Freshness := FreshnessRule(Ttl, Some(100), 0.75, 0, Components(false, false, false, false));
    assert ClassifyByAge(0, 100, 0.75) == Fresh;
    assert ImprovesBetween(d, s, f, 0, 10);
  }
}

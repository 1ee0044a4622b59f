/** From declared dependencies to verdicts: routing, fetching, evaluation
    (dependency-evaluator.ts) and recomputation on current state
    (revalidate-action.ts). */
module Dependencies {
  import opened Wrappers
  import opened Text
  import Json
  import Hashing
  import opened Domain
  import Glob
  import opened Preconditions
  import opened FreshnessEngine
  import opened DecisionEngine
  import Policies
  import opened Provider

  // ---- Routing -------------------------------------------------------------------

  /** Without a pattern a precondition belongs to the first dependency. */
  predicate RoutedTo(p: Precondition, index: nat, ref: Ref) {
    if p.dependency.None? then index == 0 else Glob.GlobMatches(p.dependency.value, RefKey(ref))
  }

  function Route(ps: seq<Precondition>, index: nat, ref: Ref): seq<Precondition> {
    if ps == [] then []
    else (if RoutedTo(ps[0], index, ref) then [ps[0]] else []) + Route(ps[1..], index, ref)
  }

  lemma {:induction false} RouteFilters(ps: seq<Precondition>, index: nat, ref: Ref)
    ensures forall p :: p in Route(ps, index, ref) <==> p in ps && RoutedTo(p, index, ref)
  {
    if ps != [] {
      RouteFilters(ps[1..], index, ref);
      assert ps == [ps[0]] + ps[1..];
    }
  }

  /** The policy's preconditions, then the intent's. */
  function AllPreconditions(policy: Policy, intent: Intent): seq<Precondition> {
    policy.preconditions + intent.preconditions
  }

  function RouteTo(policy: Policy, intent: Intent, index: nat): seq<Precondition>
    requires index < |intent.dependencies|
  {
    Route(AllPreconditions(policy, intent), index, intent.dependencies[index].ref)
  }

  /** The policy or the intent demands `p` of dependency `i`: it names no dependency
      and this is the first, or its pattern fits how the reference prints. */
  ghost predicate Demanded(policy: Policy, intent: Intent, i: nat, p: Precondition)
    requires i < |intent.dependencies|
  {
    var r := intent.dependencies[i].ref;
    && (p in policy.preconditions || p in intent.preconditions)
    && match p.dependency
       case None => i == 0
       case Some(pattern) => Glob.GlobMatches(pattern, r.source + Units(":") + r.resource + Units("/") + r.id)
  }

  /** What is routed to a dependency is exactly what is demanded of it. */
  lemma RoutedExactly(policy: Policy, intent: Intent, i: nat, p: Precondition)
    requires i < |intent.dependencies|
    ensures p in RouteTo(policy, intent, i) <==> Demanded(policy, intent, i, p)
  {
    RouteFilters(AllPreconditions(policy, intent), i, intent.dependencies[i].ref);
    RefPrints(intent.dependencies[i].ref);
  }

  function FreshnessOf(policy: Policy, ref: Ref): Freshness {
    Policies.FreshnessFor(policy.dependencyRules, ref, policy.freshness)
  }

  // ---- Verdicts --------------------------------------------------------------------

  /** The verdict on one dependency, given what its fetch brought. */
  function VerdictOn(e: Engine, policy: Policy, intent: Intent, index: nat, fetch: Fetch, now: int): Verdict
    requires index < |intent.dependencies|
  {
    var d := intent.dependencies[index];
    var ps := RouteTo(policy, intent, index);
    match fetch
    case Lost =>
      Verdict(d.ref, Unknown, false, d.version, None, d.contentHash, None, Evaluate(e, ps, map[]))
    case Fetched(s) =>
      var rs := Evaluate(e, ps, s.metadata);
      Verdict(d.ref, Classify(d, s, FreshnessOf(policy, d.ref), rs, now), true,
        d.version, s.version, d.contentHash, s.contentHash, rs)
  }

  function EvaluateAll(e: Engine, policy: Policy, intent: Intent, fetches: seq<Fetch>, now: int): seq<Verdict>
    requires |fetches| <= |intent.dependencies|
  {
    seq(|fetches|, i requires 0 <= i < |fetches| => VerdictOn(e, policy, intent, i, fetches[i], now))
  }

  function SnapshotsOf(fetches: seq<Fetch>): seq<Snapshot> {
    if fetches == [] then []
    else
      var last := fetches[|fetches| - 1];
      SnapshotsOf(fetches[..|fetches| - 1]) + if last.Fetched? then [last.snapshot] else []
  }

  /** The state identity of each fetched dependency, in order. */
  function EntriesOf(snapshots: seq<Snapshot>): (es: seq<Hashing.StateEntry>)
    ensures |es| == |snapshots|
  {
    seq(|snapshots|, i requires 0 <= i < |snapshots| =>
      Hashing.StateEntry(RefKey(snapshots[i].ref), snapshots[i].version, snapshots[i].contentHash))
  }

  // ---- Fetching from the in-memory provider -------------------------------------------

  /** Conditional verification first, unless preconditions need the metadata
      vouched for or no version was declared; then the full fetch. */
  function FetchCurrent(h: Hashing.Hash, s: State, source: Text, d: Dependency, wantsMetadata: bool, now: int): Fetch {
    if !Supports(s, source, d.ref) then Lost
    else if !wantsMetadata && d.version.Some? && GetConditional(h, s, d, now).Some? then
      Fetched(GetConditional(h, s, d, now).value)
    else GetState(h, s, d.ref, now)
  }

  /** A dependency is fetched exactly from a provider of its source that has its
      resource, as it is there; the declared version is affirmed instead of fetched
      exactly where no metadata is wanted, it is current and the resource supports it. */
  lemma FetchesExactly(h: Hashing.Hash, s: State, source: Text, d: Dependency, wantsMetadata: bool, now: int)
    ensures var f := FetchCurrent(h, s, source, d, wantsMetadata, now);
      && (f.Fetched? <==> d.ref.source == source && KeyOf(d.ref) in s.resources)
      && (f.Fetched? ==>
        var x := s.resources[KeyOf(d.ref)];
        && f.snapshot.ref == d.ref && f.snapshot.version == Some(x.version) && f.snapshot.metadata == x.metadata
        && f.snapshot.contentHash == SnapshotOf(h, s, d.ref, now).contentHash
        && f.snapshot.retrievedAt == now
        && (f.snapshot.affirmed <==> !wantsMetadata && x.conditional && d.version == Some(x.version)))
  {
    hide Hashing.ContentHash;
  }

  /** A provider's name and state, as the search through the providers sees it. */
  datatype Host = Host(source: Text, state: State)

  predicate Hosts(host: Host, r: Ref) {
    Supports(host.state, host.source, r)
  }

  /** The index of the first provider that supports the reference, or their number. */
  function FirstSupporting(hosts: seq<Host>, r: Ref): (k: nat)
    ensures k <= |hosts|
    ensures forall i :: 0 <= i < k ==> !Hosts(hosts[i], r)
    ensures k < |hosts| ==> Hosts(hosts[k], r)
  {
    if hosts == [] || Hosts(hosts[0], r) then 0 else 1 + FirstSupporting(hosts[1..], r)
  }

  function FetchFrom(h: Hashing.Hash, hosts: seq<Host>, d: Dependency, wantsMetadata: bool, now: int): Fetch {
    var k := FirstSupporting(hosts, d.ref);
    if k == |hosts| then Lost else FetchCurrent(h, hosts[k].state, hosts[k].source, d, wantsMetadata, now)
  }

  function FetchAll(h: Hashing.Hash, hosts: seq<Host>, policy: Policy, intent: Intent, n: nat, now: int): seq<Fetch>
    requires n <= |intent.dependencies|
  {
    seq(n, i requires 0 <= i < n => FetchFrom(h, hosts, intent.dependencies[i], RouteTo(policy, intent, i) != [], now))
  }

  function HostOf(provider: InMemoryProvider): Host
    reads provider
  {
    Host(provider.source, provider.Contents())
  }

  function HostsOf(providers: seq<InMemoryProvider>): seq<Host>
    reads providers
  {
    seq(|providers|, i requires 0 <= i < |providers| reads providers => HostOf(providers[i]))
  }

  /** The search through the providers, in the order they are configured. */
  method FindProvider(providers: seq<InMemoryProvider>, r: Ref) returns (k: nat)
    ensures k == FirstSupporting(HostsOf(providers), r) && k <= |providers|
  {
    k := 0;
    while k < |providers| && !Supports(providers[k].Contents(), providers[k].source, r)
      invariant k <= |providers|
      invariant forall i :: 0 <= i < k ==> !Hosts(HostsOf(providers)[i], r)
    {
      k := k + 1;
    }
    assert k < |providers| ==> HostsOf(providers)[k] == HostOf(providers[k]);
  }

  /** One dependency's attempt. */
  method FetchOne(h: Hashing.Hash, providers: seq<InMemoryProvider>, d: Dependency, wantsMetadata: bool, now: int)
    returns (fetch: Fetch)
    ensures fetch == FetchFrom(h, HostsOf(providers), d, wantsMetadata, now)
  {
    hide FetchCurrent;
    var k := FindProvider(providers, d.ref);
    if k == |providers| { return Lost; }
    assert HostsOf(providers)[k] == HostOf(providers[k]);
    return FetchCurrent(h, providers[k].Contents(), providers[k].source, d, wantsMetadata, now);
  }

  /** The evaluation loop, on providers nothing else touches meanwhile. */
  method EvaluateDependencies(
    e: Engine, providers: seq<InMemoryProvider>, policy: Policy, intent: Intent, now: int)
    returns (verdicts: seq<Verdict>, fetched: seq<Snapshot>)
    ensures var fetches := FetchAll(e.hash, HostsOf(providers), policy, intent, |intent.dependencies|, now);
      verdicts == EvaluateAll(e, policy, intent, fetches, now) && fetched == SnapshotsOf(fetches)
  {
    hide VerdictOn, FetchFrom, RouteTo, HostsOf;
    verdicts, fetched := [], [];
    ghost var hosts := HostsOf(providers);
    for i := 0 to |intent.dependencies|
      invariant verdicts == EvaluateAll(e, policy, intent, FetchAll(e.hash, hosts, policy, intent, i, now), now)
      invariant fetched == SnapshotsOf(FetchAll(e.hash, hosts, policy, intent, i, now))
    {
      var fetch := FetchOne(e.hash, providers, intent.dependencies[i], RouteTo(policy, intent, i) != [], now);
      ghost var before := FetchAll(e.hash, hosts, policy, intent, i, now);
      ghost var after := FetchAll(e.hash, hosts, policy, intent, i + 1, now);
      assert after == before + [fetch] && after[..i] == before;
      if fetch.Fetched? {
        fetched := fetched + [fetch.snapshot];
      }
      verdicts := verdicts + [VerdictOn(e, policy, intent, i, fetch, now)];
    }
  }

  // ---- Recomputation on current state ------------------------------------------------------

  /** The first snapshot whose reference prints as `key`. */
  function FindSnapshot(snapshots: seq<Snapshot>, key: Text): Option<Snapshot> {
    if snapshots == [] then None
    else if RefKey(snapshots[0].ref) == key then Some(snapshots[0])
    else FindSnapshot(snapshots[1..], key)
  }

  /** The fresh observation, adopted as if it had been declared. */
  function Adopted(ref: Ref, s: Snapshot): Dependency {
    Dependency(ref, s.version, s.contentHash, Some(s.retrievedAt))
  }

  function RecomputeOne(
    e: Engine, policy: Policy, intent: Intent, index: nat, v: Verdict, snapshots: seq<Snapshot>, now: int): Verdict
    requires index < |intent.dependencies|
  {
    var found := FindSnapshot(snapshots, RefKey(v.ref));
    if found.None? then v
    else
      var rs := Evaluate(e, RouteTo(policy, intent, index), found.value.metadata);
      v.(staleness := Classify(Adopted(v.ref, found.value), found.value,
        FreshnessOf(policy, intent.dependencies[index].ref), rs, now),
         verifiedFresh := true, preconditions := rs)
  }

  function Recompute(
    e: Engine, policy: Policy, intent: Intent, vs: seq<Verdict>, snapshots: seq<Snapshot>, now: int): seq<Verdict>
    requires |vs| <= |intent.dependencies|
  {
    seq(|vs|, i requires 0 <= i < |vs| => RecomputeOne(e, policy, intent, i, vs[i], snapshots, now))
  }

  // ---- What a verdict tells -------------------------------------------------------------------

  /** The results tell of exactly the demanded preconditions whether they hold. */
  ghost predicate ResultsTell(
    e: Engine, policy: Policy, intent: Intent, i: nat, rs: seq<PreconditionResult>, metadata: map<Text, Json.Value>)
    requires i < |intent.dependencies|
  {
    && (forall p :: Demanded(policy, intent, i, p) ==> PreconditionResult(p, Holds(e, p, metadata)) in rs)
    && (forall r :: r in rs ==>
      Demanded(policy, intent, i, r.precondition) && r.passed == Holds(e, r.precondition, metadata))
  }

  lemma EvaluateTells(e: Engine, policy: Policy, intent: Intent, i: nat, metadata: map<Text, Json.Value>)
    requires i < |intent.dependencies|
    ensures ResultsTell(e, policy, intent, i, Evaluate(e, RouteTo(policy, intent, i), metadata), metadata)
  {
    hide Holds, Demanded;
    var ps := RouteTo(policy, intent, i);
    var rs := Evaluate(e, ps, metadata);
    forall p | Demanded(policy, intent, i, p) ensures PreconditionResult(p, Holds(e, p, metadata)) in rs {
      RoutedExactly(policy, intent, i, p);
      var k :| 0 <= k < |ps| && ps[k] == p;
      assert rs[k] == PreconditionResult(p, Holds(e, p, metadata));
    }
    forall r | r in rs
      ensures Demanded(policy, intent, i, r.precondition) && r.passed == Holds(e, r.precondition, metadata)
    {
      var k :| 0 <= k < |rs| && rs[k] == r;
      RoutedExactly(policy, intent, i, ps[k]);
    }
  }

  /** Of a dependency that could not be fetched the verdict is unknown, with the
      demands judged on nothing; of a fetched one it tells the class, both versions and
      hashes, and the demands judged on what was fetched. */
  lemma VerdictTells(e: Engine, policy: Policy, intent: Intent, i: nat, fetch: Fetch, now: int)
    requires i < |intent.dependencies|
    ensures var d := intent.dependencies[i]; var v := VerdictOn(e, policy, intent, i, fetch, now);
      && v.ref == d.ref && v.observedVersion == d.version && v.observedHash == d.contentHash
      && (v.verifiedFresh <==> fetch.Fetched?)
      && (fetch.Lost? ==>
        && v.staleness == Unknown && v.currentVersion == None && v.currentHash == None
        && ResultsTell(e, policy, intent, i, v.preconditions, map[]))
      && (fetch.Fetched? ==>
        var s := fetch.snapshot; var f := FreshnessOf(policy, d.ref);
        && Policies.FreshnessSays(policy.dependencyRules, d.ref, policy.freshness, f)
        && v.currentVersion == s.version && v.currentHash == s.contentHash
        && ResultsTell(e, policy, intent, i, v.preconditions, s.metadata)
        && (Undrifted(d, s, f, now) ==> StrategySays(d, s, f, v.preconditions, now, v.staleness)))
  {
    EvaluateTells(e, policy, intent, i, if fetch.Fetched? then fetch.snapshot.metadata else map[]);
    hide ResultsTell, RouteTo, StrategySays, Undrifted, Classify;
    var v := VerdictOn(e, policy, intent, i, fetch, now);
    if fetch.Fetched? {
      var d := intent.dependencies[i];
      var f := FreshnessOf(policy, d.ref);
      Policies.FreshnessForExactly(policy.dependencyRules, d.ref, policy.freshness, f);
      if Undrifted(d, fetch.snapshot, f, now) {
        ClassMeansExactly(d, fetch.snapshot, f, v.preconditions, now, v.staleness);
      }
    }
  }

  predicate SeenAfter(s: Snapshot, at: int) {
    s.observedAt.Some? && s.observedAt.value > at
  }

  /** Revalidation judges a fetched dependency by what was fetched, as if it had been
      declared when it was fetched, so that only the provider's own clock can still
      prove drift; one that was not fetched keeps its verdict. */
  lemma RevalidationTells(
    e: Engine, policy: Policy, intent: Intent, i: nat, v: Verdict, snapshots: seq<Snapshot>, now: int)
    requires i < |intent.dependencies| && v.ref == intent.dependencies[i].ref
    ensures var found, v' := FindSnapshot(snapshots, RefKey(v.ref)), RecomputeOne(e, policy, intent, i, v, snapshots,
      now);
      && (found.None? ==> v' == v)
      && (found.Some? ==>
        var s := found.value; var f := FreshnessOf(policy, v.ref);
        && Policies.FreshnessSays(policy.dependencyRules, v.ref, policy.freshness, f)
        && v'.verifiedFresh && v'.ref == v.ref && v'.currentVersion == v.currentVersion
        && ResultsTell(e, policy, intent, i, v'.preconditions, s.metadata)
        && (s.retrievedAt <= now && (s.serverStamped ==> !SeenAfter(s, s.retrievedAt + f.skewMs)) ==>
          StrategySays(Dependency(v.ref, s.version, s.contentHash, Some(s.retrievedAt)), s, f, v'.preconditions, now,
            v'.staleness)))
  {
    var found := FindSnapshot(snapshots, RefKey(v.ref));
    if found.Some? {
      EvaluateTells(e, policy, intent, i, found.value.metadata);
      hide ResultsTell, RouteTo, StrategySays, Classify;
      var v' := RecomputeOne(e, policy, intent, i, v, snapshots, now);
      var s, f := found.value, FreshnessOf(policy, v.ref);
      var d := Adopted(v.ref, s);
      Policies.FreshnessForExactly(policy.dependencyRules, v.ref, policy.freshness, f);
      if Undrifted(d, s, f, now) { ClassMeansExactly(d, s, f, v'.preconditions, now, v'.staleness); }
    }
  }

  // ---- What an ALLOW establishes --------------------------------------------------------------

  /** Every attempt was made for its own dependency. */
  ghost predicate FetchedFor(intent: Intent, fetches: seq<Fetch>) {
    && |fetches| <= |intent.dependencies|
    && forall i :: 0 <= i < |fetches| && fetches[i].Fetched? ==> fetches[i].snapshot.ref == intent.dependencies[i].ref
  }

  lemma GoodClass(d: Dependency, s: Snapshot, f: Freshness, rs: seq<PreconditionResult>, now: int)
    requires Classify(d, s, f, rs, now) in {Fresh, Aging}
    ensures !Differs(d.version, s.version) && !Differs(d.contentHash, s.contentHash)
    ensures !FromTheFuture(d.observedAt, now, f.skewMs) && !ServerDrift(d, s, f.skewMs)
  {
  }

  /** Soundness of an initial ALLOW: there is evidence, every dependency was
      fetched, nothing declared differs from what is current, every class is
      good enough for the mode, and every precondition demanded of it by the policy
      or the intent holds on the fetched metadata. */
  lemma AllowIsSound(
    e: Engine, policy: Policy, defaults: GlobalDefaults, intent: Intent, risk: Option<Risk>, mode: Mode,
      fetches: seq<Fetch>, now: int)
    requires |fetches| == |intent.dependencies| && Guarded(policy.outcomes, defaults.outcomes)
    requires var vs := EvaluateAll(e, policy, intent, fetches, now);
      Decide(policy.outcomes, defaults.outcomes, risk, vs, mode, false) == Allow
    ensures intent.dependencies != []
    ensures forall i :: 0 <= i < |fetches| ==> GoodEvidence(e, policy, intent, i, fetches[i], now, mode)
  {
    hide VerdictOn, Decide;
    var vs := EvaluateAll(e, policy, intent, fetches, now);
    AllowedExactly(policy.outcomes, defaults.outcomes, risk, vs, mode, false);
    forall i | 0 <= i < |fetches| ensures GoodEvidence(e, policy, intent, i, fetches[i], now, mode) {
      assert vs[i] in vs;
      GoodVerdict(e, policy, intent, i, fetches[i], now, mode);
    }
  }

  ghost predicate GoodEvidence(e: Engine, policy: Policy, intent: Intent, i: nat, fetch: Fetch, now: int, mode: Mode)
    requires i < |intent.dependencies|
  {
    var d := intent.dependencies[i];
    && fetch.Fetched?
    && !Differs(d.version, fetch.snapshot.version)
    && !Differs(d.contentHash, fetch.snapshot.contentHash)
    && (forall p :: Demanded(policy, intent, i, p) ==> Holds(e, p, fetch.snapshot.metadata))
    && FreshEnough(e, policy, intent, i, fetch.snapshot, now, mode)
  }

  /** Nothing has drifted, and the strategy of the rule for the dependency says fresh,
      or aging outside STRICT mode. */
  ghost predicate FreshEnough(e: Engine, policy: Policy, intent: Intent, i: nat, s: Snapshot, now: int, mode: Mode)
    requires i < |intent.dependencies|
  {
    var d := intent.dependencies[i];
    exists f: Freshness, rs, c ::
      && Policies.FreshnessSays(policy.dependencyRules, d.ref, policy.freshness, f)
      && ResultsTell(e, policy, intent, i, rs, s.metadata)
      && Undrifted(d, s, f, now) && StrategySays(d, s, f, rs, now, c)
      && (c == Fresh || (c == Aging && mode != Strict))
  }

  lemma GoodVerdict(e: Engine, policy: Policy, intent: Intent, i: nat, fetch: Fetch, now: int, mode: Mode)
    requires i < |intent.dependencies|
    requires var v := VerdictOn(e, policy, intent, i, fetch, now);
      (v.staleness == Fresh || (v.staleness == Aging && mode != Strict)) && AllPassed(v.preconditions)
    ensures GoodEvidence(e, policy, intent, i, fetch, now, mode)
  {
    if fetch.Fetched? {
      var d, ps := intent.dependencies[i], RouteTo(policy, intent, i);
      var f, rs := FreshnessOf(policy, d.ref), Evaluate(e, ps, fetch.snapshot.metadata);
      GoodClass(d, fetch.snapshot, f, rs, now);
      assert FreshEnough(e, policy, intent, i, fetch.snapshot, now, mode) by {
        var c := Classify(d, fetch.snapshot, f, rs, now);
        Policies.FreshnessForExactly(policy.dependencyRules, d.ref, policy.freshness, f);
        EvaluateTells(e, policy, intent, i, fetch.snapshot.metadata);
        assert Undrifted(d, fetch.snapshot, f, now);
        ClassMeansExactly(d, fetch.snapshot, f, rs, now, c);
      }
      hide FreshEnough, Classify;
      PassedMeansHold(e, ps, fetch.snapshot.metadata);
      forall p | Demanded(policy, intent, i, p) ensures Holds(e, p, fetch.snapshot.metadata) {
        RoutedExactly(policy, intent, i, p);
      }
    }
  }

  /** Every precondition demanded of a dependency printed as `key` holds on the
      snapshot that stands for `key`. */
  ghost predicate StateHolds(e: Engine, policy: Policy, intent: Intent, snapshots: seq<Snapshot>, key: Text) {
    FindSnapshot(snapshots, key).Some? &&
    forall i, p :: 0 <= i < |intent.dependencies| && RefKey(intent.dependencies[i].ref) == key &&
      Demanded(policy, intent, i, p)
      ==> Holds(e, p, FindSnapshot(snapshots, key).value.metadata)
  }

  lemma {:induction false} FindAppend(a: seq<Snapshot>, b: seq<Snapshot>, key: Text)
    ensures FindSnapshot(a + b, key) ==
      if FindSnapshot(a, key).Some? then FindSnapshot(a, key) else FindSnapshot(b, key)
  {
    if a == [] {
      assert a + b == b;
    } else {
      assert (a + b)[1..] == a[1..] + b;
      FindAppend(a[1..], b, key);
    }
  }

  /** With everything fetched, the snapshot standing for a key is the one of
      the first dependency printed so. */
  lemma {:induction false} FindFirst(intent: Intent, fetches: seq<Fetch>, j: nat)
    requires FetchedFor(intent, fetches) && j < |fetches|
    requires forall i :: 0 <= i < |fetches| ==> fetches[i].Fetched?
    requires forall i :: 0 <= i < j ==> RefKey(intent.dependencies[i].ref) != RefKey(intent.dependencies[j].ref)
    ensures FindSnapshot(SnapshotsOf(fetches), RefKey(intent.dependencies[j].ref)) == Some(fetches[j].snapshot)
  {
    var n := |fetches| - 1;
    var key := RefKey(intent.dependencies[j].ref);
    FindAppend(SnapshotsOf(fetches[..n]), [fetches[n].snapshot], key);
    if j < n {
      FindFirst(intent, fetches[..n], j);
    } else {
      FindNone(intent, fetches[..n], key);
    }
  }

  lemma {:induction false} FindNone(intent: Intent, fetches: seq<Fetch>, key: Text)
    requires FetchedFor(intent, fetches)
    requires forall i :: 0 <= i < |fetches| ==> RefKey(intent.dependencies[i].ref) != key
    ensures FindSnapshot(SnapshotsOf(fetches), key).None?
  {
    if fetches != [] {
      var n := |fetches| - 1;
      FindNone(intent, fetches[..n], key);
      FindAppend(SnapshotsOf(fetches[..n]), if fetches[n].Fetched? then [fetches[n].snapshot] else [], key);
    }
  }

  /** What is demanded of a dependency is demanded of the first one printed alike. */
  lemma DemandedOfFirst(policy: Policy, intent: Intent, i: nat, j: nat, p: Precondition)
    requires j <= i < |intent.dependencies| && Demanded(policy, intent, i, p)
    requires RefKey(intent.dependencies[i].ref) == RefKey(intent.dependencies[j].ref)
    ensures Demanded(policy, intent, j, p)
  {
    RefPrints(intent.dependencies[i].ref);
    RefPrints(intent.dependencies[j].ref);
  }

  function FirstIndex(ds: seq<Dependency>, key: Text): (j: nat)
    requires exists i :: 0 <= i < |ds| && RefKey(ds[i].ref) == key
    ensures j < |ds| && RefKey(ds[j].ref) == key && forall i :: 0 <= i < j ==> RefKey(ds[i].ref) != key
  {
    if RefKey(ds[0].ref) == key then 0
    else
      assert forall i :: 0 < i < |ds| ==> ds[i] == ds[1..][i - 1];
      assert exists i :: 0 <= i < |ds[1..]| && RefKey(ds[1..][i].ref) == key by {
        var i :| 0 <= i < |ds| && RefKey(ds[i].ref) == key;
        assert ds[1..][i - 1] == ds[i];
      }
      var k := FirstIndex(ds[1..], key);
      assert forall i :: 0 < i < k + 1 ==> ds[i] == ds[1..][i - 1];
      k + 1
  }

  /** An initial ALLOW makes the state hold for every declared key. */
  lemma InitialAllowHolds(
    e: Engine, policy: Policy, defaults: GlobalDefaults, intent: Intent, risk: Option<Risk>, mode: Mode,
      fetches: seq<Fetch>, now: int, k: nat)
    requires |fetches| == |intent.dependencies| && Guarded(policy.outcomes, defaults.outcomes)
    requires FetchedFor(intent, fetches) && k < |intent.dependencies|
    requires Decide(policy.outcomes, defaults.outcomes, risk, EvaluateAll(e, policy, intent, fetches, now), mode,
      false) == Allow
    ensures StateHolds(e, policy, intent, SnapshotsOf(fetches), RefKey(intent.dependencies[k].ref))
  {
    hide EvaluateAll, Decide, RouteTo, Demanded, Holds, Classify;
    var key := RefKey(intent.dependencies[k].ref);
    AllowIsSound(e, policy, defaults, intent, risk, mode, fetches, now);
    var j := FirstIndex(intent.dependencies, key);
    FindFirst(intent, fetches, j);
    assert GoodEvidence(e, policy, intent, j, fetches[j], now, mode);
    forall i, p | 0 <= i < |intent.dependencies| && RefKey(intent.dependencies[i].ref) == key &&
      Demanded(policy, intent, i, p)
      ensures Holds(e, p, fetches[j].snapshot.metadata)
    {
      DemandedOfFirst(policy, intent, i, j, p);
    }
  }

  /** So does an ALLOW reached by revalidation. */
  lemma RevalidatedAllowHolds(
    e: Engine, policy: Policy, defaults: GlobalDefaults, intent: Intent, risk: Option<Risk>, mode: Mode,
    fetches: seq<Fetch>, fetchedAt: int, now: int, k: nat)
    requires |fetches| == |intent.dependencies| && Guarded(policy.outcomes, defaults.outcomes)
    requires FetchedFor(intent, fetches) && k < |intent.dependencies|
    requires var vs := EvaluateAll(e, policy, intent, fetches, fetchedAt);
      Decide(policy.outcomes, defaults.outcomes, risk, Recompute(e, policy, intent, vs, SnapshotsOf(fetches), now),
        mode, true) == Allow
    ensures StateHolds(e, policy, intent, SnapshotsOf(fetches), RefKey(intent.dependencies[k].ref))
  {
    hide Decide, RouteTo, Demanded, Holds, Classify, FreshnessOf;
    var key := RefKey(intent.dependencies[k].ref);
    var snapshots := SnapshotsOf(fetches);
    var vs := EvaluateAll(e, policy, intent, fetches, fetchedAt);
    var ws := Recompute(e, policy, intent, vs, snapshots, now);
    AllowedExactly(policy.outcomes, defaults.outcomes, risk, ws, mode, true);
    var found := FindSnapshot(snapshots, key);
    assert ws[k] in ws;
    FindKeeps(intent, fetches, k);
    assert found.Some?;
    forall i, p | 0 <= i < |intent.dependencies| && RefKey(intent.dependencies[i].ref) == key &&
      Demanded(policy, intent, i, p)
      ensures Holds(e, p, found.value.metadata)
    {
      RoutedExactly(policy, intent, i, p);
      assert ws[i] in ws && ws[i].preconditions == Evaluate(e, RouteTo(policy, intent, i), found.value.metadata);
      PassedMeansHold(e, RouteTo(policy, intent, i), found.value.metadata);
    }
  }

  /** A fetched dependency leaves a snapshot under its key. */
  lemma {:induction false} FindKeeps(intent: Intent, fetches: seq<Fetch>, k: nat)
    requires FetchedFor(intent, fetches) && k < |fetches|
    ensures FindSnapshot(SnapshotsOf(fetches), RefKey(intent.dependencies[k].ref)).None? ==> fetches[k].Lost?
  {
    var n := |fetches| - 1;
    FindAppend(SnapshotsOf(fetches[..n]), if fetches[n].Fetched? then [fetches[n].snapshot] else [],
      RefKey(intent.dependencies[k].ref));
    if k < n { FindKeeps(intent, fetches[..n], k); }
  }

  /** A precondition whose pattern fits no dependency is never evaluated:
      adding it changes no verdict, whatever was fetched. */
  lemma UnroutedIsIgnored(e: Engine, policy: Policy, intent: Intent, p: Precondition, fetches: seq<Fetch>, now: int)
    requires |fetches| <= |intent.dependencies|
    requires forall i :: 0 <= i < |intent.dependencies| ==> !RoutedTo(p, i, intent.dependencies[i].ref)
    ensures EvaluateAll(e, policy, intent.(preconditions := intent.preconditions + [p]), fetches, now)
      == EvaluateAll(e, policy, intent, fetches, now)
  {
    var more := intent.(preconditions := intent.preconditions + [p]);
    forall i | 0 <= i < |fetches| ensures RouteTo(policy, more, i) == RouteTo(policy, intent, i) {
      assert AllPreconditions(policy, more) == AllPreconditions(policy, intent) + [p];
      RouteAppend(AllPreconditions(policy, intent), p, i, intent.dependencies[i].ref);
    }
  }

  lemma {:induction false} RouteAppend(ps: seq<Precondition>, p: Precondition, index: nat, ref: Ref)
    requires !RoutedTo(p, index, ref)
    ensures Route(ps + [p], index, ref) == Route(ps, index, ref)
  {
    if ps == [] {
      assert [p][1..] == [];
    } else {
      assert (ps + [p])[1..] == ps[1..] + [p];
      RouteAppend(ps[1..], p, index, ref);
    }
  }

  // ---- The conditional fetch refines the full fetch ----------------------------------------------

  /** Taking the conditional path never changes the fingerprint entry, and
      changes the class exactly when the full path would have reported drift by
      the provider's own clock. */
  lemma ConditionalRefinesFull(e: Engine, s: State, source: Text, d: Dependency, f: Freshness, now: int)
    requires Supports(s, source, d.ref) && GetConditional(e.hash, s, d, now).Some?
    ensures var full := SnapshotOf(e.hash, s, d.ref, now);
      var conditional := GetConditional(e.hash, s, d, now).value;
      && EntriesOf([conditional]) == EntriesOf([full])
      && conditional.metadata == full.metadata
      && (Classify(d, conditional, f, [], now) == Classify(d, full, f, [], now) <==>
          !(ServerDrift(d, full, f.skewMs) && !FromTheFuture(d.observedAt, now, f.skewMs)
            && !Differs(d.contentHash, full.contentHash)))
  {
    var full := SnapshotOf(e.hash, s, d.ref, now);
    var conditional := GetConditional(e.hash, s, d, now).value;
    assert VersionClass(d, conditional) == Fresh && VersionClass(d, full) == Fresh;
    assert HashClass(d, conditional) == HashClass(d, full);
    var age := AgeOf(d.observedAt, now);
    assert ComponentClasses(d, conditional, age, f, []) == ComponentClasses(d, full, age, f, []);
    StrategyNeverInvalid(d, conditional, f, now);
  }

  lemma StrategyNeverInvalid(d: Dependency, s: Snapshot, f: Freshness, now: int)
    ensures StrategyClass(d, s, f, [], now) != Invalid
  {
    var cs := ComponentClasses(d, s, AgeOf(d.observedAt, now), f, []);
    assert forall c :: c in cs ==> c != Invalid;
  }

  /** Without a server timestamp the two paths agree under every strategy. */
  lemma ConditionalAgreesWithoutServerTime(e: Engine, s: State, source: Text, d: Dependency, f: Freshness, now: int)
    requires Supports(s, source, d.ref) && GetConditional(e.hash, s, d, now).Some?
    requires s.resources[KeyOf(d.ref)].serverTime.None?
    ensures Classify(d, GetConditional(e.hash, s, d, now).value, f, [], now) ==
      Classify(d, SnapshotOf(e.hash, s, d.ref, now), f, [], now)
  {
    ConditionalRefinesFull(e, s, source, d, f, now);
  }

  /** And they can disagree: a resource stamped by the provider's clock after the
      claimed observation is FRESH when affirmed and INVALID when fetched. */
  lemma ConditionalCanDisagree(e: Engine, ref: Ref) returns (s: State, d: Dependency, f: Freshness, now: int)
    ensures Supports(s, ref.source, d.ref) && GetConditional(e.hash, s, d, now).Some?
    ensures Classify(d, GetConditional(e.hash, s, d, now).value, f, [], now) == Fresh
    ensures Classify(d, SnapshotOf(e.hash, s, d.ref, now), f, [], now) == Invalid
  {
    s := Put(EMPTY, KeyOf(ref), map[], 0, None, Some(10));
    d := Dependency(ref, Some(VersionText(1)), None, Some(0));
    f := FreshnessRule(Version, None, 0.75, 0, Components(false, false, false, false));
    now := 10;
  }
}

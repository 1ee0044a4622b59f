/** The in-memory state provider (in-memory-provider.ts): its operations as
    functions on a state, what the versions it assigns promise, and the class
    that updates that state in place. */
module Provider {
  import opened Wrappers
  import opened Text
  import opened Json
  import Hashing
  import opened Domain

  const LOWER_V: Unit := 118

  datatype Resource = Resource(version: Text, metadata: map<Text, Value>, updatedAt: int, serverTime: Option<int>,
    conditional: bool)

  datatype Mutation = Mutation(at: int, previousVersion: Text, newVersion: Text, changes: map<Text, Value>)

  datatype State = State(
    resources: map<Text, Resource>, mutations: map<Text, seq<Mutation>>, versionCounter: nat,
      mutationClock: Option<int>)

  datatype CasResult = Executed(version: Text) | ConditionFailed(currentVersion: Option<Text>)

  /** "v<counter>" */
  function VersionText(n: nat): Text {
    [LOWER_V] + Decimal(n)
  }

  /** The map key of a resource: "<resource>::<resource_id>". */
  function Key(resource: Text, id: Text): Text {
    resource + [COLON, COLON] + id
  }

  function KeyOf(r: Ref): Text {
    Key(r.resource, r.id)
  }

  function LogOf(s: State, key: Text): seq<Mutation> {
    if key in s.mutations then s.mutations[key] else []
  }

  predicate Supports(s: State, source: Text, r: Ref) {
    r.source == source && KeyOf(r) in s.resources
  }

  /** Merges `changes` under the next version and logs the mutation. */
  function Advance(s: State, key: Text, changes: map<Text, Value>, at: int): State
    requires key in s.resources
  {
    var existing := s.resources[key];
    var version := VersionText(s.versionCounter + 1);
    s.(
      versionCounter := s.versionCounter + 1,
      resources := s.resources[key :=
        existing.(version := version, metadata := existing.metadata + changes, updatedAt := at)],
      mutations := s.mutations[key := LogOf(s, key) + [Mutation(at, existing.version, version, changes)]])
  }

  /** Compare-and-swap: one synchronous step. */
  function ConditionalExecute(s: State, key: Text, expected: Text, changes: map<Text, Value>): (State, CasResult) {
    if key !in s.resources then (s, ConditionFailed(None))
    else if s.resources[key].version != expected then (s, ConditionFailed(Some(s.resources[key].version)))
    else (Advance(s, key, changes, GetOr(s.mutationClock, s.resources[key].updatedAt)),
      Executed(VersionText(s.versionCounter + 1)))
  }

  /** An external actor's mutation; `None` where the source throws. */
  function Mutate(s: State, key: Text, changes: map<Text, Value>, at: int): Option<(State, Text)> {
    if key !in s.resources then None
    else Some((Advance(s, key, changes, at), VersionText(s.versionCounter + 1)))
  }

  /** Registers or replaces a resource. */
  function Put(
    s: State, key: Text, metadata: map<Text, Value>, updatedAt: int, version: Option<Text>,
      serverTime: Option<int>): State {
    var existing := if key in s.resources then Some(s.resources[key]) else None;
    var kept := if existing.Some? then existing.value.version else VersionText(s.versionCounter + 1);
    s.(
      versionCounter := s.versionCounter + 1,
      resources := s.resources[key := Resource(
        GetOr(version, kept), metadata, updatedAt,
        OrElse(serverTime, if existing.Some? then existing.value.serverTime else None),
        if existing.Some? then existing.value.conditional else true)])
  }

  function SnapshotOf(h: Hashing.Hash, s: State, r: Ref, now: int): Snapshot
    requires KeyOf(r) in s.resources
  {
    var x := s.resources[KeyOf(r)];
    Snapshot(r, Some(GetOr(x.serverTime, x.updatedAt)), Some(x.version), Some(Hashing.ContentHash(h, Obj(x.metadata))),
      x.metadata, now, x.serverTime.Some?, false)
  }

  /** Full fetch; `Lost` where the source throws. */
  function GetState(h: Hashing.Hash, s: State, r: Ref, now: int): Fetch {
    if KeyOf(r) in s.resources then Fetched(SnapshotOf(h, s, r, now)) else Lost
  }

  /** Conditional verification against the declared version. */
  function GetConditional(h: Hashing.Hash, s: State, d: Dependency, now: int): Option<Snapshot> {
    var key := KeyOf(d.ref);
    if d.version.None? || key !in s.resources || !s.resources[key].conditional then None
    else if s.resources[key].version != d.version.value then None
    else Some(SnapshotOf(h, s, d.ref, now).(
      observedAt := OrElse(d.observedAt, Some(s.resources[key].updatedAt)), affirmed := true))
  }

  // ---- Versions ----------------------------------------------------------------------

  /** What a version was assigned to when it was assigned. */
  datatype Birth = Birth(key: Text, metadata: map<Text, Value>)

  /** The versions a resource has had, oldest first, as its log tells. */
  function VersionsOf(current: Text, log: seq<Mutation>): seq<Text> {
    if log == [] then [current]
    else [log[0].previousVersion] + seq(|log|, i requires 0 <= i < |log| => log[i].newVersion)
  }

  predicate NoRepeats(xs: seq<Text>) {
    forall i, j | 0 <= i < j < |xs| :: xs[i] != xs[j]
  }

  /** Each entry continues the one before it, and the last reached the current version. */
  ghost predicate Chained(current: Text, log: seq<Mutation>) {
    && (forall i :: 0 < i < |log| ==> log[i].previousVersion == log[i - 1].newVersion)
    && (log != [] ==> log[|log| - 1].newVersion == current)
  }

  /** Every changed member has its new value; every other one is as it was. */
  ghost predicate Overridden(before: map<Text, Value>, changes: map<Text, Value>, after: map<Text, Value>) {
    && (forall f :: f in changes ==> f in after && after[f] == changes[f])
    && (forall f :: f !in changes && f in before ==> f in after && after[f] == before[f])
    && (forall f :: f in after ==> f in changes || f in before)
  }

  lemma OverriddenExactly(before: map<Text, Value>, changes: map<Text, Value>, after: map<Text, Value>)
    ensures Overridden(before, changes, after) <==> after == before + changes
  {
  }

  /** The entry's versions stand for the contents before and after its changes. */
  ghost predicate Told(births: map<Text, Birth>, m: Mutation) {
    && m.previousVersion in births && m.newVersion in births
    && Overridden(births[m.previousVersion].metadata, m.changes, births[m.newVersion].metadata)
  }

  predicate Assigned(counter: nat, v: Text) {
    exists n | 1 <= n <= counter :: v == VersionText(n)
  }

  /** `births` tells of every version what it stands for, and current resources agree. */
  ghost predicate Tracked(s: State, births: map<Text, Birth>) {
    && (forall k :: k in s.resources ==>
        && s.resources[k].version in births
        && births[s.resources[k].version] == Birth(k, s.resources[k].metadata))
    && (forall v :: v in births ==> Assigned(s.versionCounter, v))
    && (forall k :: k in s.mutations ==> k in s.resources)
  }

  ghost predicate HistoryKept(k: Text, current: Text, log: seq<Mutation>, births: map<Text, Birth>) {
    && Chained(current, log)
    && NoRepeats(VersionsOf(current, log))
    && (forall v :: v in VersionsOf(current, log) ==> v in births && births[v].key == k)
    && (forall i :: 0 <= i < |log| ==> Told(births, log[i]))
  }

  /** The version invariant. */
  ghost predicate VersionsHold(s: State, births: map<Text, Birth>) {
    && Tracked(s, births)
    && forall k :: k in s.resources ==> HistoryKept(k, s.resources[k].version, LogOf(s, k), births)
  }

  const EMPTY := State(map[], map[], 0, None)

  lemma EmptyHolds()
    ensures VersionsHold(EMPTY, map[])
  {
  }

  /** The births after a resource at `key` was created or mutated. */
  function Recorded(births: map<Text, Birth>, s: State, key: Text): map<Text, Birth>
    requires key in s.resources
  {
    births[s.resources[key].version := Birth(key, s.resources[key].metadata)]
  }

  lemma NextVersionIsNew(s: State, births: map<Text, Birth>)
    requires Tracked(s, births)
    ensures VersionText(s.versionCounter + 1) !in births
  {
    var v := VersionText(s.versionCounter + 1);
    if v in births {
      var n :| 1 <= n <= s.versionCounter && v == VersionText(n);
      assert v[1..] == Decimal(n) && v[1..] == Decimal(s.versionCounter + 1);
      DecimalInjective(n, s.versionCounter + 1);
    }
  }

  lemma HistoryStays(k: Text, current: Text, log: seq<Mutation>, births: map<Text, Birth>, v: Text, b: Birth)
    requires HistoryKept(k, current, log, births) && v !in births
    ensures HistoryKept(k, current, log, births[v := b])
  {
    hide Overridden, Chained, NoRepeats, VersionsOf;
    forall i | 0 <= i < |log| ensures Told(births[v := b], log[i]) { assert Told(births, log[i]); }
  }

  lemma HistoryGrows(k: Text, current: Text, log: seq<Mutation>, births: map<Text, Birth>, m: Mutation, b: Birth)
    requires HistoryKept(k, current, log, births) && m.newVersion !in births
    requires m.previousVersion == current && b.key == k
    requires current in births && Overridden(births[current].metadata, m.changes, b.metadata)
    ensures HistoryKept(k, m.newVersion, log + [m], births[m.newVersion := b])
  {
    hide Overridden;
    var vs, vs' := VersionsOf(current, log), VersionsOf(m.newVersion, log + [m]);
    assert vs' == vs + [m.newVersion];
    forall i, j | 0 <= i < j < |vs'| ensures vs'[i] != vs'[j] {
      assert vs'[i] == vs[i] && vs[i] in vs;
    }
  }

  lemma AssignedGrows(births: map<Text, Birth>, after: map<Text, Birth>, counter: nat, b: Birth)
    requires forall v :: v in births ==> Assigned(counter, v)
    requires after == births[VersionText(counter + 1) := b]
    ensures forall v :: v in after ==> Assigned(counter + 1, v)
  {
    forall v | v in after ensures Assigned(counter + 1, v) {
      if v in births { assert Assigned(counter, v); }
    }
  }

  /** A step that gives one resource the next version keeps the invariant. */
  lemma NewVersionHolds(s: State, s': State, births: map<Text, Birth>, key: Text)
    requires VersionsHold(s, births) && key in s'.resources
    requires s'.versionCounter == s.versionCounter + 1
    requires s'.resources[key].version == VersionText(s.versionCounter + 1)
    requires s'.resources == s.resources[key := s'.resources[key]]
    requires s'.mutations.Keys <= s.mutations.Keys + {key}
    requires forall k :: k in s.resources && k != key ==> LogOf(s', k) == LogOf(s, k)
    requires HistoryKept(key, s'.resources[key].version, LogOf(s', key), Recorded(births, s', key))
    ensures VersionsHold(s', Recorded(births, s', key))
  {
    hide HistoryKept, VersionText, Assigned, LogOf;
    var v := s'.resources[key].version;
    var b := Birth(key, s'.resources[key].metadata);
    var births' := Recorded(births, s', key);
    NextVersionIsNew(s, births);
    AssignedGrows(births, births', s.versionCounter, b);
    forall k | k in s'.resources ensures HistoryKept(k, s'.resources[k].version, LogOf(s', k), births') {
      if k != key { HistoryStays(k, s.resources[k].version, LogOf(s, k), births, v, b); }
    }
  }

  /** Mutation and compare-and-swap keep the version invariant and assign a
      version never assigned before. */
  lemma AdvanceHolds(s: State, births: map<Text, Birth>, key: Text, changes: map<Text, Value>, at: int)
    requires VersionsHold(s, births) && key in s.resources
    ensures var s' := Advance(s, key, changes, at);
      && s'.resources[key].version !in births
      && VersionsHold(s', Recorded(births, s', key))
  {
    hide HistoryKept, VersionText, Assigned;
    var s' := Advance(s, key, changes, at);
    var x := s.resources[key];
    var v := VersionText(s.versionCounter + 1);
    NextVersionIsNew(s, births);
    OverriddenExactly(x.metadata, changes, s'.resources[key].metadata);
    HistoryGrows(key, x.version, LogOf(s, key), births, Mutation(at, x.version, v, changes),
      Birth(key, s'.resources[key].metadata));
    NewVersionHolds(s, s', births, key);
  }

  /** So does registering a new resource without pinning its version. */
  lemma PutNewHolds(
    s: State, births: map<Text, Birth>, key: Text, metadata: map<Text, Value>, at: int, serverTime: Option<int>)
    requires VersionsHold(s, births) && key !in s.resources
    ensures var s' := Put(s, key, metadata, at, None, serverTime);
      && s'.resources[key].version !in births
      && VersionsHold(s', Recorded(births, s', key))
  {
    var s' := Put(s, key, metadata, at, None, serverTime);
    hide VersionText, Assigned;
    NextVersionIsNew(s, births);
    assert VersionsOf(s'.resources[key].version, []) == [s'.resources[key].version] && LogOf(s', key) == [];
    NewVersionHolds(s, s', births, key);
  }

  /** A version left behind never comes back: no two log entries of a resource
      start from the same version, and none starts from the current one. */
  lemma LeftBehindForGood(s: State, births: map<Text, Birth>, key: Text)
    requires VersionsHold(s, births) && key in s.resources
    ensures var log := LogOf(s, key);
      && (forall i, j :: 0 <= i < j < |log| ==> log[i].previousVersion != log[j].previousVersion)
      && (forall i :: 0 <= i < |log| ==> log[i].previousVersion != s.resources[key].version)
  {
    var log, current := LogOf(s, key), s.resources[key].version;
    assert HistoryKept(key, current, log, births);
    var vs := VersionsOf(current, log);
    forall i | 0 <= i < |log| ensures log[i].previousVersion == vs[i] {
      if i > 0 { assert log[i].previousVersion == log[i - 1].newVersion; }
    }
    if log != [] { assert vs[|log|] == current; }
  }

  /** The contents of a resource after the logged changes, in order. */
  function Replayed(contents: map<Text, Value>, log: seq<Mutation>): map<Text, Value> {
    if log == [] then contents else Replayed(contents, log[..|log| - 1]) + log[|log| - 1].changes
  }

  lemma VersionsBefore(current: Text, log: seq<Mutation>)
    requires Chained(current, log) && log != []
    ensures Chained(log[|log| - 1].previousVersion, log[..|log| - 1])
    ensures |VersionsOf(current, log)| == |log| + 1
    ensures VersionsOf(log[|log| - 1].previousVersion, log[..|log| - 1]) == VersionsOf(current, log)[..|log|]
  {
    var n := |log| - 1;
    var vs, us := VersionsOf(current, log), VersionsOf(log[n].previousVersion, log[..n]);
    assert |us| == n + 1;
    forall i | 0 <= i < |us| ensures us[i] == vs[i] {
      if i > 0 { assert us[i] == log[i - 1].newVersion; }
    }
  }

  lemma OneEntryBefore(k: Text, current: Text, log: seq<Mutation>, births: map<Text, Birth>)
    requires HistoryKept(k, current, log, births) && log != []
    ensures var m, less := log[|log| - 1], log[..|log| - 1];
      && m.newVersion == current && Told(births, m)
      && HistoryKept(k, m.previousVersion, less, births)
      && VersionsOf(m.previousVersion, less)[0] == VersionsOf(current, log)[0]
  {
    VersionsBefore(current, log);
    hide Told;
    var n := |log| - 1;
    var vs, us := VersionsOf(current, log), VersionsOf(log[n].previousVersion, log[..n]);
    assert log[n].newVersion == current && us == vs[..n + 1];
    hide VersionsOf, Chained;
    NoRepeatsBefore(vs, n + 1);
    forall i | 0 <= i < n ensures Told(births, log[..n][i]) { assert Told(births, log[i]); }
  }

  lemma NoRepeatsBefore(xs: seq<Text>, n: nat)
    requires NoRepeats(xs) && n <= |xs|
    ensures NoRepeats(xs[..n]) && forall x :: x in xs[..n] ==> x in xs
  {
  }

  lemma {:induction false} ReplayedTo(k: Text, current: Text, log: seq<Mutation>, births: map<Text, Birth>)
    requires HistoryKept(k, current, log, births) && current in births
    ensures var oldest := VersionsOf(current, log)[0];
      oldest in births && births[current].metadata == Replayed(births[oldest].metadata, log)
    decreases |log|
  {
    if log != [] {
      hide HistoryKept, VersionsOf, Overridden;
      var m := log[|log| - 1];
      OneEntryBefore(k, current, log, births);
      ReplayedTo(k, m.previousVersion, log[..|log| - 1], births);
      OverriddenExactly(births[m.previousVersion].metadata, m.changes, births[m.newVersion].metadata);
    }
  }

  /** The log tells all that happened to a resource: its contents are those its
      oldest known version stands for, under the logged changes in order. */
  lemma ContentsAreReplayed(s: State, births: map<Text, Birth>, key: Text)
    requires VersionsHold(s, births) && key in s.resources
    ensures var oldest := VersionsOf(s.resources[key].version, LogOf(s, key))[0];
      && oldest in births && births[oldest].key == key
      && s.resources[key].metadata == Replayed(births[oldest].metadata, LogOf(s, key))
  {
    var current, log := s.resources[key].version, LogOf(s, key);
    assert HistoryKept(key, current, log, births);
    assert VersionsOf(current, log)[0] in VersionsOf(current, log);
    ReplayedTo(key, current, log, births);
  }

  /** What a mutation at one time leaves of the state: the resource under the new
      version and the changed contents, its log one entry longer, and nothing else. */
  ghost predicate MutatedAt(s: State, s': State, key: Text, changes: map<Text, Value>, at: int, version: Text) {
    && key in s.resources && key in s'.resources
    && (var x, y := s.resources[key], s'.resources[key];
      && y.version == version && Overridden(x.metadata, changes, y.metadata)
      && y.updatedAt == at && y.serverTime == x.serverTime && y.conditional == x.conditional
      && LogOf(s', key) == LogOf(s, key) + [Mutation(at, x.version, version, changes)])
    && (forall k :: k != key ==>
      && LogOf(s', k) == LogOf(s, k) && (k in s'.resources <==> k in s.resources)
      && (k in s.resources ==> s'.resources[k] == s.resources[k]))
  }

  /** The compare-and-swap executes exactly at the expected version, and then
      applies the changes to that resource alone; otherwise it changes nothing and
      tells the version it saw. */
  lemma SwapsExactly(s: State, key: Text, expected: Text, changes: map<Text, Value>)
    ensures var (s', result) := ConditionalExecute(s, key, expected, changes);
      && (result.Executed? <==> key in s.resources && s.resources[key].version == expected)
      && (result.Executed? ==>
        MutatedAt(s, s', key, changes,
          if s.mutationClock.Some? then s.mutationClock.value else s.resources[key].updatedAt, result.version))
      && (result.ConditionFailed? ==>
        && s' == s
        && result.currentVersion == if key in s.resources then Some(s.resources[key].version) else None)
  {
    if key in s.resources {
      OverriddenExactly(s.resources[key].metadata, changes, s.resources[key].metadata + changes);
    }
    hide VersionText, Overridden;
  }

  /** An outside mutation is refused for an unknown resource alone. */
  lemma MutatesExactly(s: State, key: Text, changes: map<Text, Value>, at: int)
    ensures Mutate(s, key, changes, at).Some? <==> key in s.resources
    ensures key in s.resources ==>
      var (s', version) := Mutate(s, key, changes, at).value; MutatedAt(s, s', key, changes, at, version)
  {
    if key in s.resources {
      OverriddenExactly(s.resources[key].metadata, changes, s.resources[key].metadata + changes);
    }
    hide VersionText, Overridden;
  }

  /** Registering sets the contents of one resource and logs nothing. A pinned
      version is taken; else an existing resource keeps its own and a new one gets the
      next. What is not given of an existing resource stays. */
  lemma PutsExactly(s: State, key: Text, metadata: map<Text, Value>, at: int, version: Option<Text>,
    serverTime: Option<int>)
    ensures var s' := Put(s, key, metadata, at, version, serverTime);
      && key in s'.resources && s'.mutations == s.mutations && s'.mutationClock == s.mutationClock
      && (forall k :: k != key ==>
        (k in s'.resources <==> k in s.resources) && (k in s.resources ==> s'.resources[k] == s.resources[k]))
      && (var x := s'.resources[key];
        && x.metadata == metadata && x.updatedAt == at
        && (version.Some? ==> x.version == version.value)
        && (serverTime.Some? ==> x.serverTime == serverTime)
        && (version.None? && key in s.resources ==> x.version == s.resources[key].version)
        && (version.None? && key !in s.resources ==> x.version == VersionText(s.versionCounter + 1))
        && (serverTime.None? && key in s.resources ==> x.serverTime == s.resources[key].serverTime)
        && (serverTime.None? && key !in s.resources ==> x.serverTime == None)
        && (x.conditional <==> key !in s.resources || s.resources[key].conditional))
  {
    hide VersionText;
  }

  lemma KeyPrints(r: Ref, n: nat)
    ensures KeyOf(r) == r.resource + Units("::") + r.id
    ensures VersionText(n) == Units("v") + Decimal(n)
  {
    assert Units("::") == [COLON, COLON] && Units("v") == [LOWER_V];
  }

  /** A full fetch tells the resource as it is, stamped with the provider's own time
      where it has one, and is lost exactly for an unknown resource. */
  lemma FetchTells(h: Hashing.Hash, s: State, ref: Ref, now: int)
    ensures GetState(h, s, ref, now).Fetched? <==> KeyOf(ref) in s.resources
    ensures KeyOf(ref) in s.resources ==>
      var x, t := s.resources[KeyOf(ref)], GetState(h, s, ref, now).snapshot;
      && t.ref == ref && t.version == Some(x.version) && t.metadata == x.metadata && t.retrievedAt == now
      && t.contentHash == Some(Units("sha256:") + h(CanonicalJson(Obj(x.metadata))))
      && (t.serverStamped <==> x.serverTime.Some?) && !t.affirmed
      && t.observedAt == if x.serverTime.Some? then x.serverTime else Some(x.updatedAt)
  {
    assert Units("sha256:") == Hashing.SHA256_TEXT;
  }

  /** A conditional fetch affirms exactly the declared version of a resource that
      supports it, and then tells the same with the declared time. */
  lemma AffirmationTells(h: Hashing.Hash, s: State, d: Dependency, now: int)
    ensures GetConditional(h, s, d, now).Some? <==>
      && d.version.Some? && KeyOf(d.ref) in s.resources && s.resources[KeyOf(d.ref)].conditional
      && d.version == Some(s.resources[KeyOf(d.ref)].version)
    ensures GetConditional(h, s, d, now).Some? ==>
      var x, t := s.resources[KeyOf(d.ref)], GetConditional(h, s, d, now).value;
      && t.affirmed && GetState(h, s, d.ref, now) == Fetched(t.(affirmed := false, observedAt :=
        if x.serverTime.Some? then x.serverTime else Some(x.updatedAt)))
      && t.observedAt == if d.observedAt.Some? then d.observedAt else Some(x.updatedAt)
  {
    hide Hashing.ContentHash;
  }

  /** The exceptions the source warns of: replacing an existing resource keeps
      its version under new contents, so a mutation conditional on that version
      still goes through; and a pinned version can repeat. */
  lemma PutOnExistingHidesChange(
    s: State, key: Text, metadata: map<Text, Value>, at: int, serverTime: Option<int>, changes: map<Text, Value>)
    requires key in s.resources
    ensures var s' := Put(s, key, metadata, at, None, serverTime);
      && s'.resources[key].metadata == metadata
      && ConditionalExecute(s', key, s.resources[key].version, changes).1.Executed?
    ensures forall v: Text :: Put(s, key, metadata, at, Some(v), serverTime).resources[key].version == v
  {
  }

  /** Replacing an existing resource without pinning its version keeps the
      invariant exactly when it keeps the contents. */
  lemma PutOnExistingExactly(
    s: State, births: map<Text, Birth>, key: Text, metadata: map<Text, Value>, at: int, serverTime: Option<int>)
    requires VersionsHold(s, births) && key in s.resources
    ensures VersionsHold(Put(s, key, metadata, at, None, serverTime), births) <==> metadata == s.resources[key].metadata
  {
    var s' := Put(s, key, metadata, at, None, serverTime);
    hide HistoryKept, VersionText;
    assert births[s.resources[key].version] == Birth(key, s.resources[key].metadata);
    forall v | v in births ensures Assigned(s'.versionCounter, v) {
      assert Assigned(s.versionCounter, v);
    }
    assert forall k :: k in s.resources ==> s'.resources[k].version == s.resources[k].version;
  }

  // ---- The class -----------------------------------------------------------------------

  class InMemoryProvider {
    const source: Text
    var resources: map<Text, Resource>
    var mutations: map<Text, seq<Mutation>>
    var versionCounter: nat
    var mutationClock: Option<int>

    function Contents(): State
      reads this
    {
      State(resources, mutations, versionCounter, mutationClock)
    }

    constructor (source: Text)
      ensures this.source == source && Contents() == EMPTY
    {
      this.source := source;
      resources, mutations, versionCounter, mutationClock := map[], map[], 0, None;
    }

    method PinClock(at: Option<int>)
      modifies this
      ensures Contents() == old(Contents()).(mutationClock := at)
    {
      mutationClock := at;
    }

    method RunConditional(ref: Ref, expected: Text, changes: map<Text, Value>) returns (result: CasResult)
      modifies this
      ensures (Contents(), result) == ConditionalExecute(old(Contents()), KeyOf(ref), expected, changes)
      ensures result.Executed? ==>
        MutatedAt(old(Contents()), Contents(), KeyOf(ref), changes,
          if mutationClock.Some? then mutationClock.value else old(resources[KeyOf(ref)].updatedAt), result.version)
    {
      SwapsExactly(Contents(), KeyOf(ref), expected, changes);
      hide MutatedAt;
      var key := KeyOf(ref);
      if key !in resources { return ConditionFailed(None); }
      var existing := resources[key];
      if existing.version != expected { return ConditionFailed(Some(existing.version)); }
      var at := GetOr(mutationClock, existing.updatedAt);
      var version := Replace(key, existing, changes, at);
      return Executed(version);
    }

    method RunMutate(ref: Ref, changes: map<Text, Value>, at: int) returns (version: Option<Text>)
      modifies this
      ensures match Mutate(old(Contents()), KeyOf(ref), changes, at)
        case None => version.None? && Contents() == old(Contents())
        case Some((s, v)) => version == Some(v) && Contents() == s
      ensures version.Some? ==> MutatedAt(old(Contents()), Contents(), KeyOf(ref), changes, at, version.value)
    {
      MutatesExactly(Contents(), KeyOf(ref), changes, at);
      hide MutatedAt;
      var key := KeyOf(ref);
      if key !in resources { return None; }
      var v := Replace(key, resources[key], changes, at);
      return Some(v);
    }

    method Replace(key: Text, existing: Resource, changes: map<Text, Value>, at: int) returns (version: Text)
      requires key in resources && resources[key] == existing
      modifies this
      ensures Contents() == Advance(old(Contents()), key, changes, at)
      ensures version == VersionText(old(versionCounter) + 1)
    {
      versionCounter := versionCounter + 1;
      version := VersionText(versionCounter);
      resources := resources[key :=
        existing.(version := version, metadata := existing.metadata + changes, updatedAt := at)];
      var log := if key in mutations then mutations[key] else [];
      mutations := mutations[key := log + [Mutation(at, existing.version, version, changes)]];
    }

    method RunPut(ref: Ref, metadata: map<Text, Value>, updatedAt: int, version: Option<Text>, serverTime: Option<int>)
      modifies this
      ensures Contents() == Put(old(Contents()), KeyOf(ref), metadata, updatedAt, version, serverTime)
    {
      var key := KeyOf(ref);
      versionCounter := versionCounter + 1;
      var kept, stamp, conditional := VersionText(versionCounter), serverTime, true;
      if key in resources {
        kept, stamp, conditional :=
          resources[key].version, OrElse(serverTime, resources[key].serverTime), resources[key].conditional;
      }
      resources := resources[key := Resource(GetOr(version, kept), metadata, updatedAt, stamp, conditional)];
    }
  }
}

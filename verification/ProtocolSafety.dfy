/** What the protocol guarantees in every schedule: the meaning of its
    reports, of an effect applied by the provider, and of the re-check. */
module ProtocolSafety {
  import opened Wrappers
  import opened Text
  import opened Json
  import opened Hashing
  import opened Domain
  import Preconditions
  import opened DecisionEngine
  import opened Provider
  import opened Dependencies
  import Redaction
  import Store
  import opened History
  import opened Protocol
  import opened ProtocolClaims
  import opened ProtocolEffects
  import Policies
  import Config

  // ---- Claims ----------------------------------------------------------------------------

  /** From the claim to the consumption. */
  predicate InCriticalSection(run: Run) {
    match run.pc
    case Evaluating(p) => p == Recheck
    case Fetching(p, _) => p == Recheck
    case Concluding(p) => p == Recheck
    case Starting => true
    case InFlight => true
    case Consuming(_) => true
    case _ => false
  }

  /** The call has claimed the id and not consumed it, whether it goes on or was
      stopped by a blocked re-check. */
  predicate ClaimedNotConsumed(tape: seq<Event>, r: RunId, id: Store.Id) {
    Claimed(r, id) in tape && Consumed(r, id) !in tape
  }

  /** In every schedule the stored authorization of an id is live exactly while
      a call has claimed and not consumed it, and it names that call; so there
      is at most one, and a call on its way from claim to consumption is it. */
  lemma OneHolder(ctx: Context, schedule: seq<Step>, a: RunId, id: Store.Id)
    ensures var w := After(ctx, schedule);
      && (ClaimedNotConsumed(w.tape, a, id) <==> Store.Live(w.authorizations, id) && w.authorizations[id].holder == a)
      && (forall b :: ClaimedNotConsumed(w.tape, a, id) && ClaimedNotConsumed(w.tape, b, id) ==> a == b)
      && (a in w.runs && InCriticalSection(w.runs[a]) && w.runs[a].call.id == id ==> ClaimedNotConsumed(w.tape, a, id))
  {
    hide After, PhaseOf, SlotOf;
    var w := After(ctx, schedule);
    EveryScheduleIsLawful(ctx, schedule);
    Locally(w, a, id);
    if a in w.runs && InCriticalSection(w.runs[a]) && w.runs[a].call.id == id { CriticalOwns(w, a); }
    hide Inv;
    HolderClaims(w.tape, a, id);
    forall b | ClaimedNotConsumed(w.tape, a, id) && ClaimedNotConsumed(w.tape, b, id) ensures a == b {
      HolderClaims(w.tape, b, id);
    }
  }

  lemma HolderClaims(tape: seq<Event>, r: RunId, id: Store.Id)
    requires Lawful(tape)
    ensures ClaimedNotConsumed(tape, r, id) <==> SlotOf(tape, id) == HeldBy(r)
    ensures ClaimedNotConsumed(tape, r, id) <==> Owns(PhaseOf(tape, r), id)
  {
    HolderExactly(tape, r, id);
    OwnsExactly(tape, r, id);
  }

  lemma CriticalOwns(w: World, r: RunId)
    requires Inv(w) && r in w.runs && InCriticalSection(w.runs[r])
    ensures Owns(PhaseOf(w.tape, r), w.runs[r].call.id)
  {
    hide PhaseOf, EntriesOf, SnapshotsOf;
    assert RunAgrees(w.runs, w.tape, r);
  }

  predicate Ended(pc: Pc) {
    pc.Finished? || pc.Stopped?
  }

  /** A call that started its executor and has ended consumed its authorization. */
  lemma StartedAndEndedConsumed(ctx: Context, schedule: seq<Step>, j: nat) returns (k: nat)
    requires var w := After(ctx, schedule);
      j < |w.tape| && w.tape[j].Started? && w.tape[j].run in w.runs && Ended(w.runs[w.tape[j].run].pc)
    ensures var tape := After(ctx, schedule).tape;
      j < k < |tape| && tape[k] == Consumed(tape[j].run, tape[j].id)
  {
    hide After, PhaseOf, SlotOf, EntriesOf, SnapshotsOf;
    var w := After(ctx, schedule);
    var r, id, n := w.tape[j].run, w.tape[j].id, |w.tape|;
    EveryScheduleIsLawful(ctx, schedule);
    EndedNotRunning(w, r, id);
    hide Inv, Lawful;
    assert w.tape[..n] == w.tape;
    At(w.tape, j);
    RankGrows(w.tape, j + 1, n, r);
    if Rank(PhaseOf(w.tape[..n], r)) <= Rank(Running(id)) {
      StaysRunning(w.tape, j + 1, n, r, id);
    }
    k := DoneByConsumption(w.tape, j + 1, n, r, id);
  }

  lemma EndedNotRunning(w: World, r: RunId, id: Store.Id)
    requires Inv(w) && r in w.runs && Ended(w.runs[r].pc)
    ensures Lawful(w.tape) && PhaseOf(w.tape, r) != Running(id)
  {
    hide PhaseOf, Lawful;
    assert RunAgrees(w.runs, w.tape, r);
  }

  // ---- Reports ----------------------------------------------------------------------------

  /** How many effects a report admits. */
  predicate Admits(report: Report, effects: nat) {
    match report
    case Satisfied => effects == 1
    case UnknownOutcome => effects <= 1
    case _ => effects == 0
  }

  predicate StillAt(w: World, r: RunId, run: Run) {
    r in w.runs && w.runs[r].pc == run.pc && w.runs[r].call == run.call
  }

  lemma FinishedStays(ctx: Context, w: World, step: Step, r: RunId)
    requires r in w.runs && w.runs[r].pc.Finished? && Enabled(w, step)
    ensures StillAt(Next(ctx, w, step), r, w.runs[r])
  {
    hide Plan, Perform, BeginRun, ExecutorActs, WithTask, Resolution, Recorded, Put, Provider.Advance, TimedOut;
    match step
    case Advance(q, answered) =>
      var (run, write) := Plan(ctx, w, q, answered);
      PerformFrame(ctx, w, q, run, write);
      if q == r { FinishedRests(ctx, w, r, answered); }
    case Act(q) => ActKeepsPc(w, q, r);
    case Decline(q) => TaskKeepsPc(w, q, Declined, r);
    case Crash(q) => TaskKeepsPc(w, q, Crashed(w.runs[q].task == Applied), r);
    case Begin(q, call) => BeginKeepsPc(w, q, call, r);
    case WriteResolution(id, approves) => ResolutionKeepsPc(w, id, approves, r);
    case _ =>
  }

  lemma ActKeepsPc(w: World, q: RunId, r: RunId)
    requires q in w.runs && r in w.runs
    ensures StillAt(ExecutorActs(w, q), r, w.runs[r])
  {
    var key, s := ActIs(w, q);
    hide ExecutorActs, Recorded, WithTask, SwapIn, StillAt;
    if ExecutorActs(w, q) == WithTask(w, q, Refused) {
      TaskKeepsPc(w, q, Refused, r);
    } else {
      SwapKeepsPc(w, q, key, s, r);
    }
  }

  lemma SwapKeepsPc(w: World, q: RunId, key: Text, s: State, r: RunId)
    requires q in w.runs && r in w.runs && key in s.resources && key in w.provider.resources
    ensures StillAt(SwapIn(w, q, key, s), r, w.runs[r])
  {
    hide Recorded;
  }

  lemma TaskKeepsPc(w: World, q: RunId, task: Task, r: RunId)
    requires q in w.runs && r in w.runs
    ensures StillAt(WithTask(w, q, task), r, w.runs[r])
  {
  }

  lemma BeginKeepsPc(w: World, q: RunId, call: Call, r: RunId)
    requires q !in w.runs && r in w.runs
    ensures StillAt(BeginRun(w, q, call), r, w.runs[r])
  {
  }

  lemma ResolutionKeepsPc(w: World, id: Store.Id, approves: bool, r: RunId)
    requires r in w.runs
    ensures StillAt(Resolution(w, id, approves), r, w.runs[r])
  {
  }

  lemma FinishedRests(ctx: Context, w: World, r: RunId, answered: bool)
    requires r in w.runs && w.runs[r].pc.Finished?
    ensures Plan(ctx, w, r, answered) == (w.runs[r], Nothing)
  {
    hide PlanFetch, PlanConclusion, PlanSettling, PlanClaim, Conditional;
  }

  lemma {:induction false} FinishedForGood(ctx: Context, schedule: seq<Step>, more: seq<Step>, r: RunId)
    requires var w := After(ctx, schedule); r in w.runs && w.runs[r].pc.Finished?
    ensures StillAt(After(ctx, schedule + more), r, After(ctx, schedule).runs[r])
  {
    hide Enabled, Next;
    if more == [] {
      assert schedule + more == schedule;
    } else {
      var less, step := more[..|more| - 1], more[|more| - 1];
      FinishedForGood(ctx, schedule, less, r);
      assert (schedule + more)[..|schedule + more| - 1] == schedule + less;
      var w := After(ctx, schedule + less);
      if Enabled(w, step) { FinishedStays(ctx, w, step, r); }
    }
  }

  /** A report is true when it is made and stays true: satisfied means exactly
      one mutation applied by the provider, failed and unavailable mean none
      ever, unknown means at most one; and the authorization is consumed. */
  lemma ReportsAreTruthful(ctx: Context, schedule: seq<Step>, more: seq<Step>, r: RunId)
    requires var w := After(ctx, schedule); r in w.runs && w.runs[r].pc.Finished?
    ensures var w, w' := After(ctx, schedule), After(ctx, schedule + more);
      && Admits(w.runs[r].pc.report, SwapsBy(w'.tape, r))
      && PhaseOf(w'.tape, r) == Done(w.runs[r].call.id)
  {
    hide Inv, After, PhaseOf, SwapsBy, Admits;
    FinishedForGood(ctx, schedule, more, r);
    EveryScheduleIsLawful(ctx, schedule + more);
    FinishedAdmits(After(ctx, schedule + more), r);
  }

  lemma FinishedAdmits(w: World, r: RunId)
    requires Inv(w) && r in w.runs && w.runs[r].pc.Finished?
    ensures Admits(w.runs[r].pc.report, SwapsBy(w.tape, r)) && PhaseOf(w.tape, r) == Done(w.runs[r].call.id)
  {
    hide PhaseOf, SwapsBy, Lawful, EntriesOf, SnapshotsOf;
    assert RunAgrees(w.runs, w.tape, r);
  }

  lemma FinishedApplied(w: World, r: RunId)
    requires Inv(w) && r in w.runs && w.runs[r].pc == Finished(Satisfied)
    ensures HasApplied(w.runs[r].task)
  {
    hide PhaseOf, SwapsBy, Lawful, EntriesOf, SnapshotsOf;
    assert RunAgrees(w.runs, w.tape, r);
  }

  // ---- Effects -------------------------------------------------------------------------------

  lemma {:induction false} EntryOfSnapshot(ss: seq<Snapshot>, key: Text)
    ensures FindEntry(EntriesOf(ss), key).Some? <==> FindSnapshot(ss, key).Some?
    ensures FindSnapshot(ss, key).Some? ==>
      FindEntry(EntriesOf(ss), key).value.version == FindSnapshot(ss, key).value.version
  {
    if ss != [] {
      assert EntriesOf(ss)[1..] == EntriesOf(ss[1..]);
      EntryOfSnapshot(ss[1..], key);
    }
  }

  lemma {:induction false} FoundWasFetched(fetches: seq<Fetch>, key: Text) returns (k: nat)
    requires FindSnapshot(SnapshotsOf(fetches), key).Some?
    ensures k < |fetches| && fetches[k] == Fetched(FindSnapshot(SnapshotsOf(fetches), key).value)
    ensures RefKey(fetches[k].snapshot.ref) == key
  {
    var n := |fetches| - 1;
    FindAppend(SnapshotsOf(fetches[..n]), if fetches[n].Fetched? then [fetches[n].snapshot] else [], key);
    if FindSnapshot(SnapshotsOf(fetches[..n]), key).Some? {
      k := FoundWasFetched(fetches[..n], key);
    } else {
      k := n;
    }
  }

  /** The snapshot a call authorized its target on. */
  function Authorized(run: Run): Option<Snapshot> {
    FindSnapshot(SnapshotsOf(run.fetches), RefKey(run.call.executor.target))
  }

  /** Whenever the provider applies a call's mutation, in any interleaving, the
      resource has at that instant exactly the version and the contents the
      call fetched when it was validated, and is left with these contents under the
      executor's changes; the provider's log has the step. */
  lemma AppliedToTheAuthorizedState(ctx: Context, schedule: seq<Step>, r: RunId) returns (k: nat)
    requires var w := After(ctx, schedule); r in w.runs && HasApplied(w.runs[r].task)
    ensures var w := After(ctx, schedule); var run := w.runs[r];
      && k < |w.tape| && w.tape[k].Swapped? && w.tape[k].run == r && w.tape[k].key == KeyOf(run.call.executor.target)
      && Authorized(run).Some?
      && Authorized(run).value.version == Some(w.tape[k].before.version)
      && Authorized(run).value.metadata == w.tape[k].before.metadata
      && Overridden(w.tape[k].before.metadata, run.call.executor.changes, w.tape[k].after.metadata)
      && LeftBehind(w.provider, w.tape[k].key, w.tape[k].before.version, w.tape[k].after.version)
  {
    hide After;
    var w := After(ctx, schedule);
    var run := w.runs[r];
    EveryCallIsKnown(ctx, schedule, r);
    k :| 0 <= k < |w.tape| && SwapOf(w.births, w.tape[k], r, run);
    EntryOfSnapshot(SnapshotsOf(run.fetches), RefKey(run.call.executor.target));
    EveryScheduleKeepsEffects(ctx, schedule);
    assert LeftBehind(w.provider, w.tape[k].key, w.tape[k].before.version, w.tape[k].after.version);
    hide EntriesOf, SnapshotsOf, FindEntry, FindSnapshot, Overridden;
    var i := FoundWasFetched(run.fetches, RefKey(run.call.executor.target));
    assert Witnessed(w.births, run.fetches[i].snapshot);
  }

  /** In every schedule the provider's log tells all that happened to a resource: its
      contents are those it was registered with, under the logged changes in order. */
  lemma ContentsFollowTheLog(ctx: Context, schedule: seq<Step>, key: Text)
    requires key in After(ctx, schedule).provider.resources
    ensures var w := After(ctx, schedule); var x, log := w.provider.resources[key], LogOf(w.provider, key);
      var oldest := VersionsOf(x.version, log)[0];
      && oldest in w.births && w.births[oldest].key == key
      && x.metadata == Replayed(w.births[oldest].metadata, log)
  {
    EveryScheduleKeepsEffects(ctx, schedule);
    hide After, Known, SwapsLogged;
    var w := After(ctx, schedule);
    ContentsAreReplayed(w.provider, w.births, key);
  }

  /** A decided call of ENFORCE or STRICT mode has its preconditions hold on the
      snapshots it fetched. */
  lemma DecidedHolds(ctx: Context, births: map<Text, Birth>, tape: seq<Event>, r: RunId, run: Run, k: nat)
    requires Known(ctx, births, tape, r, run) && Decided(run.pc) && k < |run.call.intent.dependencies|
    requires ctx.mode != Observe && !run.call.approved
    requires Guarded(PolicyOf(ctx, run.call.intent).outcomes, ctx.defaults.outcomes)
    ensures StateHolds(ctx.engine, PolicyOf(ctx, run.call.intent), run.call.intent, SnapshotsOf(run.fetches),
      RefKey(run.call.intent.dependencies[k].ref))
  {
    hide StateHolds, Decide, VerdictOn, RecomputeOne, SnapshotsOf, EntriesOf, PolicyOf, RiskOf, DecisionEngine.Guarded;
    var i := run.call.intent;
    var p := PolicyOf(ctx, i);
    if run.revalidatedAt.Some? {
      RevalidatedAllowHolds(ctx.engine, p, ctx.defaults, i, Some(RiskOf(ctx, i)), ctx.mode, run.fetches,
        run.validatedAt, run.revalidatedAt.value, k);
    } else {
      InitialAllowHolds(ctx.engine, p, ctx.defaults, i, Some(RiskOf(ctx, i)), ctx.mode, run.fetches, run.validatedAt,
        k);
    }
  }

  /** `key` prints a declared dependency, and every precondition that the policy or
      the intent demands of one printed so holds of the contents. */
  ghost predicate HeldOf(ctx: Context, intent: Intent, key: Text, contents: map<Text, Value>) {
    && (exists i :: 0 <= i < |intent.dependencies| && RefKey(intent.dependencies[i].ref) == key)
    && (forall i, p ::
      (0 <= i < |intent.dependencies| && RefKey(intent.dependencies[i].ref) == key &&
        Demanded(PolicyOf(ctx, intent), intent, i, p)) ==>
        Preconditions.Holds(ctx.engine, p, contents))
  }

  /** The heart of the firewall: a satisfied call that needed no approval, in
      ENFORCE or STRICT mode and under outcomes that never allow uncertainty,
      had exactly one effect, and at the instant the provider applied it every
      precondition demanded of the resource held of the resource's contents. */
  lemma SatisfiedMeansPreconditionsHeld(ctx: Context, schedule: seq<Step>, r: RunId) returns (k: nat)
    requires var w := After(ctx, schedule);
      r in w.runs && w.runs[r].pc == Finished(Satisfied) && !w.runs[r].call.approved
    requires ctx.mode != Observe
    requires DecisionEngine.Guarded(PolicyOf(ctx, After(ctx, schedule).runs[r].call.intent).outcomes,
      ctx.defaults.outcomes)
    ensures var w := After(ctx, schedule); var intent, target := w.runs[r].call.intent, w.runs[r].call.executor.target;
      && SwapsBy(w.tape, r) == 1
      && k < |w.tape| && w.tape[k].Swapped? && w.tape[k].run == r && w.tape[k].key == KeyOf(target)
      && HeldOf(ctx, intent, RefKey(target), w.tape[k].before.metadata)
      && Overridden(w.tape[k].before.metadata, w.runs[r].call.executor.changes, w.tape[k].after.metadata)
  {
    hide After, PolicyOf, DecisionEngine.Guarded, RouteTo, Demanded, Preconditions.Holds, PhaseOf, SwapsBy, Overridden;
    hide LeftBehind;
    var w := After(ctx, schedule);
    var run := w.runs[r];
    EveryScheduleIsLawful(ctx, schedule);
    FinishedAdmits(w, r);
    FinishedApplied(w, r);
    hide Inv;
    k := AppliedToTheAuthorizedState(ctx, schedule, r);
    EveryCallIsKnown(ctx, schedule, r);
    var i := FoundWasFetched(run.fetches, RefKey(run.call.executor.target));
    assert FetchedFor(run.call.intent, run.fetches);
    hide Known;
    DecidedHolds(ctx, w.births, w.tape, r, run, i);
  }

  /** Of any number of attempts to mutate a resource at one version, by any
      calls under any action ids, at most one succeeds. */
  lemma VersionsSwapOnce(ctx: Context, schedule: seq<Step>, i: nat, j: nat)
    requires var tape := After(ctx, schedule).tape;
      i < j < |tape| && tape[i].Swapped? && tape[j].Swapped? && tape[i].key == tape[j].key
    ensures var tape := After(ctx, schedule).tape; tape[i].before.version != tape[j].before.version
  {
    EveryScheduleKeepsEffects(ctx, schedule);
    hide After, VersionsHold, Known;
  }

  /** No call starts its executor before a decision lets it: in every schedule a
      call past its decision resolved an existing policy, and outside OBSERVE
      mode its current decision is ALLOW, or ESCALATE for an approved call, and
      without approval a required condition can be enforced. */
  lemma NothingStartsUndecided(ctx: Context, schedule: seq<Step>, r: RunId)
    requires var w := After(ctx, schedule); r in w.runs && Decided(w.runs[r].pc)
    ensures var run := After(ctx, schedule).runs[r];
      PolicyExists(ctx, run.call.intent) && (ctx.mode != Observe ==> Cleared(ctx, run))
  {
    hide After;
    EveryCallIsKnown(ctx, schedule, r);
    var i := After(ctx, schedule).runs[r].call.intent;
    if i.policyName.Some? { Policies.FoundNamed(ctx.policies, i.policyName.value); }
    hide FetchedFor, AllWitnessed, Cleared;
  }

  /** The intent names no policy, or one that is declared. */
  ghost predicate PolicyExists(ctx: Context, i: Intent) {
    i.policyName == None || i.policyName == Some([]) || exists p :: p in ctx.policies && i.policyName == Some(p.name)
  }

  /** When a decided call rests on broken evidence: proven change or a failed
      precondition goes on exactly when it is stale or unknown state that the
      configuration allows, or, for an approved call, when the configuration
      escalates it. The approval covers every precondition alike. */
  lemma BrokenEvidenceGoesOnExactly(ctx: Context, run: Run)
    requires Broken(CurrentVerdicts(ctx, run))
    ensures var o, vs := PolicyOf(ctx, run.call.intent).outcomes, CurrentVerdicts(ctx, run);
      LetsGoOn(ctx, run) <==>
        AllowsUncertain(o, ctx.defaults.outcomes, Some(RiskOf(ctx, run.call.intent)), ctx.mode, BasisOf(vs)) ||
        (run.call.approved && OutcomeFor(o, ctx.defaults.outcomes, BrokenBasis(vs)) == Escalate)
  {
    hide PolicyOf, RiskOf, CurrentVerdicts, Decide, Broken;
    var o, vs := PolicyOf(ctx, run.call.intent).outcomes, CurrentVerdicts(ctx, run);
    var risk := Some(RiskOf(ctx, run.call.intent));
    BrokenAllowedExactly(o, ctx.defaults.outcomes, risk, vs, ctx.mode, run.revalidatedAt.Some?);
    BrokenEscalatesExactly(o, ctx.defaults.outcomes, risk, vs, ctx.mode, run.revalidatedAt.Some?);
  }

  /** So in every schedule an approval blocks proven change and failed
      preconditions only as far as the configuration escalates neither. */
  lemma ApprovalBlocksBrokenEvidence(ctx: Context, schedule: seq<Step>, r: RunId)
    requires var w := After(ctx, schedule); r in w.runs && Decided(w.runs[r].pc) && ctx.mode != Observe
    requires var run := After(ctx, schedule).runs[r]; var o := PolicyOf(ctx, run.call.intent).outcomes;
      var vs := CurrentVerdicts(ctx, run);
      && DecisionEngine.Guarded(o, ctx.defaults.outcomes)
      && OutcomeFor(o, ctx.defaults.outcomes, BrokenBasis(vs)) != Escalate
    ensures var vs := CurrentVerdicts(ctx, After(ctx, schedule).runs[r]);
      PreconditionsPassed(vs) && BasisOf(vs) != Invalid
  {
    hide After, PolicyOf, RiskOf, CurrentVerdicts, CurrentDecision, OutcomeFor, BasisOf, PreconditionsPassed;
    var run := After(ctx, schedule).runs[r];
    NothingStartsUndecided(ctx, schedule, r);
    if Broken(CurrentVerdicts(ctx, run)) { BrokenEvidenceGoesOnExactly(ctx, run); }
  }

  // ---- From the configuration ------------------------------------------------------------------

  /** The context a clean configuration is loaded into. */
  predicate LoadedFrom(ctx: Context, c: Config.RootConfig) {
    && Config.ConfigViolations(c) == [] && !c.acknowledgeUnknownAllow
    && Config.BuildPolicyCore(c) == Some(Config.Core(ctx.policies, ctx.defaults, ctx.mode))
  }

  lemma ResolvedIsReachable(ctx: Context, i: Intent)
    ensures PolicyOf(ctx, i) in ctx.policies || PolicyOf(ctx, i) == Policies.SyntheticDefault(ctx.defaults)
  {
    if Policies.NamesPolicy(i) { NamedIsDeclared(ctx.policies, i.policyName.value); }
  }

  lemma {:induction false} NamedIsDeclared(ps: seq<Policy>, name: Text)
    ensures Policies.FindNamed(ps, name).Some? ==> Policies.FindNamed(ps, name).value in ps
  {
    if ps != [] { NamedIsDeclared(ps[1..], name); }
  }

  /** End to end: from a configuration that reports no violation and does not
      acknowledge unknown state, in every schedule of every call it serves, a
      satisfied call had one effect, on contents of which its preconditions held. */
  lemma CleanConfigProtectsEffects(ctx: Context, c: Config.RootConfig, schedule: seq<Step>, r: RunId) returns (k: nat)
    requires LoadedFrom(ctx, c) && ctx.mode != Observe
    requires var w := After(ctx, schedule);
      r in w.runs && w.runs[r].pc == Finished(Satisfied) && !w.runs[r].call.approved
    ensures var w := After(ctx, schedule); var intent, target := w.runs[r].call.intent, w.runs[r].call.executor.target;
      && SwapsBy(w.tape, r) == 1
      && k < |w.tape| && w.tape[k].Swapped? && w.tape[k].run == r && w.tape[k].key == KeyOf(target)
      && HeldOf(ctx, intent, RefKey(target), w.tape[k].before.metadata)
      && Overridden(w.tape[k].before.metadata, w.runs[r].call.executor.changes, w.tape[k].after.metadata)
  {
    hide After, PolicyOf, HeldOf, SwapsBy, Config.ConfigViolations, Config.BuildPolicyCore, DecisionEngine.Guarded;
    var i := After(ctx, schedule).runs[r].call.intent;
    ResolvedIsReachable(ctx, i);
    Config.CleanConfigIsGuarded(c, Config.Core(ctx.policies, ctx.defaults, ctx.mode), PolicyOf(ctx, i));
    k := SatisfiedMeansPreconditionsHeld(ctx, schedule, r);
  }

  /** The soundness of ALLOW from the configuration to the decision: whatever
      policy and risk the intent resolves to, an initial ALLOW rests on declared
      dependencies, each fetched from a provider that supports it, none of them
      differing from what was declared, all of them good enough for the mode,
      with every demanded precondition true of the fetched contents. */
  lemma CleanConfigAllowsSoundly(ctx: Context, c: Config.RootConfig, i: Intent, fetches: seq<Fetch>, now: int)
    requires LoadedFrom(ctx, c) && |fetches| == |i.dependencies|
    requires DecideOn(ctx, i, Verdicts(ctx, i, fetches, now), false) == Allow
    ensures i.dependencies != []
    ensures forall k :: 0 <= k < |fetches| ==>
      GoodEvidence(ctx.engine, PolicyOf(ctx, i), i, k, fetches[k], now, ctx.mode)
    ensures forall s, k, wants ::
      (0 <= k < |fetches| && fetches[k] ==
        FetchCurrent(ctx.engine.hash, s, ctx.source, i.dependencies[k], wants, now)) ==>
        Supports(s, ctx.source, i.dependencies[k].ref)
  {
    hide PolicyOf, RiskOf, Decide, VerdictOn, Config.ConfigViolations, Config.BuildPolicyCore, DecisionEngine.Guarded;
    ResolvedIsReachable(ctx, i);
    Config.CleanConfigIsGuarded(c, Config.Core(ctx.policies, ctx.defaults, ctx.mode), PolicyOf(ctx, i));
    AllowIsSound(ctx.engine, PolicyOf(ctx, i), ctx.defaults, i, Some(RiskOf(ctx, i)), ctx.mode, fetches, now);
    hide EvaluateAll, Preconditions.AllHold, Preconditions.Evaluate, RouteTo, Demanded;
  }

  // ---- An approval that lets a failed precondition pass --------------------------------------------

  /** Demands the field "f" and escalates when the demand fails. */
  function EscalatingPolicy(): Config.PolicyConfig {
    Config.PolicyConfig([1], Matcher(None, None, None, None), None,
      Some(Config.FreshnessConfig(Version, None, None, None, None)),
      [Precondition([102], Exists, Undefined, None)], [], Outcomes(None, None, None, None, Some(Escalate)), None)
  }

  function EscalatingConfig(): Config.RootConfig {
    Config.RootConfig(Enforce, false, None, [EscalatingPolicy()])
  }

  lemma EscalatingConfigLoads()
    ensures Config.ConfigViolations(EscalatingConfig()) == []
    ensures Config.BuildPolicyCore(EscalatingConfig()).Some?
    ensures Config.BuildPolicyCore(EscalatingConfig()).value.mode == Enforce
    ensures var ps := Config.BuildPolicyCore(EscalatingConfig()).value.policies;
      ps == [Config.ResolvePolicyConfig(EscalatingPolicy()).value]
  {
    var c := EscalatingConfig();
    assert c.actions[..0] == [] && c.actions[1..] == [];
    assert Config.PolicyViolations(EscalatingPolicy()) == [];
    Config.CleanConfigLoadsExactly(c);
  }

  lemma MissingField(e: Engine, p: Precondition)
    requires p.operator == Exists
    ensures !Preconditions.Holds(e, p, map[])
  {
  }

  /** One dependency, fetched at the declared version without members, under a
      policy that looks at versions and demands a field. */
  lemma FreshButFailing(ctx: Context, run: Run, policy: Policy, d: Dependency, s: Snapshot, p: Precondition)
    requires PolicyOf(ctx, run.call.intent) == policy && run.call.intent.dependencies == [d] &&
      run.revalidatedAt == None
    requires run.fetches == [Fetched(s)] && run.call.intent.preconditions == []
    requires policy.preconditions == [p] && policy.dependencyRules == [] && policy.freshness.strategy == Version
    requires p.operator == Exists && p.dependency == None && s.metadata == map[]
    requires d.version.Some? && s.version == d.version && d.observedAt == None && d.contentHash == None
    ensures var vs := CurrentVerdicts(ctx, run); BasisOf(vs) == Fresh && !PreconditionsPassed(vs)
  {
    hide PolicyOf, Preconditions.Holds;
    var i := run.call.intent;
    MissingField(ctx.engine, p);
    assert AllPreconditions(policy, i) == [p];
    assert Route([p], 0, d.ref) == [p] + Route([p][1..], 0, d.ref) && Route([p][1..], 0, d.ref) == [];
    assert RouteTo(policy, i, 0) == [p];
    var v := VerdictOn(ctx.engine, policy, i, 0, Fetched(s), run.validatedAt);
    assert v.staleness == Fresh && v.preconditions == [PreconditionResult(p, false)];
    hide VerdictOn, RouteTo;
    var vs := CurrentVerdicts(ctx, run);
    assert vs == [v];
    assert vs[0] == v && !v.preconditions[0].passed;
  }

  /** Under a configuration with a clean report, an approved call whose fetched
      state is fresh and fails its precondition goes on to the claim. */
  lemma ApprovalCanPassFailedPrecondition(e: Engine, sensitive: Redaction.Sensitive, source: Text)
    returns (ctx: Context, run: Run)
    ensures LoadedFrom(ctx, EscalatingConfig()) && run.call.approved && run.pc == Settling
    ensures var vs := CurrentVerdicts(ctx, run); BasisOf(vs) == Fresh && !PreconditionsPassed(vs)
    ensures LetsGoOn(ctx, run) && forall w :: PlanSettling(ctx, w, run) == (run.(pc := Claiming), Nothing)
  {
    EscalatingConfigLoads();
    var core := Config.BuildPolicyCore(EscalatingConfig()).value;
    ctx := Context(e, sensitive, core.policies, core.defaults, None, core.mode, source);
    var ref := Ref(source, [2], [3]);
    var d := Dependency(ref, Some([118]), None, None);
    var snapshot := Snapshot(ref, None, Some([118]), None, map[], 0, false, false);
    var intent := Intent([], [], None, Obj(map[]), [d], [], None, Some([1]));
    var call := Call(7, true, true, intent, Executor(false, false, ref, map[]));
    run := Run(call, Settling, Idle, 0, 0, [Fetched(snapshot)], None, 0, []);
    assert PolicyOf(ctx, intent) == core.policies[0];
    FreshButFailing(ctx, run, core.policies[0], d, snapshot, EscalatingPolicy().preconditions[0]);
    hide PolicyOf, CurrentVerdicts, RiskOf, Config.ConfigViolations, Config.BuildPolicyCore;
    BrokenEvidenceGoesOnExactly(ctx, run);
  }

  // ---- The re-check ------------------------------------------------------------------------------

  /** The two fetches found the same state, or a collision of the hash. */
  predicate SameStateFound(h: Hash, run: Run) {
    var before, after := ExpectedState(run), EntriesOf(SnapshotsOf(run.refetches));
    (after != [] && before == after) ||
      Collision(h, CanonicalJson(EntriesValue(before)), CanonicalJson(EntriesValue(after)))
  }

  /** Under the re-check, an executor without a condition starts only when
      nothing was declared or the re-check found, in the same order, the very
      entries validation had found. */
  lemma RecheckedStartFoundTheSame(ctx: Context, schedule: seq<Step>, r: RunId)
    requires var w := After(ctx, schedule);
      r in w.runs && Unconditional(w.runs[r]) && PolicyOf(ctx, w.runs[r].call.intent).execution.requireFresh
    ensures var run := After(ctx, schedule).runs[r];
      run.call.intent.dependencies == [] || SameStateFound(ctx.engine.hash, run)
  {
    hide After, PolicyOf;
    var w := After(ctx, schedule);
    EveryCallIsKnown(ctx, schedule, r);
    hide EntriesOf, SnapshotsOf, EntriesValue, Fingerprint, Conditional;
    FingerprintSeparates(ctx.engine.hash, EntriesOf(SnapshotsOf(w.runs[r].refetches)), ExpectedState(w.runs[r]));
  }

  lemma {:induction false} CountFetched(fetches: seq<Fetch>)
    ensures |SnapshotsOf(fetches)| <= |fetches|
    ensures |SnapshotsOf(fetches)| == |fetches| <==> forall i :: 0 <= i < |fetches| ==> fetches[i].Fetched?
    ensures |SnapshotsOf(fetches)| == |fetches| ==> forall i :: 0 <= i < |fetches| ==>
      SnapshotsOf(fetches)[i] == fetches[i].snapshot
  {
    if fetches != [] { CountFetched(fetches[..|fetches| - 1]); }
  }

  ghost predicate FoundAgain(fetches: seq<Fetch>, refetches: seq<Fetch>) {
    && |refetches| == |fetches|
    && (forall i :: 0 <= i < |refetches| ==> refetches[i].Fetched?)
    && (forall i :: 0 <= i < |refetches| && fetches[i].Fetched? ==>
      SameIdentity(fetches[i].snapshot, refetches[i].snapshot))
  }

  predicate SameIdentity(a: Snapshot, b: Snapshot) {
    RefKey(a.ref) == RefKey(b.ref) && a.version == b.version && a.contentHash == b.contentHash
  }

  lemma SameEntriesFoundAgain(fetches: seq<Fetch>, refetches: seq<Fetch>)
    requires forall i :: 0 <= i < |fetches| ==> fetches[i].Fetched?
    requires EntriesOf(SnapshotsOf(fetches)) == EntriesOf(SnapshotsOf(refetches)) && |refetches| <= |fetches|
    ensures FoundAgain(fetches, refetches)
  {
    CountFetched(fetches);
    CountFetched(refetches);
    var a, b := SnapshotsOf(fetches), SnapshotsOf(refetches);
    hide SnapshotsOf;
    forall i | 0 <= i < |a| ensures SameIdentity(a[i], b[i]) {
      assert EntriesOf(a)[i] == EntriesOf(b)[i];
    }
    hide EntriesOf, SameIdentity;
  }

  /** So a provider that fails between the two fetches always blocks: where
      validation had fetched every dependency, the re-check fetched every one
      again, at the same version and contents. */
  lemma RecheckFetchedEverything(ctx: Context, schedule: seq<Step>, r: RunId)
    requires var w := After(ctx, schedule);
      r in w.runs && Unconditional(w.runs[r]) && PolicyOf(ctx, w.runs[r].call.intent).execution.requireFresh
    requires var run := After(ctx, schedule).runs[r];
      forall i :: 0 <= i < |run.fetches| ==> run.fetches[i].Fetched?
    ensures var run := After(ctx, schedule).runs[r];
      var before, after := EntriesValue(ExpectedState(run)), EntriesValue(EntriesOf(SnapshotsOf(run.refetches)));
      run.call.intent.dependencies == [] || FoundAgain(run.fetches, run.refetches) ||
        Collision(ctx.engine.hash, CanonicalJson(before), CanonicalJson(after))
  {
    hide After, PolicyOf, FoundAgain;
    var w := After(ctx, schedule);
    var run := w.runs[r];
    RecheckedStartFoundTheSame(ctx, schedule, r);
    EveryCallIsKnown(ctx, schedule, r);
    hide EntriesOf, EntriesValue, SnapshotsOf, Conditional, CurrentDecision, RecheckBlocks;
    if EntriesOf(SnapshotsOf(run.fetches)) == EntriesOf(SnapshotsOf(run.refetches)) {
      SameEntriesFoundAgain(run.fetches, run.refetches);
    }
  }

  /** The re-check is on unless the file turns it off: from a configuration no policy
      of which does, every execution without a condition found again what it was
      validated on. */
  lemma DefaultConfigRechecks(ctx: Context, c: Config.RootConfig, schedule: seq<Step>, r: RunId)
    requires LoadedFrom(ctx, c)
    requires forall p :: p in c.actions ==> p.execution == None || p.execution.value.requireFresh != Some(false)
    requires var w := After(ctx, schedule); r in w.runs && Unconditional(w.runs[r])
    ensures var run := After(ctx, schedule).runs[r];
      run.call.intent.dependencies == [] || SameStateFound(ctx.engine.hash, run)
  {
    hide After, PolicyOf, Config.ConfigViolations, Config.BuildPolicyCore, SameStateFound, Unconditional;
    var run := After(ctx, schedule).runs[r];
    var policy := PolicyOf(ctx, run.call.intent);
    ResolvedIsReachable(ctx, run.call.intent);
    Config.LoadedSaysExactly(c);
    hide Config.FreshnessFrom, Config.DefaultFreshness, Config.OutcomesFrom, Config.RuleFrom;
    if policy in ctx.policies {
      var i :| 0 <= i < |ctx.policies| && ctx.policies[i] == policy;
      assert Config.PolicyFrom(c.actions[i], policy) && c.actions[i] in c.actions;
    }
    RecheckedStartFoundTheSame(ctx, schedule, r);
  }

  // ---- A re-check that blocks --------------------------------------------------------------------

  lemma SwapGrows(w: World, r: RunId, key: Text, s: State)
    requires r in w.runs && key in s.resources && key in w.provider.resources
    ensures w.tape <= SwapIn(w, r, key, s).tape
  {
    hide Recorded;
  }

  lemma ActGrows(w: World, r: RunId)
    requires r in w.runs
    ensures w.tape <= ExecutorActs(w, r).tape
  {
    var key, s := ActIs(w, r);
    hide ExecutorActs, SwapIn;
    if ExecutorActs(w, r) != WithTask(w, r, Refused) {
      SwapGrows(w, r, key, s);
    }
  }

  lemma TapeGrows(ctx: Context, w: World, step: Step)
    requires Enabled(w, step)
    ensures w.tape <= Next(ctx, w, step).tape
  {
    hide Plan, Perform, ExecutorActs, Recorded, Put, Provider.Advance, TimedOut;
    if step.Advance? {
      var (run, write) := Plan(ctx, w, step.run, step.answered);
      PerformFrame(ctx, w, step.run, run, write);
    } else if step.Act? {
      ActGrows(w, step.run);
    }
  }

  lemma {:induction false} HistoryGrows(ctx: Context, schedule: seq<Step>, more: seq<Step>)
    ensures After(ctx, schedule).tape <= After(ctx, schedule + more).tape
  {
    hide Enabled, Next;
    if more == [] {
      assert schedule + more == schedule;
    } else {
      var less, step := more[..|more| - 1], more[|more| - 1];
      HistoryGrows(ctx, schedule, less);
      assert (schedule + more)[..|schedule + more| - 1] == schedule + less;
      var w := After(ctx, schedule + less);
      if Enabled(w, step) { TapeGrows(ctx, w, step); }
    }
  }

  lemma {:induction false} FrozenStays(tape: seq<Event>, f: nat, r: RunId, id: Store.Id)
    requires Lawful(tape) && f < |tape| && tape[f] == Froze(r, id)
    ensures SlotOf(tape, id) == HeldBy(r)
  {
    At(tape, f);
    StaysStuck(tape, f + 1, |tape|, r, id);
    assert tape[..|tape|] == tape;
    HolderExactly(tape, r, id);
  }

  /** A re-check that blocks leaves the authorization live for good: whatever
      happens later, it is never consumed, and nothing is claimed or started
      under the action id again. */
  lemma BlockedRecheckFreezes(ctx: Context, schedule: seq<Step>, more: seq<Step>, r: RunId, k: nat)
    requires var w := After(ctx, schedule);
      r in w.runs && w.runs[r].pc == Concluding(Recheck) && RecheckBlocks(ctx, w.runs[r])
    ensures var w, w' := After(ctx, schedule), After(ctx, schedule + [Advance(r, true)] + more);
      var id := w.runs[r].call.id;
      && Store.Live(w'.authorizations, id) && w'.authorizations[id].holder == r
      && (|w.tape| < k < |w'.tape| && w'.tape[k].id == id ==>
        !w'.tape[k].Claimed? && !w'.tape[k].Started? && !w'.tape[k].Consumed?)
  {
    var w := After(ctx, schedule);
    var id := w.runs[r].call.id;
    var blocked := schedule + [Advance(r, true)];
    BlockLeavesItsMark(ctx, schedule, r);
    HistoryGrows(ctx, blocked, more);
    EveryScheduleIsLawful(ctx, blocked + more);
    hide After, RecheckBlocks;
    var w' := After(ctx, blocked + more);
    assert w'.tape[|w.tape|] == Froze(r, id);
    FrozenStays(w'.tape, |w.tape|, r, id);
    Locally(w', r, id);
    if |w.tape| < k < |w'.tape| && w'.tape[k].id == id { FrozenForGood(w'.tape, |w.tape|, k); }
  }

  lemma BlockLeavesItsMark(ctx: Context, schedule: seq<Step>, r: RunId)
    requires var w := After(ctx, schedule);
      r in w.runs && w.runs[r].pc == Concluding(Recheck) && RecheckBlocks(ctx, w.runs[r])
    ensures var w := After(ctx, schedule);
      After(ctx, schedule + [Advance(r, true)]).tape == w.tape + [Froze(r, w.runs[r].call.id)]
  {
    var w := After(ctx, schedule);
    var blocked := schedule + [Advance(r, true)];
    assert blocked[..|blocked| - 1] == schedule;
    hide Plan, Perform;
    var (run, write) := Plan(ctx, w, r, true);
    assert After(ctx, blocked) == Perform(ctx, w, r, run, write);
    hide After;
    BlockingStep(ctx, w, r);
  }

  lemma BlockingStep(ctx: Context, w: World, r: RunId)
    requires r in w.runs && w.runs[r].pc == Concluding(Recheck) && RecheckBlocks(ctx, w.runs[r])
    ensures var (run, write) := Plan(ctx, w, r, true);
      Perform(ctx, w, r, run, write).tape == w.tape + [Froze(r, w.runs[r].call.id)]
  {
    hide RecheckBlocks, PlanFetch, PlanSettling, PlanClaim, PlanGuards;
  }
}

/** What an effect applied through the provider's compare-and-swap stands on:
    in every schedule the provider applies a mutation only to the state the
    call had fetched and decided on, and to no version twice. */
module ProtocolEffects {
  import opened Wrappers
  import opened Text
  import opened Json
  import Hashing
  import opened Domain
  import opened Provider
  import opened Dependencies
  import Store
  import Approval
  import opened History
  import opened Protocol
  import opened ProtocolClaims

  // ---- What is known of a call ---------------------------------------------------------

  /** The snapshot tells a version the provider assigned, with the contents it assigned it to. */
  predicate Witnessed(births: map<Text, Birth>, s: Snapshot) {
    s.version.Some? && s.version.value in births && births[s.version.value] == Birth(KeyOf(s.ref), s.metadata)
  }

  ghost predicate AllWitnessed(births: map<Text, Birth>, fetches: seq<Fetch>) {
    forall i :: 0 <= i < |fetches| && fetches[i].Fetched? ==> Witnessed(births, fetches[i].snapshot)
  }

  /** The call is past its decision on the way to the executor. */
  predicate Decided(pc: Pc) {
    match pc
    case Claiming => true
    case Evaluating(p) => p != Validation
    case Fetching(p, _) => p != Validation
    case Concluding(p) => p != Validation
    case Starting => true
    case InFlight => true
    case Consuming(_) => true
    case Finished(_) => true
    case _ => false
  }

  /** Every dependency was attempted. */
  predicate FullyFetched(pc: Pc) {
    Decided(pc) || pc == Concluding(Validation) || pc == ConsumedGuard || pc == Revalidating || pc == Settling ||
      pc.GateHolding?
  }

  /** The call resolved its policy. */
  predicate PolicyChosen(pc: Pc) {
    pc.Evaluating? || pc.Fetching? || FullyFetched(pc)
  }

  /** The executor was, or is about to be, started without a condition. */
  predicate Unconditional(run: Run) {
    !Conditional(run) && (run.pc in {Starting, InFlight, Consuming(NotAttempted), Finished(NotAttempted)})
  }

  /** ALLOW, or an escalation that was approved. */
  predicate LetsGoOn(ctx: Context, run: Run) {
    CurrentDecision(ctx, run) == Allow || (run.call.approved && CurrentDecision(ctx, run) == Escalate)
  }

  /** The decision lets the call go on, and without approval a required
      condition can be enforced. */
  predicate Cleared(ctx: Context, run: Run) {
    && LetsGoOn(ctx, run)
    && (PolicyOf(ctx, run.call.intent).execution.requireConditional && !run.call.approved ==> Conditional(run))
  }

  ghost predicate Reasoned(ctx: Context, run: Run) {
    && (FullyFetched(run.pc) ==> |run.fetches| == |run.call.intent.dependencies|)
    && (PolicyChosen(run.pc) ==> !PolicyMissing(ctx, run.call.intent))
    && (Decided(run.pc) && ctx.mode != Observe ==> Cleared(ctx, run))
    && (Unconditional(run) && PolicyOf(ctx, run.call.intent).execution.requireFresh ==> !RecheckBlocks(ctx, run))
  }

  /** The mutation the provider applied for this call: to the version the call
      was authorized on, with the contents that version stands for, and leaving
      those contents under the executor's changes. */
  ghost predicate SwapOf(births: map<Text, Birth>, e: Event, r: RunId, run: Run) {
    && e.Swapped? && e.run == r && e.id == run.call.id && e.key == KeyOf(run.call.executor.target)
    && Forwarded(run) == Some(e.before.version)
    && e.before.version in births && births[e.before.version] == Birth(e.key, e.before.metadata)
    && e.after.version in births && births[e.after.version] == Birth(e.key, e.after.metadata)
    && Overridden(e.before.metadata, run.call.executor.changes, e.after.metadata)
  }

  ghost predicate Known(ctx: Context, births: map<Text, Birth>, tape: seq<Event>, r: RunId, run: Run) {
    && FetchedFor(run.call.intent, run.fetches) && FetchedFor(run.call.intent, run.refetches)
    && AllWitnessed(births, run.fetches)
    && Reasoned(ctx, run)
    && (HasApplied(run.task) ==> exists k :: 0 <= k < |tape| && SwapOf(births, tape[k], r, run))
  }

  /** Every applied mutation is in the provider's log, and no version of a
      resource was mutated twice. */
  ghost predicate SwapsLogged(s: State, tape: seq<Event>) {
    && (forall k :: 0 <= k < |tape| && tape[k].Swapped? ==>
      LeftBehind(s, tape[k].key, tape[k].before.version, tape[k].after.version))
    && (forall i, j :: 0 <= i < j < |tape| && tape[i].Swapped? && tape[j].Swapped? && tape[i].key == tape[j].key ==>
      tape[i].before.version != tape[j].before.version)
  }

  /** The log has the step from the one version to the other. */
  ghost predicate LeftBehind(s: State, key: Text, version: Text, next: Text) {
    exists m :: 0 <= m < |LogOf(s, key)| && LogOf(s, key)[m].previousVersion == version &&
      LogOf(s, key)[m].newVersion == next
  }

  ghost predicate Effects(ctx: Context, w: World) {
    && VersionsHold(w.provider, w.births)
    && SwapsLogged(w.provider, w.tape)
    && forall r :: r in w.runs ==> Known(ctx, w.births, w.tape, r, w.runs[r])
  }

  // ---- One step of a call -------------------------------------------------------------------

  /** Whatever the provider answers is witnessed. */
  lemma AnswersWitnessed(h: Hashing.Hash, s: State, births: map<Text, Birth>, d: Dependency, at: int)
    requires VersionsHold(s, births)
    ensures var c := GetConditional(h, s, d, at); c.Some? ==> c.value.ref == d.ref && Witnessed(births, c.value)
    ensures var f := GetState(h, s, d.ref, at); f.Fetched? ==> f.snapshot.ref == d.ref && Witnessed(births, f.snapshot)
  {
    hide HistoryKept, Hashing.ContentHash;
  }

  lemma AttemptKept(births: map<Text, Birth>, intent: Intent, fetches: seq<Fetch>, f: Fetch)
    requires FetchedFor(intent, fetches) && |fetches| < |intent.dependencies|
    requires f.Fetched? ==> f.snapshot.ref == intent.dependencies[|fetches|].ref
    ensures FetchedFor(intent, fetches + [f])
    ensures AllWitnessed(births, fetches) && (f.Fetched? ==> Witnessed(births, f.snapshot)) ==>
      AllWitnessed(births, fetches + [f])
  {
    hide Witnessed;
  }

  lemma FetchWitnessed(ctx: Context, s: State, births: map<Text, Birth>, run: Run, answered: bool)
    requires run.pc.Fetching? && VersionsHold(s, births)
    requires FetchedFor(run.call.intent, run.fetches) && FetchedFor(run.call.intent, run.refetches)
    requires AllWitnessed(births, run.fetches)
    ensures var run' := PlanFetch(ctx, s, run, answered);
      && FetchedFor(run.call.intent, run'.fetches) && FetchedFor(run.call.intent, run'.refetches)
      && AllWitnessed(births, run'.fetches)
      && run'.call == run.call && run'.task == run.task && run'.validatedAt == run.validatedAt &&
        run'.revalidatedAt == run.revalidatedAt
      && (run.pc.purpose != Validation ==> run'.fetches == run.fetches)
      && run'.pc in {Fetching(run.pc.purpose, true), Fetching(run.pc.purpose, false), Concluding(run.pc.purpose)}
      && (run'.pc == Concluding(Validation) ==> |run'.fetches| == |run.call.intent.dependencies|)
  {
    hide PolicyOf, RouteTo, VersionsHold, FetchedFor, AllWitnessed, GetConditional, GetState, Supports, Witnessed;
    var p, intent := run.pc.purpose, run.call.intent;
    var attempts := FetchesFor(run, p);
    assert FetchedFor(intent, attempts);
    FetchedAtMost(intent, attempts);
    if |attempts| < |intent.dependencies| {
      var d, at := intent.dependencies[|attempts|], if p == Validation then run.validatedAt else run.recheckedAt;
      AnswersWitnessed(ctx.engine.hash, s, births, d, at);
      AttemptKept(births, intent, attempts, Lost);
      AttemptKept(births, intent, attempts, GetState(ctx.engine.hash, s, d.ref, at));
      var c := GetConditional(ctx.engine.hash, s, d, at);
      if c.Some? { AttemptKept(births, intent, attempts, Fetched(c.value)); }
    }
  }

  lemma FetchedAtMost(intent: Intent, fetches: seq<Fetch>)
    requires FetchedFor(intent, fetches)
    ensures |fetches| <= |intent.dependencies|
  {
  }

  /** What most steps leave of a call as it was. */
  predicate SameFindings(run: Run, run': Run) {
    && run'.call == run.call && run'.fetches == run.fetches && HasApplied(run'.task) == HasApplied(run.task)
  }

  lemma FindingsKeep(ctx: Context, births: map<Text, Birth>, tape: seq<Event>, r: RunId, run: Run, run': Run)
    requires Known(ctx, births, tape, r, run) && SameFindings(run, run')
    requires FetchedFor(run.call.intent, run'.refetches) && Reasoned(ctx, run')
    ensures Known(ctx, births, tape, r, run')
  {
    hide FetchedFor, AllWitnessed, Reasoned, EntriesOf, SnapshotsOf, FindEntry;
    if HasApplied(run.task) {
      var k :| 0 <= k < |tape| && SwapOf(births, tape[k], r, run);
      assert SwapOf(births, tape[k], r, run');
    }
  }

  lemma PlanKnown(ctx: Context, w: World, r: RunId, answered: bool, p: Phase)
    requires r in w.runs && Fits(w.runs[r], p) && VersionsHold(w.provider, w.births)
    requires Known(ctx, w.births, w.tape, r, w.runs[r])
    ensures Known(ctx, w.births, w.tape, r, Plan(ctx, w, r, answered).0)
  {
    var run := w.runs[r];
    if run.pc.Fetching? {
      FetchKnown(ctx, w, r, answered, p);
    } else if run.pc == Evaluating(Validation) {
      hide CurrentDecision, EntriesOf, SnapshotsOf;
      assert !HasApplied(run.task);
    } else {
      PlanReasoned(ctx, w, r, answered);
      PlanFits(ctx, w, r, answered, p);
      hide Known, Reasoned, Fits, Plan, AllWitnessed;
      FindingsKeep(ctx, w.births, w.tape, r, run, Plan(ctx, w, r, answered).0);
    }
  }

  lemma FetchKnown(ctx: Context, w: World, r: RunId, answered: bool, p: Phase)
    requires r in w.runs && Fits(w.runs[r], p) && VersionsHold(w.provider, w.births)
    requires Known(ctx, w.births, w.tape, r, w.runs[r]) && w.runs[r].pc.Fetching?
    ensures Known(ctx, w.births, w.tape, r, PlanFetch(ctx, w.provider, w.runs[r], answered))
  {
    hide VersionsHold, EntriesOf, SnapshotsOf, FindEntry, PlanFetch;
    hide FetchedFor, AllWitnessed, Verdicts, Recomputed, DecideOn;
    var run := w.runs[r];
    FetchWitnessed(ctx, w.provider, w.births, run, answered);
    var run' := PlanFetch(ctx, w.provider, run, answered);
    if run.pc.purpose == Validation {
      assert !HasApplied(run.task);
    } else {
      FindingsKeep(ctx, w.births, w.tape, r, run, run');
    }
  }

  ghost predicate ReasonsKept(ctx: Context, run: Run, run': Run) {
    Reasoned(ctx, run') && run'.fetches == run.fetches && run'.call == run.call &&
      (run'.refetches == run.refetches || run'.refetches == [])
  }

  /** Every other step keeps the reasons a call has for going on. */
  lemma PlanReasoned(ctx: Context, w: World, r: RunId, answered: bool)
    requires r in w.runs && Reasoned(ctx, w.runs[r])
    requires !w.runs[r].pc.Fetching? && w.runs[r].pc != Evaluating(Validation)
    ensures ReasonsKept(ctx, w.runs[r], Plan(ctx, w, r, answered).0)
  {
    hide Reasoned, ReasonsKept, PlanFetch, PlanConclusion, PlanSettling;
    hide PlanClaim, PlanGuards, CurrentDecision, ReportOf, Conditional;
    var run := w.runs[r];
    if run.pc.Concluding? {
      ConclusionReasoned(ctx, w, run);
    } else if run.pc == Settling {
      SettlingReasoned(ctx, w, run);
    } else if run.pc == Claiming {
      ClaimReasoned(ctx, w, r, run);
    } else if Progressing(run.pc) {
      ProgressReasoned(ctx, w, r, answered);
    } else {
      GuardsReasoned(ctx, w, run);
    }
  }

  lemma GuardsReasoned(ctx: Context, w: World, run: Run)
    requires Reasoned(ctx, run)
    ensures ReasonsKept(ctx, run, PlanGuards(ctx, w, run).0)
  {
    hide CurrentDecision, Conditional, RecheckBlocks, PolicyOf, InitialDecision, Approval.Binds, PolicyMissing;
  }

  lemma ConclusionReasoned(ctx: Context, w: World, run: Run)
    requires Reasoned(ctx, run) && run.pc.Concluding?
    ensures ReasonsKept(ctx, run, PlanConclusion(ctx, w, run).0)
  {
    hide Verdicts, Recomputed, DecideOn, EntriesOf, SnapshotsOf, Hashing.Fingerprint, PolicyOf;
  }

  lemma SettlingReasoned(ctx: Context, w: World, run: Run)
    requires Reasoned(ctx, run) && run.pc == Settling
    ensures ReasonsKept(ctx, run, PlanSettling(ctx, w, run).0)
  {
    hide Verdicts, Recomputed, DecideOn, EntriesOf, SnapshotsOf, RecheckBlocks, PolicyOf, GateOutcome;
  }

  lemma ClaimReasoned(ctx: Context, w: World, r: RunId, run: Run)
    requires Reasoned(ctx, run) && run.pc == Claiming
    ensures ReasonsKept(ctx, run, PlanClaim(ctx, w, r, run).0)
  {
    hide Verdicts, Recomputed, DecideOn, EntriesOf, SnapshotsOf, RecheckBlocks, PolicyOf, Hashing.Fingerprint,
      DeadlineOf;
  }

  lemma ProgressReasoned(ctx: Context, w: World, r: RunId, answered: bool)
    requires r in w.runs && Reasoned(ctx, w.runs[r]) && w.runs[r].pc != Evaluating(Validation) &&
      Progressing(w.runs[r].pc)
    ensures ReasonsKept(ctx, w.runs[r], Plan(ctx, w, r, answered).0)
  {
    hide Verdicts, Recomputed, DecideOn, EntriesOf, SnapshotsOf, Hashing.Fingerprint;
    hide PolicyOf, PlanFetch, PlanConclusion, PlanSettling, PlanClaim, PlanGuards;
  }

  // ---- The whole world ----------------------------------------------------------------------

  ghost predicate Extends(births: map<Text, Birth>, births': map<Text, Birth>) {
    forall v :: v in births ==> v in births' && births'[v] == births[v]
  }

  lemma KnownGrows(ctx: Context, w: World, w': World, r: RunId, run: Run)
    requires Known(ctx, w.births, w.tape, r, run) && Extends(w.births, w'.births) && w.tape <= w'.tape
    ensures Known(ctx, w'.births, w'.tape, r, run)
  {
    hide FetchedFor, Reasoned, Forwarded;
    if HasApplied(run.task) {
      var k :| 0 <= k < |w.tape| && SwapOf(w.births, w.tape[k], r, run);
      assert SwapOf(w'.births, w'.tape[k], r, run);
    }
  }

  /** A step concerns one call; what is known of the others only grows. */
  lemma OthersKeep(ctx: Context, w: World, w': World, r: RunId)
    requires Effects(ctx, w) && Extends(w.births, w'.births) && w.tape <= w'.tape
    requires r in w'.runs && w'.runs == w.runs[r := w'.runs[r]]
    requires Known(ctx, w'.births, w'.tape, r, w'.runs[r])
    requires VersionsHold(w'.provider, w'.births) && SwapsLogged(w'.provider, w'.tape)
    ensures Effects(ctx, w')
  {
    hide Known, VersionsHold, SwapsLogged, Extends;
    forall q | q in w'.runs ensures Known(ctx, w'.births, w'.tape, q, w'.runs[q]) {
      if q != r { KnownGrows(ctx, w, w', q, w.runs[q]); }
    }
  }

  lemma LoggedBeside(s: State, tape: seq<Event>, tape': seq<Event>)
    requires SwapsLogged(s, tape) && tape <= tape' && |tape'| <= |tape| + 1
    requires |tape'| == |tape| + 1 ==> !tape'[|tape|].Swapped?
    ensures SwapsLogged(s, tape')
  {
    hide LeftBehind;
  }

  lemma PerformFrame(ctx: Context, w: World, r: RunId, run: Run, write: Write)
    ensures var w' := Perform(ctx, w, r, run, write);
      && w'.provider == w.provider && w'.births == w.births && w'.runs == w.runs[r := run]
      && w.tape <= w'.tape && |w'.tape| <= |w.tape| + 1
      && (|w'.tape| == |w.tape| + 1 ==> !w'.tape[|w.tape|].Swapped?)
  {
    hide RiskOf;
  }

  lemma AdvanceEffects(ctx: Context, w: World, r: RunId, answered: bool)
    requires Inv(w) && Effects(ctx, w) && r in w.runs
    ensures var (run, write) := Plan(ctx, w, r, answered); Effects(ctx, Perform(ctx, w, r, run, write))
  {
    hide Inv, Plan, Perform, Fits, Fitting, PhaseOf, SwapsBy, Known, VersionsHold, SwapsLogged;
    Locally(w, r, w.runs[r].call.id);
    PlanKnown(ctx, w, r, answered, PhaseOf(w.tape, r));
    var (run, write) := Plan(ctx, w, r, answered);
    var w' := Perform(ctx, w, r, run, write);
    PerformFrame(ctx, w, r, run, write);
    KnownGrows(ctx, w, w', r, run);
    LoggedBeside(w.provider, w.tape, w'.tape);
    OthersKeep(ctx, w, w', r);
  }

  lemma TaskEffects(ctx: Context, w: World, r: RunId, task: Task)
    requires Effects(ctx, w) && r in w.runs && HasApplied(task) == HasApplied(w.runs[r].task)
    ensures Effects(ctx, WithTask(w, r, task))
  {
    var run := w.runs[r].(task := task);
    assert Known(ctx, w.births, w.tape, r, w.runs[r]);
    SameReasons(ctx, w.runs[r], task);
    FindingsKeep(ctx, w.births, w.tape, r, w.runs[r], run);
    hide Known, VersionsHold, SwapsLogged;
    OthersKeep(ctx, w, WithTask(w, r, task), r);
  }

  lemma SameReasons(ctx: Context, run: Run, task: Task)
    requires Reasoned(ctx, run)
    ensures Reasoned(ctx, run.(task := task))
  {
    hide Verdicts, Recomputed, DecideOn, EntriesOf, SnapshotsOf, Hashing.Fingerprint, PolicyOf;
  }

  lemma TimeoutEffects(ctx: Context, w: World, r: RunId)
    requires Effects(ctx, w) && r in w.runs && w.runs[r].pc == InFlight
    ensures Effects(ctx, w.(runs := w.runs[r := TimedOut(w.runs[r])]))
  {
    assert Known(ctx, w.births, w.tape, r, w.runs[r]);
    TimeoutReasoned(ctx, w.runs[r]);
    FindingsKeep(ctx, w.births, w.tape, r, w.runs[r], TimedOut(w.runs[r]));
    hide Known, VersionsHold, SwapsLogged, TimedOut;
    OthersKeep(ctx, w, w.(runs := w.runs[r := TimedOut(w.runs[r])]), r);
  }

  lemma TimeoutReasoned(ctx: Context, run: Run)
    requires Reasoned(ctx, run) && run.pc == InFlight
    ensures Reasoned(ctx, TimedOut(run))
  {
    hide Verdicts, Recomputed, DecideOn, EntriesOf, SnapshotsOf, Hashing.Fingerprint, PolicyOf;
  }

  lemma BeginEffects(ctx: Context, w: World, r: RunId, call: Call)
    requires Effects(ctx, w) && Enabled(w, Begin(r, call))
    ensures Effects(ctx, BeginRun(w, r, call))
  {
    var w' := BeginRun(w, r, call);
    NewRunKnown(ctx, w'.births, w'.tape, r, w'.runs[r]);
    hide Known, VersionsHold, SwapsLogged;
    LoggedBeside(w.provider, w.tape, w'.tape);
    OthersKeep(ctx, w, w', r);
  }

  lemma NewRunKnown(ctx: Context, births: map<Text, Birth>, tape: seq<Event>, r: RunId, run: Run)
    requires run.fetches == [] && run.refetches == [] && run.task == Idle &&
      run.pc in {ReadEscalation, EscalationGuard, Validating}
    ensures Known(ctx, births, tape, r, run)
  {
    hide CurrentDecision, EntriesOf, SnapshotsOf;
  }

  // ---- Steps that change the provider ----------------------------------------------------------

  /** A mutation logs what it left behind and forgets nothing. */
  lemma LogKept(s: State, tape: seq<Event>, key: Text, changes: map<Text, Value>, at: int)
    requires key in s.resources && SwapsLogged(s, tape)
    ensures SwapsLogged(Provider.Advance(s, key, changes, at), tape)
    ensures var s' := Provider.Advance(s, key, changes, at);
      LeftBehind(s', key, s.resources[key].version, s'.resources[key].version)
  {
    var s' := Provider.Advance(s, key, changes, at);
    hide VersionText;
    var log := LogOf(s, key);
    assert LogOf(s', key)[|log|].previousVersion == s.resources[key].version;
    forall k | 0 <= k < |tape| && tape[k].Swapped?
      ensures LeftBehind(s', tape[k].key, tape[k].before.version, tape[k].after.version)
    {
      assert LeftBehind(s, tape[k].key, tape[k].before.version, tape[k].after.version);
      var m :| 0 <= m < |LogOf(s, tape[k].key)| &&
        LogOf(s, tape[k].key)[m].previousVersion == tape[k].before.version &&
        LogOf(s, tape[k].key)[m].newVersion == tape[k].after.version;
      assert LogOf(s', tape[k].key)[m] == LogOf(s, tape[k].key)[m];
    }
  }

  /** The provider applies a mutation only at a version never mutated before. */
  lemma SwapIsFirst(s: State, births: map<Text, Birth>, tape: seq<Event>, e: Event)
    requires VersionsHold(s, births) && SwapsLogged(s, tape)
    requires e.Swapped? && e.key in s.resources && e.before == s.resources[e.key]
    ensures forall k :: 0 <= k < |tape| && tape[k].Swapped? && tape[k].key == e.key ==>
      tape[k].before.version != e.before.version
  {
    hide VersionsHold;
    LeftBehindForGood(s, births, e.key);
    forall k | 0 <= k < |tape| && tape[k].Swapped? && tape[k].key == e.key
      ensures tape[k].before.version != e.before.version
    {
      assert LeftBehind(s, e.key, tape[k].before.version, tape[k].after.version);
    }
  }

  lemma SwapInLogged(s: State, tape: seq<Event>, e: Event)
    requires SwapsLogged(s, tape) && e.Swapped? && LeftBehind(s, e.key, e.before.version, e.after.version)
    requires forall k :: 0 <= k < |tape| && tape[k].Swapped? && tape[k].key == e.key ==>
      tape[k].before.version != e.before.version
    ensures SwapsLogged(s, tape + [e])
  {
    hide LeftBehind;
  }

  lemma SwapKnown(ctx: Context, births: map<Text, Birth>, tape: seq<Event>, r: RunId, run: Run, e: Event)
    requires Known(ctx, births, tape, r, run) && SwapOf(births, e, r, run)
    ensures Known(ctx, births, tape + [e], r, run.(task := Applied))
  {
    var run' := run.(task := Applied);
    SameReasons(ctx, run, Applied);
    hide FetchedFor, AllWitnessed, Reasoned, EntriesOf, SnapshotsOf, FindEntry;
    assert (tape + [e])[|tape|] == e && SwapOf(births, e, r, run');
  }

  lemma ActEffects(ctx: Context, w: World, r: RunId)
    requires Effects(ctx, w) && r in w.runs && w.runs[r].task == Waiting
    ensures Effects(ctx, ExecutorActs(w, r))
  {
    hide Effects, WithTask, SwapIn, Forwarded, Recorded, Provider.Advance;
    var run := w.runs[r];
    var key := KeyOf(run.call.executor.target);
    if ExecutorActs(w, r) == WithTask(w, r, Refused) {
      TaskEffects(ctx, w, r, Refused);
    } else {
      SwapEffects(ctx, w, r, key,
        GetOr(w.provider.mutationClock, w.provider.resources[key].updatedAt));
    }
  }

  /** What a mutation does to the provider's invariants. */
  lemma MutationHolds(
    s: State, births: map<Text, Birth>, tape: seq<Event>, key: Text, changes: map<Text, Value>, at: int)
    requires VersionsHold(s, births) && SwapsLogged(s, tape) && key in s.resources
    ensures key in Provider.Advance(s, key, changes, at).resources
    ensures var s' := Provider.Advance(s, key, changes, at); var births' := Recorded(births, s', key);
      && VersionsHold(s', births') && Extends(births, births') && SwapsLogged(s', tape)
      && LeftBehind(s', key, s.resources[key].version, s'.resources[key].version)
      && Overridden(s.resources[key].metadata, changes, s'.resources[key].metadata)
    ensures s.resources[key].version in births &&
      births[s.resources[key].version] == Birth(key, s.resources[key].metadata)
  {
    AdvanceHolds(s, births, key, changes, at);
    LogKept(s, tape, key, changes, at);
    OverriddenExactly(s.resources[key].metadata, changes, s.resources[key].metadata + changes);
    assert Provider.Advance(s, key, changes, at).resources[key].metadata == s.resources[key].metadata + changes;
    hide Overridden, Provider.Advance, HistoryKept, SwapsLogged, LeftBehind, Assigned;
  }

  lemma SwapEffects(ctx: Context, w: World, r: RunId, key: Text, at: int)
    requires Effects(ctx, w) && r in w.runs && w.runs[r].task == Waiting
    requires key == KeyOf(w.runs[r].call.executor.target) && key in w.provider.resources
    requires Forwarded(w.runs[r]) == Some(w.provider.resources[key].version)
    ensures Effects(ctx, SwapIn(w, r, key, Provider.Advance(w.provider, key, w.runs[r].call.executor.changes, at)))
  {
    hide Overridden, VersionsHold, SwapsLogged, Known, Forwarded, Provider.Advance, LeftBehind, Recorded, Extends;
    var changes := w.runs[r].call.executor.changes;
    var s := Provider.Advance(w.provider, key, changes, at);
    MutationHolds(w.provider, w.births, w.tape, key, changes, at);
    SwapWorld(ctx, w, r, key, s);
  }

  lemma SwapWorld(ctx: Context, w: World, r: RunId, key: Text, s: State)
    requires Effects(ctx, w) && r in w.runs && key in s.resources
    requires key == KeyOf(w.runs[r].call.executor.target) && key in w.provider.resources
    requires Forwarded(w.runs[r]) == Some(w.provider.resources[key].version)
    requires var births := Recorded(w.births, s, key);
      VersionsHold(s, births) && Extends(w.births, births) && SwapsLogged(s, w.tape)
    requires var before := w.provider.resources[key];
      && LeftBehind(s, key, before.version, s.resources[key].version)
      && before.version in w.births && w.births[before.version] == Birth(key, before.metadata)
      && Overridden(before.metadata, w.runs[r].call.executor.changes, s.resources[key].metadata)
    ensures Effects(ctx, SwapIn(w, r, key, s))
  {
    hide Overridden, VersionsHold, SwapsLogged, Known, Forwarded, LeftBehind;
    var run := w.runs[r];
    var w' := SwapIn(w, r, key, s);
    var e := Swapped(r, run.call.id, key, w.provider.resources[key], s.resources[key]);
    SwapIsFirst(w.provider, w.births, w.tape, e);
    SwapInLogged(s, w.tape, e);
    assert w'.births == Recorded(w.births, s, key);
    KnownGrows(ctx, w, w.(births := w'.births), r, run);
    SwapKnown(ctx, w'.births, w.tape, r, run, e);
    hide Extends;
    OthersKeep(ctx, w, w', r);
  }

  // ---- Every schedule ----------------------------------------------------------------------------

  /** A change of the provider alone. */
  lemma OutsideHolds(ctx: Context, w: World, w': World)
    requires Effects(ctx, w) && w'.runs == w.runs && w'.tape == w.tape && Extends(w.births, w'.births)
    requires VersionsHold(w'.provider, w'.births) && SwapsLogged(w'.provider, w'.tape)
    ensures Effects(ctx, w')
  {
    hide Known, VersionsHold, SwapsLogged, Extends;
    forall q | q in w'.runs ensures Known(ctx, w'.births, w'.tape, q, w'.runs[q]) {
      KnownGrows(ctx, w, w', q, w.runs[q]);
    }
  }

  lemma ExternalMutateHolds(ctx: Context, w: World, step: Step)
    requires Effects(ctx, w) && Enabled(w, step) && step.ExternalMutate?
    ensures Effects(ctx, Next(ctx, w, step))
  {
    hide VersionsHold, SwapsLogged, Known, Provider.Advance, Recorded, Extends, LeftBehind;
    MutationHolds(w.provider, w.births, w.tape, step.key, step.changes, step.at);
    OutsideHolds(ctx, w, Next(ctx, w, step));
  }

  lemma PutHolds(
    s: State, births: map<Text, Birth>, tape: seq<Event>, key: Text, metadata: map<Text, Value>, at: int,
      serverTime: Option<int>)
    requires VersionsHold(s, births) && SwapsLogged(s, tape) && key !in s.resources
    ensures var s' := Put(s, key, metadata, at, None, serverTime); var births' := Recorded(births, s', key);
      VersionsHold(s', births') && Extends(births, births') && SwapsLogged(s', tape)
  {
    var s' := Put(s, key, metadata, at, None, serverTime);
    PutNewHolds(s, births, key, metadata, at, serverTime);
    hide VersionsHold;
    SameLogs(s, s', tape);
    hide SwapsLogged, VersionText;
  }

  lemma SameLogs(s: State, s': State, tape: seq<Event>)
    requires SwapsLogged(s, tape) && s'.mutations == s.mutations
    ensures SwapsLogged(s', tape)
  {
    assert forall k :: LogOf(s', k) == LogOf(s, k);
    forall k | 0 <= k < |tape| && tape[k].Swapped?
      ensures LeftBehind(s', tape[k].key, tape[k].before.version, tape[k].after.version)
    {
      assert LeftBehind(s, tape[k].key, tape[k].before.version, tape[k].after.version);
    }
  }

  lemma ExternalPutHolds(ctx: Context, w: World, step: Step)
    requires Effects(ctx, w) && Enabled(w, step) && step.ExternalPut?
    ensures Effects(ctx, Next(ctx, w, step))
  {
    hide VersionsHold, SwapsLogged, Known, Recorded, Extends, Put;
    PutHolds(w.provider, w.births, w.tape, step.key, step.metadata, step.at, step.serverTime);
    OutsideHolds(ctx, w, Next(ctx, w, step));
  }

  lemma ResolutionEffects(ctx: Context, w: World, id: Store.Id, approves: bool)
    requires Effects(ctx, w)
    ensures Effects(ctx, Resolution(w, id, approves))
  {
    var w' := Resolution(w, id, approves);
    LoggedBeside(w.provider, w.tape, w'.tape);
    hide Known, VersionsHold, SwapsLogged;
    forall q | q in w'.runs ensures Known(ctx, w'.births, w'.tape, q, w'.runs[q]) {
      KnownGrows(ctx, w, w', q, w.runs[q]);
    }
  }

  lemma EffectsNext(ctx: Context, w: World, step: Step)
    requires Inv(w) && Effects(ctx, w) && Enabled(w, step)
    ensures Effects(ctx, Next(ctx, w, step))
  {
    hide Inv, Effects, Plan, Perform, ExecutorActs, BeginRun;
    hide WithTask, TimedOut, Resolution, Recorded, Put, Provider.Advance;
    match step
    case Begin(r, call) => BeginEffects(ctx, w, r, call);
    case Advance(r, answered) => AdvanceEffects(ctx, w, r, answered);
    case Act(r) => ActEffects(ctx, w, r);
    case Decline(r) => TaskEffects(ctx, w, r, Declined);
    case Crash(r) => TaskEffects(ctx, w, r, Crashed(w.runs[r].task == Applied));
    case Timeout(r) => TimeoutEffects(ctx, w, r);
    case ExternalMutate(_, _, _) => ExternalMutateHolds(ctx, w, step);
    case ExternalPut(_, _, _, _) => ExternalPutHolds(ctx, w, step);
    case WriteResolution(id, approves) => ResolutionEffects(ctx, w, id, approves);
    case Tick(now) => SameEffects(ctx, w, w.(clock := now));
    case ReadPending(id) => SameEffects(ctx, w, w.(resolving := w.resolving + multiset{id}));
  }

  lemma SameEffects(ctx: Context, w: World, w': World)
    requires Effects(ctx, w) && w'.provider == w.provider && w'.births == w.births && w'.tape == w.tape &&
      w'.runs == w.runs
    ensures Effects(ctx, w')
  {
    hide Known, VersionsHold, SwapsLogged;
  }

  /** In every schedule the provider's versions stay unique, every applied
      mutation was the first at its version, and every call knows what it knows. */
  lemma {:induction false} EveryScheduleKeepsEffects(ctx: Context, schedule: seq<Step>)
    ensures Effects(ctx, After(ctx, schedule))
  {
    hide Enabled, Next, Known;
    if schedule == [] {
      EmptyHolds();
    } else {
      hide Effects;
      var w, step := After(ctx, schedule[..|schedule| - 1]), schedule[|schedule| - 1];
      EveryScheduleKeepsEffects(ctx, schedule[..|schedule| - 1]);
      EveryScheduleIsLawful(ctx, schedule[..|schedule| - 1]);
      if Enabled(w, step) { EffectsNext(ctx, w, step); }
    }
  }

  lemma EveryCallIsKnown(ctx: Context, schedule: seq<Step>, r: RunId)
    requires r in After(ctx, schedule).runs
    ensures var w := After(ctx, schedule); Known(ctx, w.births, w.tape, r, w.runs[r])
  {
    EveryScheduleKeepsEffects(ctx, schedule);
    hide After, Known, VersionsHold, SwapsLogged;
  }
}

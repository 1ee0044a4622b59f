/** The execution protocol (execute-action.ts over memory-store.ts and
    in-memory-provider.ts) as a transition system. Every `await` ends an atomic
    step; any number of calls interleave with one another, with external
    changes to the provider, with operators resolving escalations, and with
    the clock. A schedule names who takes each step; it determines the run. */
module Protocol {
  import opened Wrappers
  import opened Text
  import opened Json
  import Hashing
  import opened Domain
  import DecisionEngine
  import opened Provider
  import opened Dependencies
  import Redaction
  import opened Store
  import Approval
  import opened History
  import Policies

  datatype Context = Context(
    engine: Engine, sensitive: Redaction.Sensitive, policies: seq<Policy>, defaults: GlobalDefaults,
    riskDefaults: Option<RiskDefaults>, mode: Mode, source: Text)

  /** `conditional`: the executor offers conditional execution, and then forwards
      the authorized version of `target` to the provider, which applies
      `changes` only at that version. */
  datatype Executor = Executor(conditional: bool, idempotent: bool, target: Ref, changes: map<Text, Value>)

  /** One call of execute or executeApproved. `pinned`: the caller reuses an action id. */
  datatype Call = Call(id: Id, pinned: bool, approved: bool, intent: Intent, executor: Executor)

  // ---- The state of one call ------------------------------------------------------------

  datatype Purpose = Validation | Recheck | Redecision

  datatype Report = Satisfied | Failed | Unavailable | UnknownOutcome | NotAttempted

  datatype Pc =
    | ReadEscalation | ReadDecision(decisionId: Id) | ReadAction(record: DecisionRecord)
    | EscalationGuard | LiveGuard | Validating
    | Evaluating(purpose: Purpose) | Fetching(purpose: Purpose, full: bool) | Concluding(purpose: Purpose)
    | ConsumedGuard | Revalidating | Settling | GateHolding(decisionId: Id) | Claiming
    | Starting | InFlight | Consuming(report: Report)
    | Finished(report: Report) | Stopped

  /** The executor's own asynchronous work, which may outlive the call's deadline. */
  datatype Task = Idle | Waiting | Applied | Refused | Declined | Crashed(applied: bool)

  datatype Run = Run(
    call: Call, pc: Pc, task: Task, decisionId: Id,
    validatedAt: int, fetches: seq<Fetch>, revalidatedAt: Option<int>,
    recheckedAt: int, refetches: seq<Fetch>)

  /** `births`, `tape`, `first` and `author` are history: no step reads them. */
  datatype World = World(
    clock: int, provider: State,
    actions: map<Id, Intent>, decisions: map<Id, DecisionRecord>, nextDecision: Id,
    authorizations: map<Id, Authorization>, escalations: map<Id, Escalation>, resolving: multiset<Id>,
    used: set<Id>, runs: map<RunId, Run>,
    births: map<Text, Birth>, tape: seq<Event>, first: map<Id, Intent>, author: map<Id, RunId>)

  const INITIAL := World(0, EMPTY, map[], map[], 0, map[], map[], multiset{}, {}, map[], map[], [], map[], map[])

  // ---- What a call has established ---------------------------------------------------------

  function PolicyOf(ctx: Context, i: Intent): Policy {
    Policies.Resolve(ctx.policies, ctx.defaults, ctx.riskDefaults, i).policy
  }

  function RiskOf(ctx: Context, i: Intent): Risk {
    Policies.Resolve(ctx.policies, ctx.defaults, ctx.riskDefaults, i).risk
  }

  predicate PolicyMissing(ctx: Context, i: Intent) {
    Policies.NamesPolicy(i) && Policies.FindNamed(ctx.policies, i.policyName.value).None?
  }

  function DeadlineOf(ctx: Context, i: Intent): int {
    GetOr(PolicyOf(ctx, i).execution.deadlineMs, if RiskRank(RiskOf(ctx, i)) >= RiskRank(High) then 10_000 else 60_000)
  }

  function Verdicts(ctx: Context, i: Intent, fetches: seq<Fetch>, at: int): seq<Verdict> {
    if |fetches| <= |i.dependencies| then EvaluateAll(ctx.engine, PolicyOf(ctx, i), i, fetches, at) else []
  }

  function Recomputed(ctx: Context, i: Intent, vs: seq<Verdict>, fetches: seq<Fetch>, at: int): seq<Verdict> {
    if |vs| <= |i.dependencies| then Recompute(ctx.engine, PolicyOf(ctx, i), i, vs, SnapshotsOf(fetches), at) else []
  }

  function DecideOn(ctx: Context, i: Intent, vs: seq<Verdict>, revalidated: bool): Outcome {
    DecisionEngine.Decide(PolicyOf(ctx, i).outcomes, ctx.defaults.outcomes, Some(RiskOf(ctx, i)), vs, ctx.mode,
      revalidated)
  }

  function InitialDecision(ctx: Context, run: Run): Outcome {
    DecideOn(ctx, run.call.intent, Verdicts(ctx, run.call.intent, run.fetches, run.validatedAt), false)
  }

  /** The verdicts the current decision of a call rests on. */
  function CurrentVerdicts(ctx: Context, run: Run): seq<Verdict> {
    var vs := Verdicts(ctx, run.call.intent, run.fetches, run.validatedAt);
    if run.revalidatedAt.Some? then Recomputed(ctx, run.call.intent, vs, run.fetches, run.revalidatedAt.value) else vs
  }

  function CurrentDecision(ctx: Context, run: Run): Outcome {
    DecideOn(ctx, run.call.intent, CurrentVerdicts(ctx, run), run.revalidatedAt.Some?)
  }

  /** OBSERVE mode records every decision as ALLOW. */
  function Effective(ctx: Context, o: Outcome): Outcome {
    if ctx.mode == Observe then Allow else o
  }

  function ExpectedState(run: Run): seq<Hashing.StateEntry> {
    EntriesOf(SnapshotsOf(run.fetches))
  }

  predicate Conditional(run: Run) {
    run.call.executor.conditional && ExpectedState(run) != []
  }

  function GateOutcome(policy: Policy): Outcome {
    var o := policy.execution.onConditionalUnavailable;
    if o == Revalidate || o == Escalate then o else Deny
  }

  /** The re-check finds nothing to compare, or something else. */
  predicate RecheckBlocks(ctx: Context, run: Run) {
    var again := EntriesOf(SnapshotsOf(run.refetches));
    || (run.call.intent.dependencies != [] && again == [])
    || (again != [] && Hashing.Fingerprint(ctx.engine.hash, again) != Hashing.Fingerprint(ctx.engine.hash,
      ExpectedState(run)))
  }

  // ---- One step of a call: what it reads, and what it will write ------------------------------

  /** What a step writes besides the state of its own call. */
  datatype Write =
    | Nothing
    | Guard(approved: bool)
    | Look(spent: bool, permitted: bool)
    | KeepIntent
    | SaveRecord(outcome: Outcome)
    | Hold(decisionId: Id)
    | ClaimSlot(authorization: Authorization)
    | Freeze
    | Start
    | Consume

  function FetchesFor(run: Run, p: Purpose): seq<Fetch> {
    if p == Validation then run.fetches else run.refetches
  }

  function WithFetch(run: Run, p: Purpose, f: Fetch): Run {
    if p == Validation then run.(fetches := run.fetches + [f], pc := Fetching(p, false))
    else run.(refetches := run.refetches + [f], pc := Fetching(p, false))
  }

  /** One attempt on the next dependency; a provider that does not answer loses it. */
  function PlanFetch(ctx: Context, s: State, run: Run, answered: bool): Run
    requires run.pc.Fetching?
  {
    var p, intent := run.pc.purpose, run.call.intent;
    var i := |FetchesFor(run, p)|;
    var at := if p == Validation then run.validatedAt else run.recheckedAt;
    if i >= |intent.dependencies| then run.(pc := Concluding(p))
    else
      var d := intent.dependencies[i];
      if !Supports(s, ctx.source, d.ref) || !answered then WithFetch(run, p, Lost)
      else if !run.pc.full && d.version.Some? && RouteTo(PolicyOf(ctx, intent), intent, i) == [] then
        var c := GetConditional(ctx.engine.hash, s, d, at);
        if c.Some? then WithFetch(run, p, Fetched(c.value)) else run.(pc := Fetching(p, true))
      else WithFetch(run, p, GetState(ctx.engine.hash, s, d.ref, at))
  }

  function PlanConclusion(ctx: Context, w: World, run: Run): (Run, Write)
    requires run.pc.Concluding?
  {
    match run.pc.purpose
    case Validation =>
      (run.(pc := ConsumedGuard, decisionId := w.nextDecision), SaveRecord(Effective(ctx, InitialDecision(ctx, run))))
    case Recheck =>
      if RecheckBlocks(ctx, run) then (run.(pc := Stopped), Freeze) else (run.(pc := Starting), Nothing)
    case Redecision =>
      var i := run.call.intent;
      var vs := Recomputed(ctx, i, CurrentVerdicts(ctx, run), run.refetches, w.clock);
      (run.(pc := Finished(Failed), decisionId := w.nextDecision),
        SaveRecord(Effective(ctx, DecideOn(ctx, i, vs, true))))
  }

  /** From the settled decision to the claim, the gate or the end. */
  function PlanSettling(ctx: Context, w: World, run: Run): (Run, Write) {
    var o := Effective(ctx, CurrentDecision(ctx, run));
    var execution := PolicyOf(ctx, run.call.intent).execution;
    if o == Escalate && !run.call.approved then (run.(pc := Stopped), Hold(run.decisionId))
    else if o != Allow && o != Escalate then (run.(pc := Stopped), Nothing)
    else if execution.requireConditional && !Conditional(run) && !run.call.approved then
      var gate := GateOutcome(PolicyOf(ctx, run.call.intent));
      (run.(pc := if ctx.mode == Observe then Claiming else if gate == Escalate then GateHolding(w.nextDecision)
        else Stopped),
        SaveRecord(Effective(ctx, gate)))
    else (run.(pc := Claiming), Nothing)
  }

  function PlanClaim(ctx: Context, w: World, r: RunId, run: Run): (Run, Write) {
    var i := run.call.intent;
    if Live(w.authorizations, run.call.id) then (run.(pc := Stopped), Nothing)
    else
      var next :=
        if !Conditional(run) && PolicyOf(ctx, i).execution.requireFresh then Evaluating(Recheck) else Starting;
      (run.(pc := next), ClaimSlot(Authorization(r, w.clock + DeadlineOf(ctx, i),
        Hashing.Fingerprint(ctx.engine.hash, ExpectedState(run)),
        if Conditional(run) then Some(ExpectedState(run)) else None, false)))
  }

  /** The guards before validation and the binding of an approval. */
  function PlanGuards(ctx: Context, w: World, run: Run): (Run, Write) {
    var id := run.call.id;
    var stop := (run.(pc := Stopped), Nothing);
    match run.pc
    case ReadEscalation =>
      if id in w.escalations && w.escalations[id].status == Approved then
        (run.(pc := ReadDecision(w.escalations[id].decisionId)), Guard(true))
      else stop
    case ReadDecision(d) =>
      if d in w.decisions then (run.(pc := ReadAction(w.decisions[d])), Nothing) else stop
    case ReadAction(record) =>
      var recorded := if id in w.actions then Some(w.actions[id]) else None;
      if Approval.Binds(ctx.sensitive, record, recorded, run.call.intent) then (run.(pc := LiveGuard), Nothing)
        else stop
    case EscalationGuard =>
      if id in w.escalations then stop else (run.(pc := LiveGuard), Guard(false))
    case LiveGuard =>
      if Live(w.authorizations, id) then stop else (run.(pc := Validating), Nothing)
    case Validating =>
      if PolicyMissing(ctx, run.call.intent) then stop else (run.(pc := Evaluating(Validation)), KeepIntent)
    case ConsumedGuard =>
      var spent := id in w.authorizations && w.authorizations[id].consumed;
      var permitted := PolicyOf(ctx, run.call.intent).execution.allowIdempotentRetry && run.call.executor.idempotent;
      if spent && !permitted then stop
      else
        (run.(pc := if Effective(ctx, InitialDecision(ctx, run)) == Revalidate then Revalidating else Settling),
          Look(spent, permitted))
    case _ => (run, Nothing)
  }

  /** How the executor's work, once over, is reported. */
  function ReportOf(run: Run): Option<Report> {
    if !Conditional(run) then Some(NotAttempted)
    else
      match run.task
      case Applied => Some(Satisfied)
      case Refused => Some(Failed)
      case Declined => Some(Unavailable)
      case Crashed(_) => Some(UnknownOutcome)
      case _ => None
  }

  function Plan(ctx: Context, w: World, r: RunId, answered: bool): (Run, Write)
    requires r in w.runs
  {
    var run := w.runs[r];
    match run.pc
    case Evaluating(Validation) => (run.(pc := Fetching(Validation, false), validatedAt := w.clock, fetches := []),
      Nothing)
    case Evaluating(p) => (run.(pc := Fetching(p, false), recheckedAt := w.clock, refetches := []), Nothing)
    case Fetching(_, _) => (PlanFetch(ctx, w.provider, run, answered), Nothing)
    case Concluding(_) => PlanConclusion(ctx, w, run)
    case Revalidating =>
      var revalidated := run.(pc := Settling, revalidatedAt := Some(w.clock), decisionId := w.nextDecision);
      (revalidated, SaveRecord(Effective(ctx, CurrentDecision(ctx, revalidated))))
    case Settling => PlanSettling(ctx, w, run)
    case GateHolding(d) => (run.(pc := Stopped), Hold(d))
    case Claiming => PlanClaim(ctx, w, r, run)
    case Starting => (run.(pc := InFlight, task := if Conditional(run) then Waiting else Idle), Start)
    case InFlight =>
      var report := ReportOf(run);
      (if report.Some? then run.(pc := Consuming(report.value)) else run, Nothing)
    case Consuming(report) => (run.(pc := if report == Failed then Evaluating(Redecision) else Finished(report)),
      Consume)
    case _ => PlanGuards(ctx, w, run)
  }

  /** The writes of a step, done together. */
  function Perform(ctx: Context, w: World, r: RunId, run: Run, write: Write): World {
    var id, intent := run.call.id, run.call.intent;
    var w' := w.(runs := w.runs[r := run]);
    match write
    case Nothing => w'
    case Guard(approved) => w'.(tape := w.tape + [Admitted(r, id, approved)])
    case Look(spent, permitted) => w'.(tape := w.tape + [Looked(r, id, spent, permitted)])
    case KeepIntent =>
      var resolved := intent.(risk := Some(RiskOf(ctx, intent)));
      w'.(actions := KeepFirst(w.actions, id, Approval.RecordedIntent(ctx.sensitive, resolved)),
        first := KeepFirst(w.first, id, resolved))
    case SaveRecord(outcome) =>
      var d := w.nextDecision;
      w'.(decisions := w.decisions[d := Approval.RecordOf(d, id, outcome, intent)], nextDecision := d + 1,
        author := w.author[d := r])
    case Hold(d) => w'.(escalations := w.escalations[id := Escalation(d, Pending)], tape := w.tape + [Held(r, id)])
    case ClaimSlot(a) => w'.(authorizations := Claim(w.authorizations, id, a).0, tape := w.tape + [Claimed(r, id)])
    case Freeze =>
      var d := w.nextDecision;
      w'.(decisions := w.decisions[d := Approval.RecordOf(d, id, Deny, intent)], nextDecision := d + 1,
        author := w.author[d := r],
        tape := w.tape + [Froze(r, id)])
    case Start => w'.(tape := w.tape + [Started(r, id)])
    case Consume => w'.(authorizations := Store.Consume(w.authorizations, id), tape := w.tape + [Consumed(r, id)])
  }

  // ---- The executor and the world outside --------------------------------------------------------

  function FindEntry(es: seq<Hashing.StateEntry>, key: Text): Option<Hashing.StateEntry> {
    if es == [] then None else if es[0].ref == key then Some(es[0]) else FindEntry(es[1..], key)
  }

  /** The version the executor forwards: that of the first entry for its target. */
  function Forwarded(run: Run): Option<Text> {
    var entry := FindEntry(ExpectedState(run), RefKey(run.call.executor.target));
    if entry.Some? && entry.value.version != Some([]) then entry.value.version else None
  }

  /** The executor acts: without an authorized version it refuses, with one it
      leaves the comparison to the provider. */
  function ExecutorActs(w: World, r: RunId): World
    requires r in w.runs
  {
    var run := w.runs[r];
    var key := KeyOf(run.call.executor.target);
    var version := Forwarded(run);
    if version.None? then WithTask(w, r, Refused)
    else
      var (s, result) := ConditionalExecute(w.provider, key, version.value, run.call.executor.changes);
      if result.Executed? then SwapIn(w, r, key, s) else WithTask(w, r, Refused)
  }

  function SwapIn(w: World, r: RunId, key: Text, s: State): World
    requires r in w.runs && key in s.resources && key in w.provider.resources
  {
    w.(provider := s, births := Recorded(w.births, s, key), runs := w.runs[r := w.runs[r].(task := Applied)],
      tape := w.tape + [Swapped(r, w.runs[r].call.id, key, w.provider.resources[key], s.resources[key])])
  }

  function WithTask(w: World, r: RunId, task: Task): World
    requires r in w.runs
  {
    w.(runs := w.runs[r := w.runs[r].(task := task)])
  }

  /** The deadline passes first; the executor's work goes on unobserved. */
  function TimedOut(run: Run): Run {
    run.(pc := Consuming(if Conditional(run) then UnknownOutcome else NotAttempted))
  }

  function Resolution(w: World, id: Id, approves: bool): World {
    w.(resolving := w.resolving - multiset{id}, tape := w.tape + [Resolved(id, approves)],
      escalations := Store.Resolve(w.escalations, id, if approves then Approved else Rejected))
  }

  datatype Step =
    | Begin(run: RunId, call: Call)
    | Advance(run: RunId, answered: bool)
    | Act(run: RunId)
    | Decline(run: RunId)
    | Crash(run: RunId)
    | Timeout(run: RunId)
    | Tick(now: int)
    | ExternalMutate(key: Text, changes: map<Text, Value>, at: int)
    | ExternalPut(key: Text, metadata: map<Text, Value>, at: int, serverTime: Option<int>)
    | ReadPending(id: Id)
    | WriteResolution(id: Id, approves: bool)

  function BeginRun(w: World, r: RunId, call: Call): World {
    var pc := if call.approved then ReadEscalation else if call.pinned then EscalationGuard else Validating;
    var w' := w.(used := w.used + {call.id}, runs := w.runs[r := Run(call, pc, Idle, 0, 0, [], None, 0, [])]);
    if pc == Validating then w'.(tape := w.tape + [Admitted(r, call.id, false)]) else w'
  }

  predicate Enabled(w: World, step: Step) {
    match step
    case Begin(r, call) => r !in w.runs && (call.pinned || call.approved || call.id !in w.used)
    case Advance(r, _) => r in w.runs
    case Act(r) => r in w.runs && w.runs[r].task == Waiting
    case Decline(r) => r in w.runs && w.runs[r].task == Waiting
    case Crash(r) => r in w.runs &&
      (w.runs[r].task == Waiting || (w.runs[r].task == Applied && w.runs[r].pc == InFlight))
    case Timeout(r) => r in w.runs && w.runs[r].pc == InFlight
    case Tick(_) => true
    case ExternalMutate(key, _, _) => key in w.provider.resources
    case ExternalPut(key, _, _, _) => key !in w.provider.resources
    case ReadPending(id) => id in w.escalations && w.escalations[id].status == Pending
    case WriteResolution(id, _) => id in w.resolving
  }

  function Next(ctx: Context, w: World, step: Step): World
    requires Enabled(w, step)
  {
    match step
    case Begin(r, call) => BeginRun(w, r, call)
    case Advance(r, answered) =>
      var (run, write) := Plan(ctx, w, r, answered);
      Perform(ctx, w, r, run, write)
    case Act(r) => ExecutorActs(w, r)
    case Decline(r) => WithTask(w, r, Declined)
    case Crash(r) => WithTask(w, r, Crashed(w.runs[r].task == Applied))
    case Timeout(r) => w.(runs := w.runs[r := TimedOut(w.runs[r])])
    case Tick(now) => w.(clock := now)
    case ExternalMutate(key, changes, at) =>
      var s := Provider.Advance(w.provider, key, changes, at);
      w.(provider := s, births := Recorded(w.births, s, key))
    case ExternalPut(key, metadata, at, serverTime) =>
      var s := Put(w.provider, key, metadata, at, None, serverTime);
      w.(provider := s, births := Recorded(w.births, s, key))
    case ReadPending(id) => w.(resolving := w.resolving + multiset{id})
    case WriteResolution(id, approves) => Resolution(w, id, approves)
  }

  /** The world after a schedule; a step that is not enabled is skipped. */
  function After(ctx: Context, schedule: seq<Step>): World {
    if schedule == [] then INITIAL
    else
      var w, step := After(ctx, schedule[..|schedule| - 1]), schedule[|schedule| - 1];
      if Enabled(w, step) then Next(ctx, w, step) else w
  }

  lemma StepAfter(ctx: Context, schedule: seq<Step>, step: Step)
    requires Enabled(After(ctx, schedule), step)
    ensures After(ctx, schedule + [step]) == Next(ctx, After(ctx, schedule), step)
  {
    var next := schedule + [step];
    assert next[..|next| - 1] == schedule;
  }
}

/** A call that nothing interrupts: its steps compute the sequential algorithm,
    fetch by fetch and write by write, on whatever state the store and the provider
    are in. */
module ProtocolSolo {
  import opened Wrappers
  import opened Text
  import opened Json
  import Hashing
  import opened Domain
  import opened Provider
  import opened Dependencies
  import opened Store
  import Approval
  import DecisionEngine
  import Policies
  import opened History
  import opened Protocol
  import opened ProtocolClaims
  import ProtocolEffects
  import ProtocolSafety
  import ProtocolReports

  /** Only steps of the call `r` were added. */
  ghost predicate Continues(schedule: seq<Step>, next: seq<Step>, r: RunId) {
    && schedule <= next
    && forall k :: |schedule| <= k < |next| ==> next[k] == Advance(r, true) || next[k] == Act(r)
  }

  lemma ContinuesOn(a: seq<Step>, b: seq<Step>, c: seq<Step>, r: RunId)
    requires Continues(a, b, r) && Continues(b, c, r)
    ensures Continues(a, c, r)
  {
  }

  function With(w: World, r: RunId, run: Run): World {
    w.(runs := w.runs[r := run])
  }

  function Noted(w: World, e: Event): World {
    w.(tape := w.tape + [e])
  }

  function Saved(w: World, r: RunId, call: Call, o: Outcome): World {
    var d := w.nextDecision;
    w.(decisions := w.decisions[d := Approval.RecordOf(d, call.id, o, call.intent)], nextDecision := d + 1,
      author := w.author[d := r])
  }

  function Kept(ctx: Context, w: World, call: Call): World {
    var resolved := call.intent.(risk := Some(RiskOf(ctx, call.intent)));
    w.(actions := KeepFirst(w.actions, call.id, Approval.RecordedIntent(ctx.sensitive, resolved)),
      first := KeepFirst(w.first, call.id, resolved))
  }

  function HeldUnder(w: World, id: Id, decisionId: Id, r: RunId): World {
    Noted(w.(escalations := w.escalations[id := Escalation(decisionId, Pending)]), Held(r, id))
  }

  function Spending(w: World, id: Id, r: RunId): World {
    Noted(w.(authorizations := Store.Consume(w.authorizations, id)), Consumed(r, id))
  }

  /** What a step writes besides the state of its call. */
  function Written(ctx: Context, w: World, r: RunId, call: Call, write: Write): World {
    match write
    case Nothing => w
    case Guard(approved) => Noted(w, Admitted(r, call.id, approved))
    case Look(spent, permitted) => Noted(w, Looked(r, call.id, spent, permitted))
    case KeepIntent => Kept(ctx, w, call)
    case SaveRecord(o) => Saved(w, r, call, o)
    case Hold(d) => HeldUnder(w, call.id, d, r)
    case ClaimSlot(a) => Noted(w.(authorizations := Claim(w.authorizations, call.id, a).0), Claimed(r, call.id))
    case Freeze => Noted(Saved(w, r, call, Deny), Froze(r, call.id))
    case Start => Noted(w, Started(r, call.id))
    case Consume => Spending(w, call.id, r)
  }

  lemma Writes(ctx: Context, w: World, r: RunId, run: Run, write: Write)
    ensures Perform(ctx, w, r, run, write) == With(Written(ctx, w, r, run.call, write), r, run)
  {
    hide RiskOf, Approval.RecordOf, Approval.RecordedIntent;
  }

  lemma WithOver(w: World, r: RunId, a: Run, b: Run)
    ensures With(With(w, r, a), r, b) == With(w, r, b)
  {
  }

  /** One step of the call. */
  lemma Go(ctx: Context, schedule: seq<Step>, r: RunId) returns (next: seq<Step>)
    requires r in After(ctx, schedule).runs
    ensures Continues(schedule, next, r)
    ensures var w := After(ctx, schedule); var (run, write) := Plan(ctx, w, r, true);
      After(ctx, next) == With(Written(ctx, w, r, run.call, write), r, run)
  {
    next := schedule + [Advance(r, true)];
    StepAfter(ctx, schedule, Advance(r, true));
    hide After, Plan, Perform, Written;
    var w := After(ctx, schedule);
    var (run, write) := Plan(ctx, w, r, true);
    Writes(ctx, w, r, run, write);
  }

  /** One step that writes nothing but the state of the call. */
  lemma GoQuietly(ctx: Context, schedule: seq<Step>, r: RunId, run: Run) returns (next: seq<Step>)
    requires var w := After(ctx, schedule); r in w.runs && Plan(ctx, w, r, true) == (run, Nothing)
    ensures Continues(schedule, next, r) && After(ctx, next) == With(After(ctx, schedule), r, run)
  {
    hide After, Plan;
    next := Go(ctx, schedule, r);
  }

  // ---- Fetching ---------------------------------------------------------------------------

  /** What the evaluation loop fetches of the first `n` dependencies. */
  function Attempts(ctx: Context, s: State, i: Intent, n: nat, at: int): seq<Fetch>
    requires n <= |i.dependencies|
  {
    FetchAll(ctx.engine.hash, [Host(ctx.source, s)], PolicyOf(ctx, i), i, n, at)
  }

  function AllAttempts(ctx: Context, s: State, i: Intent, at: int): seq<Fetch> {
    Attempts(ctx, s, i, |i.dependencies|, at)
  }

  lemma NextAttempt(ctx: Context, s: State, i: Intent, n: nat, at: int)
    requires n < |i.dependencies|
    ensures var d := i.dependencies[n];
      Attempts(ctx, s, i, n + 1, at) == Attempts(ctx, s, i, n, at) +
        [FetchCurrent(ctx.engine.hash, s, ctx.source, d, RouteTo(PolicyOf(ctx, i), i, n) != [], at)]
  {
    hide RouteTo, PolicyOf, GetConditional, GetState, Supports;
    var host := Host(ctx.source, s);
    assert [host][0] == host && [host][1..] == [];
  }

  /** When the call took the time its fetches are judged by. */
  function TimeOf(run: Run, p: Purpose): int {
    if p == Validation then run.validatedAt else run.recheckedAt
  }

  /** The call has made the first `n` attempts of the loop. */
  predicate HasAttempted(ctx: Context, w: World, r: RunId, p: Purpose, n: nat) {
    && r in w.runs && w.runs[r].pc == Fetching(p, false) && n <= |w.runs[r].call.intent.dependencies|
    && FetchesFor(w.runs[r], p) ==
      Attempts(ctx, w.provider, w.runs[r].call.intent, n, TimeOf(w.runs[r], p))
  }

  function Attempted(ctx: Context, w: World, r: RunId, p: Purpose, n: nat): Run
    requires r in w.runs && n <= |w.runs[r].call.intent.dependencies|
  {
    var run := w.runs[r];
    var fs := Attempts(ctx, w.provider, run.call.intent, n, TimeOf(run, p));
    if p == Validation then run.(fetches := fs, pc := Fetching(p, false))
    else run.(refetches := fs, pc := Fetching(p, false))
  }

  lemma FetchOneAlone(ctx: Context, schedule: seq<Step>, r: RunId, p: Purpose, n: nat) returns (next: seq<Step>)
    requires var w := After(ctx, schedule);
      HasAttempted(ctx, w, r, p, n) && n < |w.runs[r].call.intent.dependencies|
    ensures Continues(schedule, next, r)
    ensures var w := After(ctx, schedule); After(ctx, next) == With(w, r, Attempted(ctx, w, r, p, n + 1))
  {
    hide After, PolicyOf, RouteTo, Attempts;
    var w := After(ctx, schedule);
    var run := w.runs[r];
    assert |FetchesFor(run, p)| == n by { AttemptsCount(ctx, w.provider, run.call.intent, n, TimeOf(run, p)); }
    NextAttempt(ctx, w.provider, run.call.intent, n, TimeOf(run, p));
    hide GetConditional, GetState, Supports;
    FetchPlan(ctx, w, r);
    hide Plan;
    next := GoQuietly(ctx, schedule, r, PlanFetch(ctx, w.provider, run, true));
    if After(ctx, next).runs[r].pc.full {
      var again := After(ctx, next);
      FetchPlan(ctx, again, r);
      var last := GoQuietly(ctx, next, r, PlanFetch(ctx, again.provider, again.runs[r], true));
      ContinuesOn(schedule, next, last, r);
      next := last;
    }
  }

  lemma AttemptsCount(ctx: Context, s: State, i: Intent, n: nat, at: int)
    requires n <= |i.dependencies|
    ensures |Attempts(ctx, s, i, n, at)| == n
  {
  }

  lemma FetchPlan(ctx: Context, w: World, r: RunId)
    requires r in w.runs && w.runs[r].pc.Fetching?
    ensures Plan(ctx, w, r, true) == (PlanFetch(ctx, w.provider, w.runs[r], true), Nothing)
  {
    hide PlanFetch, PlanConclusion, PlanSettling, PlanClaim, PlanGuards, CurrentDecision, Conditional;
  }

  /** The interleaved fetching of the protocol, left alone, is the loop. */
  lemma {:induction false} FetchAllAlone(ctx: Context, schedule: seq<Step>, r: RunId, p: Purpose, n: nat)
    returns (next: seq<Step>)
    requires HasAttempted(ctx, After(ctx, schedule), r, p, n)
    ensures Continues(schedule, next, r)
    ensures var w := After(ctx, schedule);
      After(ctx, next) ==
        With(w, r, Attempted(ctx, w, r, p, |w.runs[r].call.intent.dependencies|).(pc := Concluding(p)))
    decreases |After(ctx, schedule).runs[r].call.intent.dependencies| - n
  {
    hide After, Attempts;
    var w := After(ctx, schedule);
    var run := w.runs[r];
    AttemptsCount(ctx, w.provider, run.call.intent, n, TimeOf(run, p));
    if n == |run.call.intent.dependencies| {
      FetchPlan(ctx, w, r);
      hide Plan;
      next := GoQuietly(ctx, schedule, r, run.(pc := Concluding(p)));
    } else {
      var one := FetchOneAlone(ctx, schedule, r, p, n);
      next := FetchAllAlone(ctx, one, r, p, n + 1);
      ContinuesOn(schedule, one, next, r);
    }
  }

  // ---- Validation -----------------------------------------------------------------------------

  /** The policy and the risk an intent resolves to. */
  function Choice(ctx: Context, i: Intent): Policies.Resolution {
    Policies.Resolve(ctx.policies, ctx.defaults, ctx.riskDefaults, i)
  }

  /** What is decided on verdicts, and recorded in the mode of the firewall. */
  function Decided(ctx: Context, i: Intent, vs: seq<Verdict>, revalidated: bool): Outcome {
    var c := Choice(ctx, i);
    var o := DecisionEngine.Decide(c.policy.outcomes, ctx.defaults.outcomes, Some(c.risk), vs, ctx.mode, revalidated);
    if ctx.mode == Observe then Allow else o
  }

  lemma DecidedIs(ctx: Context, i: Intent, vs: seq<Verdict>, revalidated: bool)
    ensures Decided(ctx, i, vs, revalidated) == Effective(ctx, DecideOn(ctx, i, vs, revalidated))
    ensures Choice(ctx, i).policy == PolicyOf(ctx, i) && Choice(ctx, i).risk == RiskOf(ctx, i)
  {
    hide Policies.Resolve, DecisionEngine.Decide;
  }

  /** The first decision on a state. */
  function FirstVerdicts(ctx: Context, s: State, i: Intent, at: int): seq<Verdict> {
    EvaluateAll(ctx.engine, Choice(ctx, i).policy, i, AllAttempts(ctx, s, i, at), at)
  }

  function FirstOutcome(ctx: Context, s: State, i: Intent, at: int): Outcome {
    Decided(ctx, i, FirstVerdicts(ctx, s, i, at), false)
  }

  /** The call after its validation. */
  function Validated(ctx: Context, w: World, run: Run): Run {
    run.(pc := ConsumedGuard, fetches := AllAttempts(ctx, w.provider, run.call.intent, w.clock), validatedAt := w.clock,
      decisionId := w.nextDecision)
  }

  lemma ValidatingPlan(ctx: Context, w: World, r: RunId)
    requires r in w.runs && w.runs[r].pc == Validating && !PolicyMissing(ctx, w.runs[r].call.intent)
    ensures Plan(ctx, w, r, true) == (w.runs[r].(pc := Evaluating(Validation)), KeepIntent)
  {
    hide PlanFetch, PlanConclusion, PlanSettling, PlanClaim, CurrentDecision, InitialDecision, Conditional,
      PolicyMissing, PolicyOf, Approval.Binds;
  }

  /** An evaluation begun, and concluded with the given fetches. */
  function Begun(run: Run, p: Purpose, at: int): Run {
    if p == Validation then run.(pc := Fetching(p, false), validatedAt := at, fetches := [])
    else run.(pc := Fetching(p, false), recheckedAt := at, refetches := [])
  }

  function Concluded(run: Run, p: Purpose, at: int, fs: seq<Fetch>): Run {
    if p == Validation then run.(pc := Concluding(p), validatedAt := at, fetches := fs)
    else run.(pc := Concluding(p), recheckedAt := at, refetches := fs)
  }

  lemma EvaluatingPlan(ctx: Context, w: World, r: RunId)
    requires r in w.runs && w.runs[r].pc.Evaluating?
    ensures var run := w.runs[r]; var p := run.pc.purpose;
      Plan(ctx, w, r, true) == (Begun(run, p, w.clock), Nothing)
  {
    hide PlanFetch, PlanConclusion, PlanSettling, PlanClaim, PlanGuards, CurrentDecision, Conditional;
  }

  lemma ConcludingPlan(ctx: Context, w: World, r: RunId)
    requires r in w.runs && w.runs[r].pc.Concluding?
    ensures Plan(ctx, w, r, true) == PlanConclusion(ctx, w, w.runs[r])
  {
    hide PlanFetch, PlanConclusion, PlanSettling, PlanClaim, PlanGuards, CurrentDecision, Conditional;
  }

  lemma BegunAttempts(ctx: Context, w: World, r: RunId, run: Run, p: Purpose)
    ensures var w' := With(w, r, Begun(run, p, w.clock)); var n := |run.call.intent.dependencies|;
      && HasAttempted(ctx, w', r, p, 0)
      && With(w', r, Attempted(ctx, w', r, p, n).(pc := Concluding(p))) ==
        With(w, r, Concluded(run, p, w.clock, AllAttempts(ctx, w.provider, run.call.intent, w.clock)))
  {
    NoAttempt(ctx, w.provider, run.call.intent, w.clock);
    hide Attempts;
  }

  /** From the start of an evaluation to its conclusion: the loop, at the clock. */
  lemma EvaluatesAlone(ctx: Context, schedule: seq<Step>, r: RunId) returns (next: seq<Step>)
    requires var w := After(ctx, schedule); r in w.runs && w.runs[r].pc.Evaluating?
    ensures Continues(schedule, next, r)
    ensures var w := After(ctx, schedule); var run := w.runs[r];
      After(ctx, next) == With(w, r,
        Concluded(run, run.pc.purpose, w.clock, AllAttempts(ctx, w.provider, run.call.intent, w.clock)))
  {
    hide After, Attempts, AllAttempts, Continues, HasAttempted, Attempted, Begun, Concluded;
    var w := After(ctx, schedule);
    var run := w.runs[r];
    var p := run.pc.purpose;
    EvaluatingPlan(ctx, w, r);
    hide Plan;
    var begun := GoQuietly(ctx, schedule, r, Begun(run, p, w.clock));
    BegunAttempts(ctx, w, r, run, p);
    next := FetchAllAlone(ctx, begun, r, p, 0);
    ContinuesOn(schedule, begun, next, r);
    BegunCall(run, p, w.clock);
  }

  lemma BegunCall(run: Run, p: Purpose, at: int)
    ensures Begun(run, p, at).call == run.call
  {
  }

  lemma NoAttempt(ctx: Context, s: State, i: Intent, at: int)
    ensures Attempts(ctx, s, i, 0, at) == []
  {
  }

  /** The intent is kept, and the evaluation begins. */
  lemma KeepsAlone(ctx: Context, schedule: seq<Step>, r: RunId) returns (next: seq<Step>)
    requires var w := After(ctx, schedule);
      r in w.runs && w.runs[r].pc == Validating && !PolicyMissing(ctx, w.runs[r].call.intent)
    ensures Continues(schedule, next, r)
    ensures var w := After(ctx, schedule); var run := w.runs[r];
      After(ctx, next) == With(Kept(ctx, w, run.call), r, run.(pc := Evaluating(Validation)))
  {
    hide After, PolicyMissing, Kept, Continues;
    ValidatingPlan(ctx, After(ctx, schedule), r);
    hide Plan;
    next := Go(ctx, schedule, r);
  }

  /** The first decision is recorded. */
  lemma RecordsAlone(ctx: Context, schedule: seq<Step>, r: RunId) returns (next: seq<Step>)
    requires var w := After(ctx, schedule); r in w.runs && w.runs[r].pc == Concluding(Validation)
    ensures Continues(schedule, next, r)
    ensures var w := After(ctx, schedule); var run := w.runs[r];
      After(ctx, next) == With(Saved(w, r, run.call, Effective(ctx, InitialDecision(ctx, run))), r,
        run.(pc := ConsumedGuard, decisionId := w.nextDecision))
  {
    hide After, Saved, Continues, InitialDecision;
    ConcludingPlan(ctx, After(ctx, schedule), r);
    hide Plan;
    next := Go(ctx, schedule, r);
  }

  lemma SavedOver(w: World, r: RunId, a: Run, b: Run, call: Call, o: Outcome)
    ensures With(Saved(With(w, r, a), r, call, o), r, b) == With(Saved(w, r, call, o), r, b)
  {
    hide Approval.RecordOf;
  }

  lemma ValidatesAlone(ctx: Context, schedule: seq<Step>, r: RunId) returns (next: seq<Step>)
    requires var w := After(ctx, schedule);
      r in w.runs && w.runs[r].pc == Validating && !PolicyMissing(ctx, w.runs[r].call.intent)
    ensures Continues(schedule, next, r)
    ensures var w := After(ctx, schedule); var call := w.runs[r].call;
      After(ctx, next) == With(
        Saved(Kept(ctx, w, call), r, call, FirstOutcome(ctx, w.provider, call.intent, w.clock)), r,
        Validated(ctx, w, w.runs[r]))
  {
    hide After, PolicyMissing, AllAttempts, FirstOutcome, Continues, InitialDecision, Saved;
    hide RiskOf, Approval.RecordedIntent;
    var w := After(ctx, schedule);
    var run := w.runs[r];
    var kept := KeepsAlone(ctx, schedule, r);
    var concluding := EvaluatesAlone(ctx, kept, r);
    ContinuesOn(schedule, kept, concluding, r);
    next := RecordsAlone(ctx, concluding, r);
    ContinuesOn(schedule, concluding, next, r);
    var run1 := After(ctx, kept).runs[r];
    var run2 := Concluded(run1, Validation, w.clock, AllAttempts(ctx, w.provider, run.call.intent, w.clock));
    FirstDecision(ctx, run2, w.provider);
    var o := FirstOutcome(ctx, w.provider, run.call.intent, w.clock);
    WithOver(Kept(ctx, w, run.call), r, run1, run2);
    SavedOver(Kept(ctx, w, run.call), r, run2, Validated(ctx, w, run), run.call, o);
  }

  lemma FirstDecision(ctx: Context, run: Run, s: State)
    requires run.fetches == AllAttempts(ctx, s, run.call.intent, run.validatedAt)
    ensures Verdicts(ctx, run.call.intent, run.fetches, run.validatedAt) ==
      FirstVerdicts(ctx, s, run.call.intent, run.validatedAt)
    ensures Effective(ctx, InitialDecision(ctx, run)) == FirstOutcome(ctx, s, run.call.intent, run.validatedAt)
  {
    var i := run.call.intent;
    AttemptsCount(ctx, s, i, |i.dependencies|, run.validatedAt);
    hide Attempts, EvaluateAll, DecideOn, PolicyOf, Decided, Choice, Effective;
    DecidedIs(ctx, i, FirstVerdicts(ctx, s, i, run.validatedAt), false);
  }

  // ---- The decision -----------------------------------------------------------------------------

  /** The decision the call acts on: the first, or the one revalidation takes on the
      state it fetched. */
  function SettledOutcome(ctx: Context, s: State, i: Intent, at: int): Outcome {
    var first := FirstOutcome(ctx, s, i, at);
    if first == Revalidate then
      Decided(ctx, i, SecondVerdicts(ctx, s, i, at), true)
    else first
  }

  function SecondVerdicts(ctx: Context, s: State, i: Intent, at: int): seq<Verdict> {
    AttemptsCount(ctx, s, i, |i.dependencies|, at);
    Recompute(ctx.engine, Choice(ctx, i).policy, i, FirstVerdicts(ctx, s, i, at),
      SnapshotsOf(AllAttempts(ctx, s, i, at)), at)
  }

  /** The call's fetches are those of an undisturbed validation now. */
  predicate JustValidated(ctx: Context, w: World, run: Run) {
    && run.validatedAt == w.clock && run.revalidatedAt == None && run.decisionId + 1 == w.nextDecision
    && run.fetches == AllAttempts(ctx, w.provider, run.call.intent, w.clock)
  }

  /** A spent authorization stands in the way unless the policy permits a retry and
      the executor is idempotent. */
  predicate MayRetry(ctx: Context, run: Run) {
    PolicyOf(ctx, run.call.intent).execution.allowIdempotentRetry && run.call.executor.idempotent
  }

  predicate SpentIn(w: World, id: Id) {
    id in w.authorizations && w.authorizations[id].consumed
  }

  lemma LooksAlone(ctx: Context, schedule: seq<Step>, r: RunId) returns (next: seq<Step>)
    requires var w := After(ctx, schedule);
      && r in w.runs && w.runs[r].pc == ConsumedGuard && JustValidated(ctx, w, w.runs[r])
      && (SpentIn(w, w.runs[r].call.id) ==> MayRetry(ctx, w.runs[r]))
    ensures Continues(schedule, next, r)
    ensures var w := After(ctx, schedule); var run := w.runs[r]; var i, id := run.call.intent, run.call.id;
      var first := FirstOutcome(ctx, w.provider, i, w.clock);
      After(ctx, next) == With(Noted(w, Looked(r, id, SpentIn(w, id), MayRetry(ctx, run))), r,
        run.(pc := if first == Revalidate then Revalidating else Settling))
  {
    hide After, PolicyOf, FirstOutcome, AllAttempts, InitialDecision;
    var w := After(ctx, schedule);
    var run := w.runs[r];
    FirstDecision(ctx, run, w.provider);
    LookingPlan(ctx, w, r);
    hide Plan;
    next := Go(ctx, schedule, r);
  }

  lemma LookingPlan(ctx: Context, w: World, r: RunId)
    requires r in w.runs && w.runs[r].pc == ConsumedGuard
    requires SpentIn(w, w.runs[r].call.id) ==> MayRetry(ctx, w.runs[r])
    ensures var run := w.runs[r];
      var next := if Effective(ctx, InitialDecision(ctx, run)) == Revalidate then Revalidating else Settling;
      Plan(ctx, w, r, true) == (run.(pc := next), Look(SpentIn(w, run.call.id), MayRetry(ctx, run)))
  {
    hide PlanFetch, PlanConclusion, PlanSettling, PlanClaim, CurrentDecision, InitialDecision, Conditional,
      PolicyMissing, PolicyOf, Approval.Binds;
  }

  lemma RevalidatingPlan(ctx: Context, w: World, r: RunId)
    requires r in w.runs && w.runs[r].pc == Revalidating
    ensures var run := w.runs[r].(pc := Settling, revalidatedAt := Some(w.clock), decisionId := w.nextDecision);
      Plan(ctx, w, r, true) == (run, SaveRecord(Effective(ctx, CurrentDecision(ctx, run))))
  {
    hide PlanFetch, PlanConclusion, PlanSettling, PlanClaim, PlanGuards, CurrentDecision, Conditional;
  }

  /** The decision of a call that was just validated, before and after revalidation. */
  lemma SettledDecision(ctx: Context, w: World, run: Run)
    requires run.validatedAt == w.clock && run.fetches == AllAttempts(ctx, w.provider, run.call.intent, w.clock)
    ensures var i := run.call.intent; var first := FirstOutcome(ctx, w.provider, i, w.clock);
      && (run.revalidatedAt == None && first != Revalidate ==>
        Effective(ctx, CurrentDecision(ctx, run)) == SettledOutcome(ctx, w.provider, i, w.clock))
      && (run.revalidatedAt == Some(w.clock) && first == Revalidate ==>
        Effective(ctx, CurrentDecision(ctx, run)) == SettledOutcome(ctx, w.provider, i, w.clock))
  {
    var i := run.call.intent;
    FirstDecision(ctx, run, w.provider);
    AttemptsCount(ctx, w.provider, i, |i.dependencies|, w.clock);
    assert |FirstVerdicts(ctx, w.provider, i, w.clock)| == |i.dependencies|;
    DecidedIs(ctx, i, SecondVerdicts(ctx, w.provider, i, w.clock), true);
    DecidedIs(ctx, i, FirstVerdicts(ctx, w.provider, i, w.clock), false);
    hide Attempts, FirstVerdicts, Verdicts, DecideOn, PolicyOf, Recompute, Decided, Choice, Effective;
  }

  /** What settles of a call: its decision, and the record that tells it. */
  ghost predicate Settles(ctx: Context, w: World, w': World, r: RunId) {
    && r in w.runs && r in w'.runs
    && var run, run', call := w.runs[r], w'.runs[r], w.runs[r].call;
      var o := SettledOutcome(ctx, w.provider, call.intent, w.clock);
      var look := Looked(r, call.id, SpentIn(w, call.id), MayRetry(ctx, run));
      && run' == run.(pc := Settling, revalidatedAt := run'.revalidatedAt, decisionId := run'.decisionId)
      && Effective(ctx, CurrentDecision(ctx, run')) == o
      && (if FirstOutcome(ctx, w.provider, call.intent, w.clock) == Revalidate then
            run'.decisionId == w.nextDecision && w' == With(Saved(Noted(w, look), r, call, o), r, run')
          else run'.decisionId == run.decisionId && w' == With(Noted(w, look), r, run'))
  }

  lemma RevalidatesAlone(ctx: Context, schedule: seq<Step>, r: RunId) returns (next: seq<Step>)
    requires var w := After(ctx, schedule); r in w.runs && w.runs[r].pc == Revalidating
    ensures Continues(schedule, next, r)
    ensures var w := After(ctx, schedule);
      var run := w.runs[r].(pc := Settling, revalidatedAt := Some(w.clock), decisionId := w.nextDecision);
      After(ctx, next) == With(Saved(w, r, run.call, Effective(ctx, CurrentDecision(ctx, run))), r, run)
  {
    hide After, CurrentDecision, Approval.RecordOf, Continues;
    RevalidatingPlan(ctx, After(ctx, schedule), r);
    hide Plan;
    next := Go(ctx, schedule, r);
  }

  lemma SettlesAlone(ctx: Context, schedule: seq<Step>, r: RunId) returns (next: seq<Step>)
    requires var w := After(ctx, schedule);
      && r in w.runs && w.runs[r].pc == ConsumedGuard && JustValidated(ctx, w, w.runs[r])
      && (SpentIn(w, w.runs[r].call.id) ==> MayRetry(ctx, w.runs[r]))
    ensures Continues(schedule, next, r) && Settles(ctx, After(ctx, schedule), After(ctx, next), r)
  {
    hide After, PolicyOf, FirstOutcome, SettledOutcome, AllAttempts, CurrentDecision, Approval.RecordOf, Continues;
    var w := After(ctx, schedule);
    next := LooksAlone(ctx, schedule, r);
    if FirstOutcome(ctx, w.provider, w.runs[r].call.intent, w.clock) == Revalidate {
      var looked := next;
      next := RevalidatesAlone(ctx, looked, r);
      ContinuesOn(schedule, looked, next, r);
    }
    SettledDecision(ctx, w, After(ctx, next).runs[r]);
  }

  // ---- Held, stopped, or on to the claim ---------------------------------------------------------

  /** The policy requires a condition that cannot be had. */
  predicate Gated(ctx: Context, run: Run) {
    PolicyOf(ctx, run.call.intent).execution.requireConditional && !Conditional(run) && !run.call.approved
  }

  lemma SettlingPlan(ctx: Context, w: World, r: RunId)
    requires r in w.runs && w.runs[r].pc == Settling
    ensures Plan(ctx, w, r, true) == PlanSettling(ctx, w, w.runs[r])
  {
    hide PlanFetch, PlanConclusion, PlanSettling, PlanClaim, PlanGuards, CurrentDecision, Conditional;
  }

  /** Without a decision that lets it, nothing is claimed: an escalation is held on
      the record that tells it, anything else but ALLOW stops. */
  lemma StopsAlone(ctx: Context, schedule: seq<Step>, r: RunId) returns (next: seq<Step>)
    requires var w := After(ctx, schedule);
      && r in w.runs && w.runs[r].pc == Settling && !w.runs[r].call.approved
      && Effective(ctx, CurrentDecision(ctx, w.runs[r])) != Allow
    ensures Continues(schedule, next, r)
    ensures var w := After(ctx, schedule); var run := w.runs[r];
      After(ctx, next) == With(
        if Effective(ctx, CurrentDecision(ctx, run)) == Escalate then HeldUnder(w, run.call.id, run.decisionId, r)
        else w, r, run.(pc := Stopped))
  {
    hide After, PolicyOf, CurrentDecision, Conditional;
    var w := After(ctx, schedule);
    SettlingPlan(ctx, w, r);
    hide Plan;
    next := Go(ctx, schedule, r);
  }

  /** The gate's outcome: what the policy sets for it, if that is to revalidate or to
      escalate, and else a denial. */
  function GateOf(ctx: Context, i: Intent): Outcome {
    match PolicyOf(ctx, i).execution.onConditionalUnavailable
    case Revalidate => Revalidate
    case Escalate => Escalate
    case _ => Deny
  }

  /** A required condition that cannot be had stops the call with a record of the
      gate's outcome, on which an escalation is held. */
  lemma GateStopsAlone(ctx: Context, schedule: seq<Step>, r: RunId) returns (next: seq<Step>)
    requires var w := After(ctx, schedule);
      && r in w.runs && w.runs[r].pc == Settling && ctx.mode != Observe && Gated(ctx, w.runs[r])
      && CurrentDecision(ctx, w.runs[r]) == Allow
    ensures Continues(schedule, next, r)
    ensures var w := After(ctx, schedule); var run := w.runs[r]; var gate := GateOf(ctx, run.call.intent);
      After(ctx, next) == With(
        if gate == Escalate then HeldUnder(Saved(w, r, run.call, gate), run.call.id, w.nextDecision, r)
        else Saved(w, r, run.call, gate), r, run.(pc := Stopped))
  {
    hide After, PolicyOf, CurrentDecision, Conditional, Approval.RecordOf;
    var w := After(ctx, schedule);
    SettlingPlan(ctx, w, r);
    hide Plan;
    next := Go(ctx, schedule, r);
    if GateOf(ctx, w.runs[r].call.intent) == Escalate {
      var w1 := After(ctx, next);
      GateHoldingPlan(ctx, w1, r);
      var held := Go(ctx, next, r);
      ContinuesOn(schedule, next, held, r);
      next := held;
    }
  }

  lemma GateHoldingPlan(ctx: Context, w: World, r: RunId)
    requires r in w.runs && w.runs[r].pc.GateHolding?
    ensures Plan(ctx, w, r, true) == (w.runs[r].(pc := Stopped), Hold(w.runs[r].pc.decisionId))
  {
    hide PlanFetch, PlanConclusion, PlanSettling, PlanClaim, PlanGuards, CurrentDecision, Conditional;
  }

  /** ALLOW, or an escalation that was approved, goes on to the claim. */
  lemma ProceedsAlone(ctx: Context, schedule: seq<Step>, r: RunId) returns (next: seq<Step>)
    requires var w := After(ctx, schedule);
      && r in w.runs && w.runs[r].pc == Settling && !Gated(ctx, w.runs[r])
      && var o := Effective(ctx, CurrentDecision(ctx, w.runs[r]));
        o == Allow || (o == Escalate && w.runs[r].call.approved)
    ensures Continues(schedule, next, r)
    ensures var w := After(ctx, schedule); After(ctx, next) == With(w, r, w.runs[r].(pc := Claiming))
  {
    hide After, PolicyOf, CurrentDecision, Conditional;
    var w := After(ctx, schedule);
    SettlingPlan(ctx, w, r);
    hide Plan;
    next := Go(ctx, schedule, r);
  }

  // ---- The claim and the re-check ------------------------------------------------------------------

  /** The deadline the policy sets, or ten seconds for high and critical risk and a
      minute otherwise. */
  function Deadline(ctx: Context, i: Intent): int {
    match PolicyOf(ctx, i).execution.deadlineMs
    case Some(ms) => ms
    case None => if RiskOf(ctx, i) == High || RiskOf(ctx, i) == Critical then 10 * 1_000 else 60 * 1_000
  }

  function Grant(ctx: Context, w: World, r: RunId, run: Run): Authorization {
    Authorization(r, w.clock + Deadline(ctx, run.call.intent),
      Hashing.Fingerprint(ctx.engine.hash, ExpectedState(run)),
      if Conditional(run) then Some(ExpectedState(run)) else None, false)
  }

  function Granted(ctx: Context, w: World, r: RunId, run: Run): World {
    Noted(w.(authorizations := w.authorizations[run.call.id := Grant(ctx, w, r, run)]), Claimed(r, run.call.id))
  }

  /** The re-check guards an execution without a condition, unless the policy waives it. */
  predicate Rechecks(ctx: Context, run: Run) {
    !Conditional(run) && PolicyOf(ctx, run.call.intent).execution.requireFresh
  }

  lemma ClaimingPlan(ctx: Context, w: World, r: RunId)
    requires r in w.runs && w.runs[r].pc == Claiming && !Live(w.authorizations, w.runs[r].call.id)
    ensures var run := w.runs[r];
      Plan(ctx, w, r, true) == (run.(pc := if Rechecks(ctx, run) then Evaluating(Recheck) else Starting),
        ClaimSlot(Grant(ctx, w, r, run)))
  {
    hide PlanFetch, PlanConclusion, PlanSettling, PlanGuards, CurrentDecision, Conditional, PolicyOf, RiskOf,
      Hashing.Fingerprint, ExpectedState;
  }

  lemma ClaimsAlone(ctx: Context, schedule: seq<Step>, r: RunId) returns (next: seq<Step>)
    requires var w := After(ctx, schedule);
      r in w.runs && w.runs[r].pc == Claiming && !Live(w.authorizations, w.runs[r].call.id)
    ensures Continues(schedule, next, r)
    ensures var w := After(ctx, schedule); var run := w.runs[r];
      After(ctx, next) == With(Granted(ctx, w, r, run), r,
        run.(pc := if Rechecks(ctx, run) then Evaluating(Recheck) else Starting))
  {
    hide After, Grant, Rechecks;
    var w := After(ctx, schedule);
    ClaimingPlan(ctx, w, r);
    hide Plan;
    next := Go(ctx, schedule, r);
  }

  /** What was fetched does not depend on when. */
  lemma {:induction false} EntriesAreTimeless(ctx: Context, s: State, i: Intent, n: nat, a: int, b: int)
    requires n <= |i.dependencies|
    ensures EntriesOf(SnapshotsOf(Attempts(ctx, s, i, n, a))) == EntriesOf(SnapshotsOf(Attempts(ctx, s, i, n, b)))
    ensures |SnapshotsOf(Attempts(ctx, s, i, n, a))| == |SnapshotsOf(Attempts(ctx, s, i, n, b))|
  {
    if n == 0 {
      NoAttempt(ctx, s, i, a);
      NoAttempt(ctx, s, i, b);
    } else {
      EntriesAreTimeless(ctx, s, i, n - 1, a, b);
      NextAttempt(ctx, s, i, n - 1, a);
      NextAttempt(ctx, s, i, n - 1, b);
      var d, wants := i.dependencies[n - 1], RouteTo(PolicyOf(ctx, i), i, n - 1) != [];
      var x := FetchCurrent(ctx.engine.hash, s, ctx.source, d, wants, a);
      var y := FetchCurrent(ctx.engine.hash, s, ctx.source, d, wants, b);
      assert x.Fetched? == y.Fetched? && (x.Fetched? ==> EntriesOf([x.snapshot]) == EntriesOf([y.snapshot])) by {
        SameEntry(ctx.engine.hash, s, ctx.source, d, wants, a, b);
      }
      hide Attempts, FetchCurrent, RouteTo, PolicyOf;
      OneMore(Attempts(ctx, s, i, n - 1, a), x);
      OneMore(Attempts(ctx, s, i, n - 1, b), y);
    }
  }

  lemma SameEntry(h: Hashing.Hash, s: State, source: Text, d: Dependency, wants: bool, a: int, b: int)
    ensures var x, y := FetchCurrent(h, s, source, d, wants, a), FetchCurrent(h, s, source, d, wants, b);
      x.Fetched? == y.Fetched? && (x.Fetched? ==> EntriesOf([x.snapshot]) == EntriesOf([y.snapshot]))
  {
    hide Hashing.ContentHash;
  }

  lemma OneMore(fs: seq<Fetch>, f: Fetch)
    ensures SnapshotsOf(fs + [f]) == SnapshotsOf(fs) + if f.Fetched? then [f.snapshot] else []
    ensures EntriesOf(SnapshotsOf(fs + [f])) ==
      EntriesOf(SnapshotsOf(fs)) + if f.Fetched? then EntriesOf([f.snapshot]) else []
  {
    assert (fs + [f])[..|fs|] == fs;
  }

  /** All fetches were lost. */
  predicate NothingFetched(ctx: Context, s: State, i: Intent) {
    i.dependencies != [] && SnapshotsOf(AllAttempts(ctx, s, i, 0)) == []
  }

  /** The provider is still in the state the call was validated on. */
  predicate StillCurrent(ctx: Context, w: World, run: Run) {
    run.fetches == AllAttempts(ctx, w.provider, run.call.intent, run.validatedAt)
  }

  lemma RecheckBlocksExactly(ctx: Context, w: World, run: Run, at: int)
    requires StillCurrent(ctx, w, run) && run.refetches == AllAttempts(ctx, w.provider, run.call.intent, at)
    ensures RecheckBlocks(ctx, run) <==> NothingFetched(ctx, w.provider, run.call.intent)
  {
    var i := run.call.intent;
    EntriesAreTimeless(ctx, w.provider, i, |i.dependencies|, at, run.validatedAt);
    EntriesAreTimeless(ctx, w.provider, i, |i.dependencies|, at, 0);
    hide Attempts, SnapshotsOf, Hashing.Fingerprint;
    assert |EntriesOf(SnapshotsOf(run.refetches))| == |SnapshotsOf(run.refetches)|;
  }

  /** The end of a re-check that blocks, and of one that does not. */
  function Rechecked(w: World, r: RunId, run: Run, blocks: bool): World {
    if blocks then With(Noted(Saved(w, r, run.call, Deny), Froze(r, run.call.id)), r, run.(pc := Stopped))
    else With(w, r, run.(pc := Starting))
  }

  lemma RecheckEndsAlone(ctx: Context, schedule: seq<Step>, r: RunId) returns (next: seq<Step>)
    requires var w := After(ctx, schedule); r in w.runs && w.runs[r].pc == Concluding(Recheck)
    ensures Continues(schedule, next, r)
    ensures var w := After(ctx, schedule); var run := w.runs[r];
      After(ctx, next) == Rechecked(w, r, run, RecheckBlocks(ctx, run))
  {
    hide After, RecheckBlocks, Approval.RecordOf, Continues;
    ConcludingPlan(ctx, After(ctx, schedule), r);
    hide Plan;
    next := Go(ctx, schedule, r);
  }

  lemma RecheckedOver(w: World, r: RunId, before: Run, run: Run, blocks: bool)
    requires before.call == run.call
    ensures Rechecked(With(w, r, before), r, run, blocks) == Rechecked(w, r, run, blocks)
  {
    hide Approval.RecordOf;
  }

  /** Left alone, the re-check blocks exactly where nothing could be fetched, and
      otherwise the execution starts. */
  lemma RechecksAlone(ctx: Context, schedule: seq<Step>, r: RunId) returns (next: seq<Step>)
    requires var w := After(ctx, schedule);
      r in w.runs && w.runs[r].pc == Evaluating(Recheck) && StillCurrent(ctx, w, w.runs[r])
    ensures Continues(schedule, next, r)
    ensures var w := After(ctx, schedule); var run := w.runs[r]; var i := run.call.intent;
      After(ctx, next) == Rechecked(w, r, Concluded(run, Recheck, w.clock, AllAttempts(ctx, w.provider, i, w.clock)),
        NothingFetched(ctx, w.provider, i))
  {
    hide After, AllAttempts, RecheckBlocks, NothingFetched, StillCurrent, Continues, Rechecked;
    var w := After(ctx, schedule);
    var run := w.runs[r];
    var concluding := EvaluatesAlone(ctx, schedule, r);
    var run1 := Concluded(run, Recheck, w.clock, AllAttempts(ctx, w.provider, run.call.intent, w.clock));
    SameCurrent(ctx, w, run, run1);
    RecheckBlocksExactly(ctx, w, run1, w.clock);
    next := RecheckEndsAlone(ctx, concluding, r);
    ContinuesOn(schedule, concluding, next, r);
    RecheckedOver(w, r, run1, run1, NothingFetched(ctx, w.provider, run.call.intent));
  }

  lemma SameCurrent(ctx: Context, w: World, run: Run, run': Run)
    requires StillCurrent(ctx, w, run) && run'.fetches == run.fetches && run'.call == run.call &&
      run'.validatedAt == run.validatedAt
    ensures StillCurrent(ctx, w, run')
  {
  }

  /** In OBSERVE mode the gate is recorded as ALLOW and the call goes on. */
  lemma GateObservedAlone(ctx: Context, schedule: seq<Step>, r: RunId) returns (next: seq<Step>)
    requires var w := After(ctx, schedule);
      r in w.runs && w.runs[r].pc == Settling && ctx.mode == Observe && Gated(ctx, w.runs[r])
    ensures Continues(schedule, next, r)
    ensures var w := After(ctx, schedule); var run := w.runs[r];
      After(ctx, next) == With(Saved(w, r, run.call, Allow), r, run.(pc := Claiming))
  {
    hide After, PolicyOf, CurrentDecision, Conditional, Approval.RecordOf;
    SettlingPlan(ctx, After(ctx, schedule), r);
    hide Plan;
    next := Go(ctx, schedule, r);
  }

  // ---- The execution --------------------------------------------------------------------------------

  lemma StartingPlan(ctx: Context, w: World, r: RunId)
    requires r in w.runs && w.runs[r].pc == Starting
    ensures var run := w.runs[r];
      Plan(ctx, w, r, true) == (run.(pc := InFlight, task := if Conditional(run) then Waiting else Idle), Start)
  {
    hide PlanFetch, PlanConclusion, PlanSettling, PlanClaim, PlanGuards, CurrentDecision, Conditional;
  }

  lemma StartsAlone(ctx: Context, schedule: seq<Step>, r: RunId) returns (next: seq<Step>)
    requires var w := After(ctx, schedule); r in w.runs && w.runs[r].pc == Starting
    ensures Continues(schedule, next, r)
    ensures var w := After(ctx, schedule); var run := w.runs[r];
      After(ctx, next) == With(Noted(w, Started(r, run.call.id)), r,
        run.(pc := InFlight, task := if Conditional(run) then Waiting else Idle))
  {
    hide After, Conditional;
    StartingPlan(ctx, After(ctx, schedule), r);
    hide Plan;
    next := Go(ctx, schedule, r);
  }

  /** The target was fetched, under its own reference or one that prints alike and
      names the same resource. */
  predicate Aimed(run: Run) {
    var s := ProtocolSafety.Authorized(run);
    s.Some? && KeyOf(s.value.ref) == KeyOf(run.call.executor.target)
  }

  /** Every attempt of an undisturbed call tells the version its resource has. */
  lemma AttemptTells(ctx: Context, s: State, i: Intent, at: int, k: nat)
    requires k < |i.dependencies| && AllAttempts(ctx, s, i, at)[k].Fetched?
    ensures var t := AllAttempts(ctx, s, i, at)[k].snapshot;
      KeyOf(t.ref) in s.resources && t.version == Some(s.resources[KeyOf(t.ref)].version)
  {
    hide PolicyOf, RouteTo, Hashing.ContentHash;
    var host := Host(ctx.source, s);
    assert [host][0] == host && [host][1..] == [];
  }

  /** Versions tell resources apart, and none is empty. */
  lemma VersionsTell(s: State, births: map<Text, Birth>, a: Text, b: Text)
    requires VersionsHold(s, births) && a in s.resources && b in s.resources
    ensures s.resources[a].version == s.resources[b].version ==> a == b
    ensures s.resources[a].version != []
  {
    hide HistoryKept;
    var v := s.resources[a].version;
    assert Assigned(s.versionCounter, v);
    var n :| 1 <= n <= s.versionCounter && v == VersionText(n);
  }

  /** The version the executor forwards is the current one exactly when the call
      was aimed. */
  lemma ForwardsExactly(ctx: Context, s: State, births: map<Text, Birth>, run: Run)
    requires VersionsHold(s, births) && run.fetches == AllAttempts(ctx, s, run.call.intent, run.validatedAt)
    ensures var key := KeyOf(run.call.executor.target);
      Aimed(run) <==> key in s.resources && Forwarded(run) == Some(s.resources[key].version)
  {
    var target := run.call.executor.target;
    ProtocolSafety.EntryOfSnapshot(SnapshotsOf(run.fetches), RefKey(target));
    AttemptsCount(ctx, s, run.call.intent, |run.call.intent.dependencies|, run.validatedAt);
    hide EntriesOf, SnapshotsOf, FindEntry, FindSnapshot, Attempts, VersionsHold;
    if ProtocolSafety.Authorized(run).Some? {
      var k := ProtocolSafety.FoundWasFetched(run.fetches, RefKey(target));
      AttemptTells(ctx, s, run.call.intent, run.validatedAt, k);
      var found := ProtocolSafety.Authorized(run).value;
      VersionsTell(s, births, KeyOf(found.ref), KeyOf(found.ref));
      if KeyOf(target) in s.resources { VersionsTell(s, births, KeyOf(found.ref), KeyOf(target)); }
    }
  }

  /** The provider's state after the executor's mutation. */
  function Mutated(w: World, run: Run): State {
    ConditionalExecute(w.provider, KeyOf(run.call.executor.target), GetOr(Forwarded(run), []),
      run.call.executor.changes).0
  }

  lemma ActsExactly(ctx: Context, w: World, r: RunId)
    requires r in w.runs && VersionsHold(w.provider, w.births) && StillCurrent(ctx, w, w.runs[r])
    ensures var run := w.runs[r]; var key, s := KeyOf(run.call.executor.target), Mutated(w, run);
      if Aimed(run) then
        key in w.provider.resources && key in s.resources && ExecutorActs(w, r) == SwapIn(w, r, key, s) &&
        MutatedAt(w.provider, s, key, run.call.executor.changes, s.resources[key].updatedAt, s.resources[key].version)
      else ExecutorActs(w, r) == WithTask(w, r, Refused)
  {
    var run := w.runs[r];
    ForwardsExactly(ctx, w.provider, w.births, run);
    hide Aimed, Forwarded, VersionsHold, AllAttempts, MutatedAt, ConditionalExecute, SwapIn, WithTask;
    if Forwarded(run).Some? {
      SwapsExactly(w.provider, KeyOf(run.call.executor.target), Forwarded(run).value, run.call.executor.changes);
      SwapTells(w.provider, KeyOf(run.call.executor.target), Forwarded(run).value, run.call.executor.changes);
    }
  }

  lemma SwapTells(s: State, key: Text, expected: Text, changes: map<Text, Value>)
    ensures var (s', result) := ConditionalExecute(s, key, expected, changes);
      result.Executed? ==>
        key in s.resources && key in s'.resources &&
        MutatedAt(s, s', key, changes, s'.resources[key].updatedAt, s'.resources[key].version)
  {
    SwapsExactly(s, key, expected, changes);
    hide ConditionalExecute;
  }

  /** The executor acts on the state the call was validated on. */
  lemma ActsAlone(ctx: Context, schedule: seq<Step>, r: RunId) returns (next: seq<Step>)
    requires var w := After(ctx, schedule);
      r in w.runs && w.runs[r].task == Waiting && StillCurrent(ctx, w, w.runs[r])
    ensures Continues(schedule, next, r)
    ensures var w := After(ctx, schedule); var run := w.runs[r]; var key, s := KeyOf(run.call.executor.target),
      Mutated(w, run);
      if Aimed(run) then
        && key in w.provider.resources && key in s.resources
        && After(ctx, next) == SwapIn(w, r, key, s)
        && MutatedAt(w.provider, s, key, run.call.executor.changes, s.resources[key].updatedAt,
          s.resources[key].version)
      else After(ctx, next) == WithTask(w, r, Refused)
  {
    next := schedule + [Act(r)];
    StepAfter(ctx, schedule, Act(r));
    ProtocolEffects.EveryScheduleKeepsEffects(ctx, schedule);
    hide After, ExecutorActs, MutatedAt, Mutated, VersionsHold, StillCurrent, SwapIn, WithTask, Aimed;
    ActsExactly(ctx, After(ctx, schedule), r);
  }

  lemma ConsumingPlan(ctx: Context, w: World, r: RunId)
    requires r in w.runs && w.runs[r].pc.Consuming?
    ensures var run := w.runs[r]; var x := run.pc.report;
      Plan(ctx, w, r, true) == (run.(pc := if x == Failed then Evaluating(Redecision) else Finished(x)), Consume)
  {
    hide PlanFetch, PlanConclusion, PlanSettling, PlanClaim, PlanGuards, CurrentDecision, Conditional;
  }

  /** The executor's answer is reported and the authorization consumed with it. */
  lemma ReportsAlone(ctx: Context, schedule: seq<Step>, r: RunId, x: Report) returns (next: seq<Step>)
    requires var w := After(ctx, schedule); r in w.runs && w.runs[r].pc == InFlight && ReportOf(w.runs[r]) == Some(x)
    ensures Continues(schedule, next, r)
    ensures var w := After(ctx, schedule); var run := w.runs[r];
      After(ctx, next) == With(Spending(w, run.call.id, r), r,
        run.(pc := if x == Failed then Evaluating(Redecision) else Finished(x)))
  {
    hide After, ReportOf, Continues;
    var w := After(ctx, schedule);
    ProtocolReports.InFlightPlan(ctx, w, r, true);
    hide Plan;
    var reported := GoQuietly(ctx, schedule, r, w.runs[r].(pc := Consuming(x)));
    ConsumingPlan(ctx, After(ctx, reported), r);
    next := Go(ctx, reported, r);
    ContinuesOn(schedule, reported, next, r);
  }

  /** The state of a call whose condition failed, decided anew on current state. */
  function Redecided(ctx: Context, w: World, run: Run): Run {
    run.(pc := Finished(Failed), decisionId := w.nextDecision, recheckedAt := w.clock,
      refetches := AllAttempts(ctx, w.provider, run.call.intent, w.clock))
  }

  function NewOutcome(ctx: Context, w: World, run: Run): Outcome {
    var i := run.call.intent;
    var fetches := AllAttempts(ctx, w.provider, i, w.clock);
    Decided(ctx, i, Recomputed(ctx, i, CurrentVerdicts(ctx, run), fetches, w.clock), true)
  }

  /** A failed condition ends in a new decision on current state, and no second start. */
  lemma RedecidesAlone(ctx: Context, schedule: seq<Step>, r: RunId) returns (next: seq<Step>)
    requires var w := After(ctx, schedule); r in w.runs && w.runs[r].pc == Evaluating(Redecision)
    ensures Continues(schedule, next, r)
    ensures var w := After(ctx, schedule); var run := w.runs[r];
      After(ctx, next) == With(Saved(w, r, run.call, NewOutcome(ctx, w, run)), r, Redecided(ctx, w, run))
  {
    hide After, AllAttempts, CurrentVerdicts, Recomputed, DecideOn, Approval.RecordOf, Continues;
    var w := After(ctx, schedule);
    var run := w.runs[r];
    var concluding := EvaluatesAlone(ctx, schedule, r);
    var run1 := Concluded(run, Redecision, w.clock, AllAttempts(ctx, w.provider, run.call.intent, w.clock));
    SameVerdicts(ctx, run, run1);
    DecidedIs(ctx, run.call.intent,
      Recomputed(ctx, run.call.intent, CurrentVerdicts(ctx, run), run1.refetches, w.clock), true);
    hide Decided, Choice, Effective;
    ConcludingPlan(ctx, After(ctx, concluding), r);
    hide Plan;
    next := Go(ctx, concluding, r);
    ContinuesOn(schedule, concluding, next, r);
  }

  lemma SameVerdicts(ctx: Context, run: Run, run': Run)
    requires run'.fetches == run.fetches && run'.call == run.call && run'.validatedAt == run.validatedAt &&
      run'.revalidatedAt == run.revalidatedAt
    ensures CurrentVerdicts(ctx, run') == CurrentVerdicts(ctx, run)
  {
    hide Verdicts, Recomputed;
  }

  // ---- The whole call ---------------------------------------------------------------------------------

  /** Nothing on the id stands in the way of a call. */
  predicate Unhindered(ctx: Context, w: World, call: Call) {
    && call.id !in w.escalations && call.id !in w.authorizations && !PolicyMissing(ctx, call.intent)
    && !call.approved && (call.pinned || call.id !in w.used)
  }

  function Entered(w: World, r: RunId, call: Call): World {
    With(Noted(w.(used := w.used + {call.id}), Admitted(r, call.id, false)), r,
      Run(call, Validating, Idle, 0, 0, [], None, 0, []))
  }

  /** The guards of a call that reuses an id pass where nothing is on it. */
  lemma GuardsAlone(ctx: Context, schedule: seq<Step>, r: RunId) returns (next: seq<Step>)
    requires var w := After(ctx, schedule);
      && r in w.runs && w.runs[r].pc == EscalationGuard
      && w.runs[r].call.id !in w.escalations && w.runs[r].call.id !in w.authorizations
    ensures Continues(schedule, next, r)
    ensures var w := After(ctx, schedule); var run := w.runs[r];
      After(ctx, next) == With(Noted(w, Admitted(r, run.call.id, false)), r, run.(pc := Validating))
  {
    hide After, Continues;
    var w := After(ctx, schedule);
    GuardingPlan(ctx, w, r);
    hide Plan;
    var guarded := Go(ctx, schedule, r);
    GuardingPlan(ctx, After(ctx, guarded), r);
    next := GoQuietly(ctx, guarded, r, w.runs[r].(pc := Validating));
    ContinuesOn(schedule, guarded, next, r);
  }

  lemma EntersAlone(ctx: Context, schedule: seq<Step>, r: RunId, call: Call) returns (next: seq<Step>)
    requires r !in After(ctx, schedule).runs && Unhindered(ctx, After(ctx, schedule), call)
    ensures schedule + [Begin(r, call)] <= next && Continues(schedule + [Begin(r, call)], next, r)
    ensures After(ctx, next) == Entered(After(ctx, schedule), r, call)
  {
    next := schedule + [Begin(r, call)];
    StepAfter(ctx, schedule, Begin(r, call));
    hide After, PolicyMissing, Continues;
    var w := After(ctx, schedule);
    ContinuesSelf(next, r);
    if call.pinned {
      var guarded := GuardsAlone(ctx, next, r);
      StepsOn(next, guarded, r);
      WithOver(Noted(w.(used := w.used + {call.id}), Admitted(r, call.id, false)), r, After(ctx, next).runs[r],
        After(ctx, guarded).runs[r]);
      next := guarded;
    }
  }

  lemma ContinuesSelf(a: seq<Step>, r: RunId)
    ensures Continues(a, a, r)
  {
  }

  lemma GuardingPlan(ctx: Context, w: World, r: RunId)
    requires r in w.runs && w.runs[r].call.id !in w.escalations && w.runs[r].call.id !in w.authorizations
    ensures w.runs[r].pc == EscalationGuard ==>
      Plan(ctx, w, r, true) == (w.runs[r].(pc := LiveGuard), Guard(false))
    ensures w.runs[r].pc == LiveGuard ==> Plan(ctx, w, r, true) == (w.runs[r].(pc := Validating), Nothing)
  {
    hide PlanFetch, PlanConclusion, PlanSettling, PlanClaim, CurrentDecision, InitialDecision, Conditional,
      PolicyMissing, PolicyOf, Approval.Binds;
  }

  // ---- Under an approval ---------------------------------------------------------------------------------

  /** Where a call goes that consults its approval. */
  function Consulting(ctx: Context, w: World, run: Run): Pc {
    var id := run.call.id;
    match run.pc
    case ReadEscalation => if IsApproved(w, id) then ReadDecision(w.escalations[id].decisionId) else Stopped
    case ReadDecision(d) => if d in w.decisions then ReadAction(w.decisions[d]) else Stopped
    case ReadAction(record) =>
      if Approval.Binds(ctx.sensitive, record, Stored(w, id), run.call.intent) then LiveGuard else Stopped
    case LiveGuard => if Live(w.authorizations, id) then Stopped else Validating
    case _ => run.pc
  }

  predicate IsApproved(w: World, id: Id) {
    id in w.escalations && w.escalations[id].status == Approved
  }

  function Stored(w: World, id: Id): Option<Intent> {
    if id in w.actions then Some(w.actions[id]) else None
  }

  lemma ConsultingPlan(ctx: Context, w: World, r: RunId)
    requires r in w.runs
    requires var pc := w.runs[r].pc; pc.ReadEscalation? || pc.ReadDecision? || pc.ReadAction? || pc.LiveGuard?
    ensures var run := w.runs[r];
      Plan(ctx, w, r, true) == (run.(pc := Consulting(ctx, w, run)),
        if run.pc.ReadEscalation? && IsApproved(w, run.call.id) then Guard(true) else Nothing)
  {
    hide PlanFetch, PlanConclusion, PlanSettling, PlanClaim, CurrentDecision, InitialDecision, Conditional,
      PolicyMissing, PolicyOf, Approval.Binds;
  }

  /** The approval names a decision that is recorded, and the call is bound to it. */
  predicate BoundBy(ctx: Context, w: World, call: Call, d: Id) {
    d in w.decisions && Approval.Binds(ctx.sensitive, w.decisions[d], Stored(w, call.id), call.intent)
  }

  function Approached(w: World, r: RunId, call: Call, pc: Pc): World {
    With(w.(used := w.used + {call.id}), r, Run(call, pc, Idle, 0, 0, [], None, 0, []))
  }

  /** The world after the escalation was read. */
  function Consulted(w: World, r: RunId, call: Call): World {
    if IsApproved(w, call.id) then
      Approached(Noted(w, Admitted(r, call.id, true)), r, call, ReadDecision(w.escalations[call.id].decisionId))
    else Approached(w, r, call, Stopped)
  }

  lemma ReadsAlone(ctx: Context, schedule: seq<Step>, r: RunId, call: Call) returns (next: seq<Step>)
    requires r !in After(ctx, schedule).runs && call.approved
    ensures Continues(schedule + [Begin(r, call)], next, r)
    ensures After(ctx, next) == Consulted(After(ctx, schedule), r, call)
  {
    hide After, Continues, Consulted, Plan, Written;
    var begun := schedule + [Begin(r, call)];
    StepAfter(ctx, schedule, Begin(r, call));
    FirstRead(ctx, After(ctx, schedule), r, call);
    next := Go(ctx, begun, r);
  }

  lemma FirstRead(ctx: Context, w: World, r: RunId, call: Call)
    requires call.approved
    ensures var w' := BeginRun(w, r, call); var (run, write) := Plan(ctx, w', r, true);
      With(Written(ctx, w', r, run.call, write), r, run) == Consulted(w, r, call)
  {
    var w' := BeginRun(w, r, call);
    ConsultingPlan(ctx, w', r);
    var run := w'.runs[r].(pc := Consulting(ctx, w', w'.runs[r]));
    hide Plan;
    WithOver(w.(used := w.used + {call.id}), r, w'.runs[r], run);
  }

  /** An approved call left alone gets to its validation exactly if the escalation is
      approved, the call is bound to what was escalated and no live authorization stands
      in its way; else it stops, and either way it has written nothing. */
  lemma ApprovedEntersAlone(ctx: Context, schedule: seq<Step>, r: RunId, call: Call) returns (next: seq<Step>)
    requires r !in After(ctx, schedule).runs && call.approved
    ensures schedule + [Begin(r, call)] <= next && Continues(schedule + [Begin(r, call)], next, r)
    ensures var w, id := After(ctx, schedule), call.id;
      After(ctx, next) ==
        if !IsApproved(w, id) then Approached(w, r, call, Stopped)
        else
          var bound := BoundBy(ctx, w, call, w.escalations[id].decisionId) && !Live(w.authorizations, id);
          Approached(Noted(w, Admitted(r, id, true)), r, call, if bound then Validating else Stopped)
  {
    hide After, BoundBy, Live, Continues;
    var begun := schedule + [Begin(r, call)];
    var w := After(ctx, schedule);
    next := ReadsAlone(ctx, schedule, r, call);
    if IsApproved(w, call.id) {
      var on := ApprovedReadsAlone(ctx, next, r);
      ContinuesOn(begun, next, on, r);
      SameBinding(ctx, w, After(ctx, next), call, w.escalations[call.id].decisionId);
      next := on;
    }
    StepsOn(begun, next, r);
  }

  lemma SameBinding(ctx: Context, w: World, w': World, call: Call, d: Id)
    requires w'.decisions == w.decisions && w'.actions == w.actions
    ensures BoundBy(ctx, w', call, d) == BoundBy(ctx, w, call, d)
  {
    hide Approval.Binds;
  }

  /** How many steps of the consultation are left. */
  function Left(pc: Pc): nat {
    match pc case ReadDecision(_) => 3 case ReadAction(_) => 2 case LiveGuard => 1 case _ => 0
  }

  /** Where the consultation ends. */
  function Destination(ctx: Context, w: World, run: Run): Pc
    decreases Left(run.pc)
  {
    if Left(run.pc) == 0 then run.pc else Destination(ctx, w, run.(pc := Consulting(ctx, w, run)))
  }

  lemma {:induction false} ConsultsOnAlone(ctx: Context, schedule: seq<Step>, r: RunId, left: nat)
    returns (next: seq<Step>)
    requires r in After(ctx, schedule).runs && Left(After(ctx, schedule).runs[r].pc) <= left
    ensures Continues(schedule, next, r)
    ensures var w := After(ctx, schedule); var run := w.runs[r];
      After(ctx, next) == With(w, r, run.(pc := Destination(ctx, w, run)))
    decreases left
  {
    hide After, Consulting, Continues, With, Destination;
    var w := After(ctx, schedule);
    var run := w.runs[r];
    DestinationStep(ctx, w, r);
    if Left(run.pc) == 0 {
      next := schedule;
      ContinuesSelf(schedule, r);
    } else {
      next := ConsultsAlone(ctx, schedule, r);
      var w1 := After(ctx, next);
      var on := ConsultsOnAlone(ctx, next, r, left - 1);
      ContinuesOn(schedule, next, on, r);
      next := on;
    }
  }

  /** What the recursion rests on, on worlds. */
  lemma DestinationStep(ctx: Context, w: World, r: RunId)
    requires r in w.runs
    ensures var run := w.runs[r];
      && (Left(run.pc) == 0 ==> w == With(w, r, run.(pc := Destination(ctx, w, run))))
      && (Left(run.pc) > 0 ==>
        var run1 := run.(pc := Consulting(ctx, w, run)); var w1 := With(w, r, run1);
        && r in w1.runs && w1.runs[r] == run1 && Left(run1.pc) < Left(run.pc)
        && With(w1, r, run1.(pc := Destination(ctx, w1, run1))) == With(w, r, run.(pc := Destination(ctx, w, run))))
  {
    hide Consulting, Destination;
    var run := w.runs[r];
    DestinationUnfolds(ctx, w, run);
    if Left(run.pc) == 0 {
      assert run.(pc := run.pc) == run && w.runs[r := run] == w.runs;
    } else {
      var run1 := run.(pc := Consulting(ctx, w, run));
      ConsultingShortens(ctx, w, run);
      SameDestination(ctx, w, With(w, r, run1), run1);
      WithOver(w, r, run1, run1.(pc := Destination(ctx, w, run1)));
    }
  }

  lemma DestinationUnfolds(ctx: Context, w: World, run: Run)
    ensures Destination(ctx, w, run) ==
      if Left(run.pc) == 0 then run.pc else Destination(ctx, w, run.(pc := Consulting(ctx, w, run)))
  {
    hide Consulting;
  }

  lemma ConsultingShortens(ctx: Context, w: World, run: Run)
    requires Left(run.pc) > 0
    ensures Left(Consulting(ctx, w, run)) < Left(run.pc)
  {
    hide Approval.Binds;
  }

  lemma {:induction false} SameDestination(ctx: Context, w: World, w': World, run: Run)
    requires w'.decisions == w.decisions && w'.actions == w.actions && w'.authorizations == w.authorizations
    ensures Destination(ctx, w', run) == Destination(ctx, w, run)
    decreases Left(run.pc)
  {
    hide Approval.Binds, Live;
    if Left(run.pc) > 0 {
      assert Consulting(ctx, w', run) == Consulting(ctx, w, run) || run.pc.LiveGuard?;
      SameDestination(ctx, w, w', run.(pc := Consulting(ctx, w, run)));
    }
  }

  /** From the decision the approval names to the validation. */
  lemma ApprovedReadsAlone(ctx: Context, schedule: seq<Step>, r: RunId) returns (next: seq<Step>)
    requires var w := After(ctx, schedule); r in w.runs && w.runs[r].pc.ReadDecision?
    ensures Continues(schedule, next, r)
    ensures var w := After(ctx, schedule); var run := w.runs[r];
      var bound := BoundBy(ctx, w, run.call, run.pc.decisionId) && !Live(w.authorizations, run.call.id);
      After(ctx, next) == With(w, r, run.(pc := if bound then Validating else Stopped))
  {
    hide After, Continues;
    next := ConsultsOnAlone(ctx, schedule, r, 3);
    DestinationIs(ctx, After(ctx, schedule), After(ctx, schedule).runs[r]);
    hide Destination, BoundBy, Live;
  }

  lemma DestinationIs(ctx: Context, w: World, run: Run)
    requires run.pc.ReadDecision?
    ensures Destination(ctx, w, run) ==
      if BoundBy(ctx, w, run.call, run.pc.decisionId) && !Live(w.authorizations, run.call.id) then Validating
      else Stopped
  {
    hide Approval.Binds, Live;
    var second := run.(pc := Consulting(ctx, w, run));
    var third := second.(pc := Consulting(ctx, w, second));
    assert Destination(ctx, w, run) == Destination(ctx, w, second) == Destination(ctx, w, third);
    assert Destination(ctx, w, third) == if third.pc.LiveGuard? then Consulting(ctx, w, third) else third.pc;
  }

  lemma ConsultsAlone(ctx: Context, schedule: seq<Step>, r: RunId) returns (next: seq<Step>)
    requires var w := After(ctx, schedule);
      r in w.runs && (w.runs[r].pc.ReadDecision? || w.runs[r].pc.ReadAction? || w.runs[r].pc.LiveGuard?)
    ensures Continues(schedule, next, r)
    ensures var w := After(ctx, schedule); var run := w.runs[r];
      After(ctx, next) == With(w, r, run.(pc := Consulting(ctx, w, run)))
  {
    hide After, Consulting, Continues;
    var w := After(ctx, schedule);
    ConsultingPlan(ctx, w, r);
    hide Plan;
    next := GoQuietly(ctx, schedule, r, w.runs[r].(pc := Consulting(ctx, w, w.runs[r])));
  }

  // ---- The decision of a call left alone ------------------------------------------------------------------

  /** Time stands still, no other call moves and no record is lost. */
  ghost predicate Onward(w: World, w': World, r: RunId) {
    && w'.clock == w.clock && w.nextDecision <= w'.nextDecision
    && (forall d :: d in w.decisions && d < w.nextDecision ==> d in w'.decisions && w'.decisions[d] == w.decisions[d])
    && r in w'.runs && w'.runs == w.runs[r := w'.runs[r]]
  }

  lemma OnwardOn(a: World, b: World, c: World, r: RunId)
    requires Onward(a, b, r) && Onward(b, c, r)
    ensures Onward(a, c, r)
  {
  }

  /** The record of a decision on the call. */
  predicate Records(w: World, d: Id, call: Call, o: Outcome) {
    && d in w.decisions && d < w.nextDecision
    && w.decisions[d].id == d && w.decisions[d].actionId == call.id && w.decisions[d].outcome == o
    && w.decisions[d].tool == call.intent.tool && w.decisions[d].operation == call.intent.operation
    && w.decisions[d].target == call.intent.target
    && |w.decisions[d].refs| == |call.intent.dependencies|
    && forall k | 0 <= k < |call.intent.dependencies| :: w.decisions[d].refs[k] == call.intent.dependencies[k].ref
  }

  lemma RecordStays(w: World, w': World, r: RunId, d: Id, call: Call, o: Outcome)
    requires Records(w, d, call, o) && Onward(w, w', r)
    ensures Records(w', d, call, o)
  {
  }

  lemma SavedRecords(w: World, w': World, r: RunId, call: Call, o: Outcome)
    requires w'.decisions == Saved(w, r, call, o).decisions && w'.nextDecision == w.nextDecision + 1
    ensures Records(w', w.nextDecision, call, o)
  {
  }

  /** What every call that enters leaves on the tape. */
  function Opening(ctx: Context, r: RunId, call: Call): seq<Event> {
    [Admitted(r, call.id, false),
      Looked(r, call.id, false, PolicyOf(ctx, call.intent).execution.allowIdempotentRetry && call.executor.idempotent)]
  }

  /** The decision is taken and recorded, and nothing else has happened. */
  ghost predicate Decides(ctx: Context, w: World, w': World, r: RunId, call: Call) {
    && Onward(w, w', r) && w'.tape == w.tape + Opening(ctx, r, call)
    && w'.provider == w.provider && w'.births == w.births
    && w'.authorizations == w.authorizations && w'.escalations == w.escalations
    && Records(w', w.nextDecision, call, FirstOutcome(ctx, w.provider, call.intent, w.clock))
    && var run := w'.runs[r]; var o := SettledOutcome(ctx, w.provider, call.intent, w.clock);
      && run.call == call && run.pc == Settling && run.task == Idle && run.validatedAt == w.clock
      && run.fetches == AllAttempts(ctx, w.provider, call.intent, w.clock)
      && Effective(ctx, CurrentDecision(ctx, run)) == o && Records(w', run.decisionId, call, o)
  }

  /** The call is admitted, validated and about to look. */
  ghost predicate Validates(ctx: Context, w: World, w': World, r: RunId, call: Call) {
    && Onward(w, w', r) && w'.tape == w.tape + [Admitted(r, call.id, false)]
    && w'.provider == w.provider && w'.births == w.births
    && w'.authorizations == w.authorizations && w'.escalations == w.escalations
    && w'.nextDecision == w.nextDecision + 1
    && Records(w', w.nextDecision, call, FirstOutcome(ctx, w.provider, call.intent, w.clock))
    && var run := w'.runs[r];
      && run.call == call && run.pc == ConsumedGuard && run.task == Idle && JustValidated(ctx, w', run)
  }

  lemma ValidatedNow(ctx: Context, w: World, w': World, r: RunId, call: Call)
    requires r !in w.runs
    requires var w1 := Entered(w, r, call);
      w' == With(Saved(Kept(ctx, w1, call), r, call, FirstOutcome(ctx, w.provider, call.intent, w.clock)), r,
        Validated(ctx, w1, w1.runs[r]))
    ensures Validates(ctx, w, w', r, call)
  {
    hide AllAttempts, FirstOutcome, RiskOf, Approval.RecordedIntent, Approval.RecordOf, Records;
    var first := FirstOutcome(ctx, w.provider, call.intent, w.clock);
    SavedRecords(Kept(ctx, Entered(w, r, call), call), w', r, call, first);
  }

  lemma DecidedNow(ctx: Context, w: World, w2: World, w3: World, r: RunId, call: Call)
    requires Validates(ctx, w, w2, r, call) && Settles(ctx, w2, w3, r) && call.id !in w.authorizations
    ensures Decides(ctx, w, w3, r, call)
  {
    hide PolicyOf, AllAttempts, FirstOutcome, SettledOutcome, CurrentDecision, Approval.RecordOf, Records;
    var first := FirstOutcome(ctx, w.provider, call.intent, w.clock);
    var o := SettledOutcome(ctx, w.provider, call.intent, w.clock);
    if first == Revalidate {
      SavedRecords(w2, w3, r, call, o);
    } else {
      SettledOutcomeIs(ctx, w.provider, call.intent, w.clock);
    }
    assert w.tape + [Admitted(r, call.id, false)] + [Looked(r, call.id, false, MayRetry(ctx, w2.runs[r]))] ==
      w.tape + Opening(ctx, r, call);
    assert Onward(w2, w3, r);
    OnwardOn(w, w2, w3, r);
    RecordStays(w2, w3, r, w.nextDecision, call, first);
  }

  lemma DecidesAlone(ctx: Context, schedule: seq<Step>, r: RunId, call: Call) returns (next: seq<Step>)
    requires r !in After(ctx, schedule).runs && Unhindered(ctx, After(ctx, schedule), call)
    ensures schedule + [Begin(r, call)] <= next && Continues(schedule + [Begin(r, call)], next, r)
    ensures Decides(ctx, After(ctx, schedule), After(ctx, next), r, call)
  {
    hide After, PolicyMissing, PolicyOf, AllAttempts, FirstOutcome, SettledOutcome, CurrentDecision;
    hide Continues, Approval.RecordedIntent, Approval.RecordOf, RiskOf, Decides, Settles, Records;
    var begun := schedule + [Begin(r, call)];
    var w := After(ctx, schedule);
    var entered := EntersAlone(ctx, schedule, r, call);
    var validated := ValidatesAlone(ctx, entered, r);
    ContinuesOn(begun, entered, validated, r);
    var w2 := After(ctx, validated);
    ValidatedNow(ctx, w, w2, r, call);
    next := SettlesAlone(ctx, validated, r);
    ContinuesOn(begun, validated, next, r);
    StepsOn(begun, next, r);
    DecidedNow(ctx, w, w2, After(ctx, next), r, call);
  }

  lemma StepsOn(a: seq<Step>, b: seq<Step>, r: RunId)
    requires Continues(a, b, r)
    ensures a <= b
  {
  }

  lemma SettledOutcomeIs(ctx: Context, s: State, i: Intent, at: int)
    ensures FirstOutcome(ctx, s, i, at) != Revalidate ==> SettledOutcome(ctx, s, i, at) == FirstOutcome(ctx, s, i, at)
  {
    hide FirstOutcome;
  }

  /** The call is held on a record that escalates it, and has touched nothing. */
  ghost predicate EndsHeld(ctx: Context, w: World, w': World, r: RunId, call: Call) {
    && Onward(w, w', r) && w'.runs[r].call == call && w'.runs[r].pc == Stopped
    && w'.tape == w.tape + Opening(ctx, r, call) + [Held(r, call.id)]
    && w'.provider == w.provider && w'.authorizations == w.authorizations
    && call.id in w'.escalations && w'.escalations == w.escalations[call.id := w'.escalations[call.id]]
    && w'.escalations[call.id].status == Pending && Records(w', w'.escalations[call.id].decisionId, call, Escalate)
  }

  /** The call has stopped on a record of its decision and has touched nothing. */
  ghost predicate EndsStopped(ctx: Context, w: World, w': World, r: RunId, call: Call, o: Outcome) {
    && Onward(w, w', r) && w'.runs[r].call == call && w'.runs[r].pc == Stopped
    && w'.tape == w.tape + Opening(ctx, r, call)
    && w'.provider == w.provider && w'.authorizations == w.authorizations && w'.escalations == w.escalations
    && exists d :: Records(w', d, call, o)
  }

  /** The authorization the call is granted: until its deadline, on the fingerprint
      of what it fetched, and with those entries where it runs on a condition. */
  ghost predicate GrantedTo(ctx: Context, w: World, r: RunId, run: Run, a: Authorization) {
    && a.holder == r && a.expiresAt == w.clock + Deadline(ctx, run.call.intent)
    && a.fingerprint == Hashing.Fingerprint(ctx.engine.hash, EntriesOf(SnapshotsOf(run.fetches)))
    && a.expectedState == if Conditional(run) then Some(EntriesOf(SnapshotsOf(run.fetches))) else None
  }

  /** The call has claimed, executed on its condition and consumed: the provider has
      applied the executor's changes, and nothing else, exactly if the call was aimed. */
  ghost predicate EndsOnCondition(ctx: Context, w: World, w': World, r: RunId, call: Call) {
    && Onward(w, w', r) && w'.runs[r].call == call && w'.escalations == w.escalations
    && call.id in w'.authorizations && w'.authorizations == w.authorizations[call.id := w'.authorizations[call.id]]
    && w'.authorizations[call.id].consumed && GrantedTo(ctx, w, r, w'.runs[r], w'.authorizations[call.id])
    && var key, begun := KeyOf(call.executor.target), w.tape + Opening(ctx, r, call) + [Claimed(r, call.id)] +
        [Started(r, call.id)];
      if Aimed(w'.runs[r]) then
        && w'.runs[r].pc == Finished(Satisfied)
        && key in w.provider.resources && key in w'.provider.resources
        && MutatedAt(w.provider, w'.provider, key, call.executor.changes,
          w'.provider.resources[key].updatedAt, w'.provider.resources[key].version)
        && w'.tape == begun + [Swapped(r, call.id, key, w.provider.resources[key], w'.provider.resources[key])] +
          [Consumed(r, call.id)]
      else
        && w'.runs[r].pc == Finished(Failed) && w'.provider == w.provider
        && w'.tape == begun + [Consumed(r, call.id)]
  }

  /** The call has claimed; what it then does without a condition waits for its
      re-check, which blocks exactly where nothing could be fetched. */
  ghost predicate EndsUnconditional(ctx: Context, w: World, w': World, r: RunId, call: Call) {
    && Onward(w, w', r) && w'.runs[r].call == call && w'.provider == w.provider && w'.escalations == w.escalations
    && call.id in w'.authorizations && w'.authorizations == w.authorizations[call.id := w'.authorizations[call.id]]
    && GrantedTo(ctx, w, r, w'.runs[r], w'.authorizations[call.id])
    && var begun := w.tape + Opening(ctx, r, call) + [Claimed(r, call.id)];
      if PolicyOf(ctx, call.intent).execution.requireFresh && NothingFetched(ctx, w.provider, call.intent) then
        && w'.runs[r].pc == Stopped && !w'.authorizations[call.id].consumed
        && w'.tape == begun + [Froze(r, call.id)]
      else
        && w'.runs[r].pc == Finished(NotAttempted) && w'.authorizations[call.id].consumed
        && w'.tape == begun + [Started(r, call.id)] + [Consumed(r, call.id)]
  }

  /** How a call ends that nothing interrupts. */
  ghost predicate Ends(ctx: Context, w: World, w': World, r: RunId, call: Call) {
    var i := call.intent;
    var o := SettledOutcome(ctx, w.provider, i, w.clock);
    && Records(w', w.nextDecision, call, FirstOutcome(ctx, w.provider, i, w.clock))
    && r in w'.runs && w'.runs[r].fetches == AllAttempts(ctx, w.provider, i, w.clock)
    && if o == Escalate then EndsHeld(ctx, w, w', r, call)
      else if o != Allow then EndsStopped(ctx, w, w', r, call, o)
      else if PolicyOf(ctx, i).execution.requireConditional && !ProtocolReports.OnCondition(w'.runs[r]) then
        if GateOf(ctx, i) == Escalate then EndsHeld(ctx, w, w', r, call)
        else EndsStopped(ctx, w, w', r, call, GateOf(ctx, i))
      else if ProtocolReports.OnCondition(w'.runs[r]) then EndsOnCondition(ctx, w, w', r, call)
      else EndsUnconditional(ctx, w, w', r, call)
  }

  lemma HeldNow(ctx: Context, w: World, w1: World, w2: World, w3: World, r: RunId, call: Call, d: Id)
    requires Decides(ctx, w, w1, r, call) && Onward(w1, w2, r) && Records(w2, d, call, Escalate)
    requires w2.tape == w1.tape && w2.provider == w1.provider && w2.authorizations == w1.authorizations
    requires w2.escalations == w1.escalations
    requires w3 == With(HeldUnder(w2, call.id, d, r), r, w1.runs[r].(pc := Stopped))
    ensures EndsHeld(ctx, w, w3, r, call)
    ensures Records(w3, w.nextDecision, call, FirstOutcome(ctx, w.provider, call.intent, w.clock))
    ensures w3.runs[r].fetches == AllAttempts(ctx, w.provider, call.intent, w.clock)
  {
    hide FirstOutcome, SettledOutcome, AllAttempts, CurrentDecision, Opening, Records;
    assert Onward(w2, w3, r);
    OnwardOn(w, w1, w2, r);
    OnwardOn(w, w2, w3, r);
    OnwardOn(w1, w2, w3, r);
    RecordStays(w2, w3, r, d, call, Escalate);
    RecordStays(w1, w3, r, w.nextDecision, call, FirstOutcome(ctx, w.provider, call.intent, w.clock));
  }

  lemma StoppedNow(ctx: Context, w: World, w1: World, w2: World, r: RunId, call: Call, o: Outcome, d: Id)
    requires Decides(ctx, w, w1, r, call) && Onward(w1, w2, r) && Records(w2, d, call, o)
    requires w2.tape == w1.tape && w2.provider == w1.provider && w2.authorizations == w1.authorizations
    requires w2.escalations == w1.escalations && w2.runs[r] == w1.runs[r].(pc := Stopped)
    ensures EndsStopped(ctx, w, w2, r, call, o)
    ensures Records(w2, w.nextDecision, call, FirstOutcome(ctx, w.provider, call.intent, w.clock))
    ensures w2.runs[r].fetches == AllAttempts(ctx, w.provider, call.intent, w.clock)
  {
    hide FirstOutcome, SettledOutcome, AllAttempts, CurrentDecision, Opening, Records;
    OnwardOn(w, w1, w2, r);
    RecordStays(w1, w2, r, w.nextDecision, call, FirstOutcome(ctx, w.provider, call.intent, w.clock));
  }

  /** Where the decision does not let the call execute. */
  lemma EndsUndecided(ctx: Context, schedule: seq<Step>, begun: seq<Step>, r: RunId, call: Call)
    returns (next: seq<Step>)
    requires Decides(ctx, After(ctx, schedule), After(ctx, begun), r, call) && !call.approved
    requires SettledOutcome(ctx, After(ctx, schedule).provider, call.intent, After(ctx, schedule).clock) != Allow
    ensures Continues(begun, next, r) && Ends(ctx, After(ctx, schedule), After(ctx, next), r, call)
  {
    hide After, FirstOutcome, SettledOutcome, AllAttempts, CurrentDecision, Opening, Records, Continues;
    hide EndsHeld, EndsStopped, EndsOnCondition, EndsUnconditional;
    var w, w1 := After(ctx, schedule), After(ctx, begun);
    next := StopsAlone(ctx, begun, r);
    var o := SettledOutcome(ctx, w.provider, call.intent, w.clock);
    var w2 := After(ctx, next);
    if o == Escalate {
      HeldNow(ctx, w, w1, w1, w2, r, call, w1.runs[r].decisionId);
    } else {
      assert Onward(w1, w2, r);
      RecordStays(w1, w2, r, w1.runs[r].decisionId, call, o);
      StoppedNow(ctx, w, w1, w2, r, call, o, w1.runs[r].decisionId);
    }
  }

  /** Where the policy requires a condition that cannot be had. */
  lemma EndsGated(ctx: Context, schedule: seq<Step>, begun: seq<Step>, r: RunId, call: Call) returns (next: seq<Step>)
    requires Decides(ctx, After(ctx, schedule), After(ctx, begun), r, call) && ctx.mode != Observe
    requires SettledOutcome(ctx, After(ctx, schedule).provider, call.intent, After(ctx, schedule).clock) == Allow
    requires Gated(ctx, After(ctx, begun).runs[r])
    ensures Continues(begun, next, r) && Ends(ctx, After(ctx, schedule), After(ctx, next), r, call)
  {
    hide After, FirstOutcome, SettledOutcome, AllAttempts, Decides, Records, Continues, PolicyOf, Conditional;
    hide EndsHeld, EndsStopped, EndsOnCondition, EndsUnconditional, Saved, HeldUnder, GateOf;
    hide ProtocolReports.OnCondition;
    var w, w1 := After(ctx, schedule), After(ctx, begun);
    DecidedCall(ctx, w, w1, r, call);
    next := GateStopsAlone(ctx, begun, r);
    var w' := After(ctx, next);
    GatedNow(ctx, w, w1, w', r, call);
    ProtocolReports.ConditionalExactly(w'.runs[r]);
    SameCondition(w1.runs[r], w'.runs[r]);
  }

  lemma DecidedCall(ctx: Context, w: World, w1: World, r: RunId, call: Call)
    requires Decides(ctx, w, w1, r, call)
    ensures r in w1.runs && w1.runs[r].call == call && w1.runs[r].pc == Settling
    ensures Effective(ctx, CurrentDecision(ctx, w1.runs[r])) ==
      SettledOutcome(ctx, w.provider, call.intent, w.clock)
  {
    hide Records, CurrentDecision, SettledOutcome, FirstOutcome, AllAttempts, Opening;
  }

  lemma GatedNow(ctx: Context, w: World, w1: World, w': World, r: RunId, call: Call)
    requires Decides(ctx, w, w1, r, call)
    requires var gate := GateOf(ctx, call.intent); var w2 := Saved(w1, r, call, gate);
      w' == With(if gate == Escalate then HeldUnder(w2, call.id, w1.nextDecision, r) else w2, r,
        w1.runs[r].(pc := Stopped))
    ensures if GateOf(ctx, call.intent) == Escalate then EndsHeld(ctx, w, w', r, call)
      else EndsStopped(ctx, w, w', r, call, GateOf(ctx, call.intent))
    ensures Records(w', w.nextDecision, call, FirstOutcome(ctx, w.provider, call.intent, w.clock))
    ensures w'.runs[r].fetches == AllAttempts(ctx, w.provider, call.intent, w.clock)
    ensures w'.runs[r].fetches == w1.runs[r].fetches && w'.runs[r].call == call
  {
    hide FirstOutcome, SettledOutcome, AllAttempts, CurrentDecision, Opening, Records, EndsHeld, EndsStopped;
    hide Approval.RecordOf, GateOf;
    var gate := GateOf(ctx, call.intent);
    var w2 := Saved(w1, r, call, gate);
    SavedRecords(w1, w2, r, call, gate);
    assert Onward(w1, w2, r);
    if gate == Escalate {
      HeldNow(ctx, w, w1, w2, w', r, call, w1.nextDecision);
    } else {
      SavedRecords(w1, w', r, call, gate);
      StoppedNow(ctx, w, w1, w', r, call, gate, w1.nextDecision);
    }
  }

  /** The call has claimed on what it was validated on. */
  ghost predicate Claims(ctx: Context, w: World, w': World, r: RunId, call: Call) {
    && Onward(w, w', r) && w'.tape == w.tape + Opening(ctx, r, call) + [Claimed(r, call.id)]
    && w'.provider == w.provider && w'.births == w.births && w'.escalations == w.escalations
    && call.id in w'.authorizations && w'.authorizations == w.authorizations[call.id := w'.authorizations[call.id]]
    && !w'.authorizations[call.id].consumed && GrantedTo(ctx, w, r, w'.runs[r], w'.authorizations[call.id])
    && Records(w', w.nextDecision, call, FirstOutcome(ctx, w.provider, call.intent, w.clock))
    && var run := w'.runs[r];
      && run.call == call && run.task == Idle && run.validatedAt == w.clock
      && run.fetches == AllAttempts(ctx, w.provider, call.intent, w.clock)
      && run.pc == if Rechecks(ctx, run) then Evaluating(Recheck) else Starting
  }

  lemma ClaimedNow(ctx: Context, w: World, w1: World, w2: World, r: RunId, call: Call)
    requires Decides(ctx, w, w1, r, call)
    requires var run := w1.runs[r].(pc := Claiming); var w' := With(w1, r, run);
      w2 == With(Granted(ctx, w', r, run), r, run.(pc := if Rechecks(ctx, run) then Evaluating(Recheck) else Starting))
    ensures Claims(ctx, w, w2, r, call)
  {
    hide FirstOutcome, SettledOutcome, AllAttempts, CurrentDecision, Opening, Records, PolicyOf, RiskOf;
    hide EntriesOf, SnapshotsOf, Hashing.Fingerprint;
    assert Onward(w1, w2, r);
    OnwardOn(w, w1, w2, r);
    RecordStays(w1, w2, r, w.nextDecision, call, FirstOutcome(ctx, w.provider, call.intent, w.clock));
  }

  lemma ClaimAlone(ctx: Context, schedule: seq<Step>, begun: seq<Step>, r: RunId, call: Call) returns (next: seq<Step>)
    requires Decides(ctx, After(ctx, schedule), After(ctx, begun), r, call)
    requires call.id !in After(ctx, schedule).authorizations && !Gated(ctx, After(ctx, begun).runs[r])
    requires SettledOutcome(ctx, After(ctx, schedule).provider, call.intent, After(ctx, schedule).clock) == Allow
    ensures Continues(begun, next, r) && Claims(ctx, After(ctx, schedule), After(ctx, next), r, call)
  {
    hide After, FirstOutcome, SettledOutcome, AllAttempts, CurrentDecision, Opening, Records, Continues, PolicyOf;
    hide Granted, Rechecks, Claims, Gated;
    var w, w1 := After(ctx, schedule), After(ctx, begun);
    var on := ProceedsAlone(ctx, begun, r);
    next := ClaimsAlone(ctx, on, r);
    ContinuesOn(begun, on, next, r);
    ClaimedNow(ctx, w, w1, After(ctx, next), r, call);
  }

  /** The execution on a condition. */
  lemma EndsOnConditionAlone(ctx: Context, schedule: seq<Step>, claimed: seq<Step>, r: RunId, call: Call)
    returns (next: seq<Step>)
    requires Claims(ctx, After(ctx, schedule), After(ctx, claimed), r, call)
    requires Conditional(After(ctx, claimed).runs[r])
    ensures Continues(claimed, next, r)
    ensures EndsOnCondition(ctx, After(ctx, schedule), After(ctx, next), r, call)
    ensures Onward(After(ctx, claimed), After(ctx, next), r)
    ensures var run' := After(ctx, next).runs[r];
      run'.fetches == After(ctx, claimed).runs[r].fetches && run'.call == call
  {
    hide After, Continues, FirstOutcome, AllAttempts, Opening, Records, PolicyOf, EntriesOf, SnapshotsOf, Aimed;
    hide Deadline, EndsOnCondition, GrantedTo;
    var w2 := After(ctx, claimed);
    var started := StartsAlone(ctx, claimed, r);
    var w3 := After(ctx, started);
    assert StillCurrent(ctx, w3, w3.runs[r]);
    var acted := ActsAlone(ctx, started, r);
    ContinuesOn(claimed, started, acted, r);
    if Aimed(w3.runs[r]) {
      next := SatisfiedAlone(ctx, schedule, claimed, acted, r, call);
    } else {
      next := FailedAlone(ctx, schedule, claimed, acted, r, call);
    }
    ContinuesOn(claimed, acted, next, r);
  }

  lemma SatisfiedAlone(
    ctx: Context, schedule: seq<Step>, claimed: seq<Step>, acted: seq<Step>, r: RunId, call: Call)
    returns (next: seq<Step>)
    requires Claims(ctx, After(ctx, schedule), After(ctx, claimed), r, call)
    requires var w2 := After(ctx, claimed); var run := w2.runs[r].(pc := InFlight, task := Waiting);
      var w3 := With(Noted(w2, Started(r, call.id)), r, run);
      var key, s := KeyOf(call.executor.target), Mutated(w3, run);
      && Conditional(run) && Aimed(run)
      && key in w3.provider.resources && key in s.resources && After(ctx, acted) == SwapIn(w3, r, key, s)
      && MutatedAt(w3.provider, s, key, call.executor.changes, s.resources[key].updatedAt, s.resources[key].version)
    ensures Continues(acted, next, r)
    ensures EndsOnCondition(ctx, After(ctx, schedule), After(ctx, next), r, call)
    ensures Onward(After(ctx, claimed), After(ctx, next), r)
    ensures var run' := After(ctx, next).runs[r];
      run'.fetches == After(ctx, claimed).runs[r].fetches && run'.call == call
  {
    hide After, Continues, FirstOutcome, AllAttempts, Opening, Records, PolicyOf, EntriesOf, SnapshotsOf;
    hide Deadline, FindSnapshot, MutatedAt, Mutated, Recorded, EndsOnCondition, GrantedTo;
    next := ReportsAlone(ctx, acted, r, Satisfied);
    var w, w2, w' := After(ctx, schedule), After(ctx, claimed), After(ctx, next);
    SatisfiedNow(ctx, w, w2, w', r, call);
  }

  lemma SatisfiedNow(ctx: Context, w: World, w2: World, w': World, r: RunId, call: Call)
    requires Claims(ctx, w, w2, r, call) && r in w'.runs && w'.runs[r].pc == Finished(Satisfied)
    requires w'.runs[r].call == call && w'.runs[r].fetches == w2.runs[r].fetches && Aimed(w'.runs[r])
    requires w'.clock == w2.clock && w'.escalations == w2.escalations && w'.runs == w2.runs[r := w'.runs[r]]
    requires w'.nextDecision == w2.nextDecision && w'.decisions == w2.decisions
    requires w'.authorizations == Store.Consume(w2.authorizations, call.id)
    requires var key := KeyOf(call.executor.target);
      && key in w2.provider.resources && key in w'.provider.resources
      && MutatedAt(w2.provider, w'.provider, key, call.executor.changes, w'.provider.resources[key].updatedAt,
        w'.provider.resources[key].version)
      && w'.tape == w2.tape + [Started(r, call.id)] +
        [Swapped(r, call.id, key, w2.provider.resources[key], w'.provider.resources[key])] + [Consumed(r, call.id)]
    ensures EndsOnCondition(ctx, w, w', r, call) && Onward(w2, w', r)
  {
    hide FirstOutcome, AllAttempts, Opening, Records, PolicyOf, EntriesOf, SnapshotsOf, Deadline, FindSnapshot;
    hide MutatedAt;
    OnwardOn(w, w2, w', r);
  }

  /** The call refused by the provider, reported and about to be decided anew. */
  function RefusedWorld(w2: World, r: RunId, run: Run, id: Id): World {
    With(Spending(Noted(w2, Started(r, id)), id, r), r, run.(pc := Evaluating(Redecision), task := Refused))
  }

  lemma ReportsRefusalAlone(ctx: Context, acted: seq<Step>, w2: World, r: RunId, id: Id) returns (next: seq<Step>)
    requires r in w2.runs && w2.runs[r].call.id == id && Conditional(w2.runs[r])
    requires After(ctx, acted) ==
      WithTask(With(Noted(w2, Started(r, id)), r, w2.runs[r].(pc := InFlight, task := Waiting)), r, Refused)
    ensures Continues(acted, next, r) && After(ctx, next) == RefusedWorld(w2, r, w2.runs[r], id)
  {
    hide After, Continues, EntriesOf, SnapshotsOf;
    next := ReportsAlone(ctx, acted, r, Failed);
  }

  lemma FailedAlone(
    ctx: Context, schedule: seq<Step>, claimed: seq<Step>, acted: seq<Step>, r: RunId, call: Call)
    returns (next: seq<Step>)
    requires Claims(ctx, After(ctx, schedule), After(ctx, claimed), r, call)
    requires var w2 := After(ctx, claimed); var run := w2.runs[r].(pc := InFlight, task := Waiting);
      var w3 := With(Noted(w2, Started(r, call.id)), r, run);
      Conditional(run) && !Aimed(run) && After(ctx, acted) == WithTask(w3, r, Refused)
    ensures Continues(acted, next, r)
    ensures EndsOnCondition(ctx, After(ctx, schedule), After(ctx, next), r, call)
    ensures Onward(After(ctx, claimed), After(ctx, next), r)
    ensures var run' := After(ctx, next).runs[r];
      run'.fetches == After(ctx, claimed).runs[r].fetches && run'.call == call
  {
    hide After, Continues, FirstOutcome, AllAttempts, Opening, Records, PolicyOf, Conditional, Aimed;
    hide NewOutcome, EndsOnCondition, GrantedTo, WithTask, RefusedWorld;
    var w, w2 := After(ctx, schedule), After(ctx, claimed);
    var run := w2.runs[r];
    SameCondition(run.(pc := InFlight, task := Waiting), run);
    var reported := ReportsRefusalAlone(ctx, acted, w2, r, call.id);
    RefusedRun(w2, r, run, call.id);
    next := RedecidesAlone(ctx, reported, r);
    ContinuesOn(acted, reported, next, r);
    var w4 := After(ctx, reported);
    RedecidedWorld(ctx, w2, r, run, call, NewOutcome(ctx, w4, w4.runs[r]));
    SameAim(run.(pc := InFlight, task := Waiting), After(ctx, next).runs[r]);
    FailedNow(ctx, w, w2, After(ctx, next), r, call);
  }

  lemma SameAim(run: Run, run': Run)
    requires run'.call == run.call && run'.fetches == run.fetches
    ensures Aimed(run') == Aimed(run)
  {
    hide FindSnapshot, SnapshotsOf;
  }

  lemma RefusedRun(w2: World, r: RunId, run: Run, id: Id)
    ensures var w := RefusedWorld(w2, r, run, id);
      r in w.runs && w.runs[r] == run.(pc := Evaluating(Redecision), task := Refused)
  {
  }

  lemma RedecidedWorld(ctx: Context, w2: World, r: RunId, run: Run, call: Call, o: Outcome)
    requires run.call == call && r in w2.runs && w2.runs[r] == run
    ensures var w4 := RefusedWorld(w2, r, run, call.id);
      var w' := With(Saved(w4, r, call, o), r, Redecided(ctx, w4, run.(pc := Evaluating(Redecision), task := Refused)));
      && r in w'.runs && w'.runs[r].pc == Finished(Failed) && w'.runs[r].call == call
      && w'.runs[r].fetches == run.fetches && w'.runs == w2.runs[r := w'.runs[r]]
      && w'.clock == w2.clock && w'.provider == w2.provider && w'.escalations == w2.escalations
      && w'.nextDecision == w2.nextDecision + 1
      && w'.authorizations == Store.Consume(w2.authorizations, call.id)
      && w'.tape == w2.tape + [Started(r, call.id)] + [Consumed(r, call.id)]
      && forall d :: d in w2.decisions && d < w2.nextDecision ==>
        d in w'.decisions && w'.decisions[d] == w2.decisions[d]
  {
    hide AllAttempts, Approval.RecordOf;
  }

  lemma FailedNow(ctx: Context, w: World, w2: World, w': World, r: RunId, call: Call)
    requires Claims(ctx, w, w2, r, call) && r in w'.runs && w'.runs[r].pc == Finished(Failed)
    requires w'.runs[r].call == call && w'.runs[r].fetches == w2.runs[r].fetches && !Aimed(w'.runs[r])
    requires w'.clock == w2.clock && w'.provider == w2.provider && w'.escalations == w2.escalations
    requires w'.nextDecision == w2.nextDecision + 1 && w'.runs == w2.runs[r := w'.runs[r]]
    requires forall d :: d in w2.decisions && d < w2.nextDecision ==>
      d in w'.decisions && w'.decisions[d] == w2.decisions[d]
    requires w'.authorizations == Store.Consume(w2.authorizations, call.id)
    requires w'.tape == w2.tape + [Started(r, call.id)] + [Consumed(r, call.id)]
    ensures EndsOnCondition(ctx, w, w', r, call) && Onward(w2, w', r)
  {
    hide FirstOutcome, AllAttempts, Opening, Records, PolicyOf, EntriesOf, SnapshotsOf, Deadline, FindSnapshot;
    OnwardOn(w, w2, w', r);
  }

  lemma RunsNow(ctx: Context, w: World, w2: World, run: Run, r: RunId, call: Call)
    requires Claims(ctx, w, w2, r, call) && run.call == call && run.fetches == w2.runs[r].fetches && !Conditional(run)
    requires run.pc == Finished(NotAttempted)
    requires !(PolicyOf(ctx, call.intent).execution.requireFresh && NothingFetched(ctx, w.provider, call.intent))
    ensures var w' := With(Spending(Noted(w2, Started(r, call.id)), call.id, r), r, run);
      EndsUnconditional(ctx, w, w', r, call) && Onward(w2, w', r)
  {
    hide FirstOutcome, AllAttempts, Opening, Records, PolicyOf, EntriesOf, SnapshotsOf, Deadline, NothingFetched;
  }

  lemma FrozenNow(ctx: Context, w: World, w2: World, run: Run, r: RunId, call: Call)
    requires Claims(ctx, w, w2, r, call) && run.call == call && run.fetches == w2.runs[r].fetches && !Conditional(run)
    requires PolicyOf(ctx, call.intent).execution.requireFresh && NothingFetched(ctx, w.provider, call.intent)
    ensures var w' := Rechecked(w2, r, run, true); EndsUnconditional(ctx, w, w', r, call) && Onward(w2, w', r)
  {
    hide FirstOutcome, AllAttempts, Opening, Records, PolicyOf, EntriesOf, SnapshotsOf, Deadline, NothingFetched;
    hide Approval.RecordOf;
  }

  /** From the start without a condition to the end. */
  lemma StartedAlone(ctx: Context, claimed: seq<Step>, on: seq<Step>, r: RunId) returns (next: seq<Step>)
    requires var w, w' := After(ctx, claimed), After(ctx, on);
      && r in w'.runs && w'.runs[r].pc == Starting && w'.runs[r].task == Idle && !Conditional(w'.runs[r])
      && w' == With(w, r, w'.runs[r])
    ensures Continues(on, next, r)
    ensures var w, run := After(ctx, claimed), After(ctx, on).runs[r];
      After(ctx, next) == With(Spending(Noted(w, Started(r, run.call.id)), run.call.id, r), r,
        run.(pc := Finished(NotAttempted)))
  {
    hide After, Continues, EntriesOf, SnapshotsOf;
    var started := StartsAlone(ctx, on, r);
    next := ReportsAlone(ctx, started, r, NotAttempted);
    ContinuesOn(on, started, next, r);
  }

  /** The execution without a condition, after the re-check. */
  lemma EndsRecheckedAlone(ctx: Context, schedule: seq<Step>, claimed: seq<Step>, r: RunId, call: Call)
    returns (next: seq<Step>)
    requires Claims(ctx, After(ctx, schedule), After(ctx, claimed), r, call)
    requires !Conditional(After(ctx, claimed).runs[r])
    requires Rechecks(ctx, After(ctx, claimed).runs[r])
    ensures Continues(claimed, next, r)
    ensures EndsUnconditional(ctx, After(ctx, schedule), After(ctx, next), r, call)
    ensures Onward(After(ctx, claimed), After(ctx, next), r)
    ensures var run' := After(ctx, next).runs[r];
      run'.fetches == After(ctx, claimed).runs[r].fetches && run'.call == call
  {
    hide After, Continues, FirstOutcome, AllAttempts, Opening, Records, PolicyOf, Conditional, StillCurrent;
    hide NothingFetched, EndsUnconditional, GrantedTo, Spending, Noted, Rechecked;
    var w, w2 := After(ctx, schedule), After(ctx, claimed);
    var run := w2.runs[r];
    CurrentNow(ctx, w, w2, run);
    var blocks := NothingFetched(ctx, w.provider, call.intent);
    next := RechecksAlone(ctx, claimed, r);
    var again := Concluded(run, Recheck, w2.clock, AllAttempts(ctx, w2.provider, call.intent, w2.clock));
    SameCondition(run, again);
    SameCondition(run, again.(pc := Starting));
    SameCondition(run, again.(pc := Finished(NotAttempted)));
    if blocks {
      FrozenNow(ctx, w, w2, again, r, call);
      RecheckedRun(w2, r, again);
    } else {
      RecheckedRun(w2, r, again);
      var on := next;
      next := StartedAlone(ctx, claimed, on, r);
      ContinuesOn(claimed, on, next, r);
      RunsNow(ctx, w, w2, again.(pc := Finished(NotAttempted)), r, call);
    }
  }

  lemma CurrentNow(ctx: Context, w: World, w': World, run: Run)
    requires run.fetches == AllAttempts(ctx, w.provider, run.call.intent, w.clock) && run.validatedAt == w.clock
    requires w'.provider == w.provider
    ensures StillCurrent(ctx, w', run)
  {
  }

  lemma SameCondition(run: Run, run': Run)
    requires run'.call == run.call && run'.fetches == run.fetches
    ensures Conditional(run') == Conditional(run)
  {
    hide EntriesOf, SnapshotsOf;
  }

  lemma RecheckedRun(w: World, r: RunId, run: Run)
    ensures Rechecked(w, r, run, true).runs == w.runs[r := run.(pc := Stopped)]
    ensures Rechecked(w, r, run, false) == With(w, r, run.(pc := Starting))
  {
    hide Approval.RecordOf;
  }

  /** The execution without a condition where the policy waives the re-check. */
  lemma EndsAtOnceAlone(ctx: Context, schedule: seq<Step>, claimed: seq<Step>, r: RunId, call: Call)
    returns (next: seq<Step>)
    requires Claims(ctx, After(ctx, schedule), After(ctx, claimed), r, call)
    requires !Conditional(After(ctx, claimed).runs[r])
    requires !Rechecks(ctx, After(ctx, claimed).runs[r])
    ensures Continues(claimed, next, r)
    ensures EndsUnconditional(ctx, After(ctx, schedule), After(ctx, next), r, call)
    ensures Onward(After(ctx, claimed), After(ctx, next), r)
    ensures var run' := After(ctx, next).runs[r];
      run'.fetches == After(ctx, claimed).runs[r].fetches && run'.call == call
  {
    hide After, Continues, FirstOutcome, AllAttempts, Opening, Records, PolicyOf, Conditional;
    hide NothingFetched, EndsUnconditional, GrantedTo, Spending, Noted;
    var w, w2 := After(ctx, schedule), After(ctx, claimed);
    var run := w2.runs[r];
    assert w2 == With(w2, r, run);
    next := StartedAlone(ctx, claimed, claimed, r);
    SameCondition(run, run.(pc := Finished(NotAttempted)));
    RunsNow(ctx, w, w2, run.(pc := Finished(NotAttempted)), r, call);
  }

  /** Where the decision and the gate let the call execute. */
  lemma EndsAllowed(ctx: Context, schedule: seq<Step>, begun: seq<Step>, r: RunId, call: Call)
    returns (next: seq<Step>)
    requires Decides(ctx, After(ctx, schedule), After(ctx, begun), r, call)
    requires call.id !in After(ctx, schedule).authorizations && !Gated(ctx, After(ctx, begun).runs[r])
    requires SettledOutcome(ctx, After(ctx, schedule).provider, call.intent, After(ctx, schedule).clock) == Allow
    requires !call.approved
    ensures Continues(begun, next, r) && Ends(ctx, After(ctx, schedule), After(ctx, next), r, call)
  {
    hide After, Continues, FirstOutcome, AllAttempts, Opening, Records, PolicyOf, SettledOutcome, CurrentDecision;
    hide EndsOnCondition, EndsUnconditional, GrantedTo, EntriesOf, SnapshotsOf;
    var w := After(ctx, schedule);
    var claimed := ClaimAlone(ctx, schedule, begun, r, call);
    var run := After(ctx, claimed).runs[r];
    if Conditional(run) {
      next := EndsOnConditionAlone(ctx, schedule, claimed, r, call);
    } else if Rechecks(ctx, run) {
      next := EndsRecheckedAlone(ctx, schedule, claimed, r, call);
    } else {
      next := EndsAtOnceAlone(ctx, schedule, claimed, r, call);
    }
    ContinuesOn(begun, claimed, next, r);
    SameCondition(After(ctx, begun).runs[r], After(ctx, next).runs[r]);
    SameCondition(run, After(ctx, next).runs[r]);
    ProtocolReports.ConditionalExactly(After(ctx, next).runs[r]);
    hide Conditional, ProtocolReports.OnCondition;
    RecordStays(After(ctx, claimed), After(ctx, next), r, w.nextDecision, call,
      FirstOutcome(ctx, w.provider, call.intent, w.clock));
  }

  /** A call that nothing hinders or interrupts computes the sequential algorithm, on
      any state of the store, the provider and the other calls: it fetches what the
      evaluation loop fetches, records the decision taken on that, and then is held,
      stops, or claims and executes, as `Ends` tells. */
  lemma CallAlone(ctx: Context, schedule: seq<Step>, r: RunId, call: Call) returns (next: seq<Step>)
    requires r !in After(ctx, schedule).runs && Unhindered(ctx, After(ctx, schedule), call) && ctx.mode != Observe
    ensures schedule + [Begin(r, call)] <= next && Continues(schedule + [Begin(r, call)], next, r)
    ensures Ends(ctx, After(ctx, schedule), After(ctx, next), r, call)
  {
    hide After, Continues, Ends, SettledOutcome, FirstOutcome, AllAttempts, CurrentDecision, Records, PolicyMissing,
      Gated;
    var w := After(ctx, schedule);
    var begun := DecidesAlone(ctx, schedule, r, call);
    if SettledOutcome(ctx, w.provider, call.intent, w.clock) != Allow {
      next := EndsUndecided(ctx, schedule, begun, r, call);
    } else if Gated(ctx, After(ctx, begun).runs[r]) {
      next := EndsGated(ctx, schedule, begun, r, call);
    } else {
      next := EndsAllowed(ctx, schedule, begun, r, call);
    }
    ContinuesOn(schedule + [Begin(r, call)], begun, next, r);
    StepsOn(begun, next, r);
  }
}

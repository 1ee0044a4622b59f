/** Every schedule leaves a lawful history, and the store always agrees with
    it: what a history implies (module History) holds of every run of the
    protocol, in every interleaving. */
module ProtocolClaims {
  import opened Wrappers
  import opened Text
  import Hashing
  import opened Provider
  import opened Dependencies
  import opened Store
  import Approval
  import opened History
  import opened Protocol

  // ---- How the state agrees with the history ----------------------------------------------

  predicate SlotFits(auths: map<Id, Authorization>, id: Id, s: Slot) {
    match s
    case Empty => id !in auths
    case HeldBy(r) => Live(auths, id) && auths[id].holder == r
    case Spent => id in auths && auths[id].consumed
  }

  function StatusIn(escalations: map<Id, Escalation>, id: Id): Option<EscalationStatus> {
    if id in escalations then Some(escalations[id].status) else None
  }

  predicate HasApplied(t: Task) {
    t == Applied || t == Crashed(true)
  }

  predicate TaskFits(run: Run, report: Report) {
    match report
    case Satisfied => run.task == Applied
    case Failed => run.task == Refused
    case Unavailable => run.task == Declined
    case UnknownOutcome => run.task != Idle
    case NotAttempted => run.task == Idle
  }

  /** The phase and the executor's work that go with a program counter. */
  predicate Fits(run: Run, p: Phase) {
    var id := run.call.id;
    match run.pc
    case ReadEscalation => p == Unseen && run.task == Idle
    case EscalationGuard => p == Unseen && run.task == Idle
    case Revalidating => p == Ready(id) && run.task == Idle
    case Settling => p == Ready(id) && run.task == Idle
    case GateHolding(_) => p == Ready(id) && run.task == Idle
    case Claiming => p == Ready(id) && run.task == Idle
    case Evaluating(q) => PurposeFits(run, q, p)
    case Fetching(q, _) => PurposeFits(run, q, p)
    case Concluding(q) => PurposeFits(run, q, p)
    case Starting => p == Holding(id) && run.task == Idle
    case InFlight => p == Running(id) && (Conditional(run) <==> run.task != Idle)
    case Consuming(report) => p == Running(id) && TaskFits(run, report)
    case Finished(report) => p == Done(id) && TaskFits(run, report)
    case Stopped => p in {Unseen, Open(id), Ready(id), Closed(id), Stuck(id)} && run.task == Idle
    case _ => p == Open(id) && run.task == Idle
  }

  predicate PurposeFits(run: Run, q: Purpose, p: Phase) {
    match q
    case Validation => p == Open(run.call.id) && run.task == Idle
    case Recheck => p == Holding(run.call.id) && run.task == Idle && !Conditional(run)
    case Redecision => p == Done(run.call.id) && run.task == Refused
  }

  ghost predicate SlotsAgree(auths: map<Id, Authorization>, tape: seq<Event>) {
    forall id :: SlotFits(auths, id, SlotOf(tape, id))
  }

  ghost predicate StatusesAgree(escalations: map<Id, Escalation>, tape: seq<Event>) {
    forall id :: StatusIn(escalations, id) == StatusOf(tape, id)
  }

  ghost predicate RunAgrees(runs: map<RunId, Run>, tape: seq<Event>, r: RunId) {
    && (if r in runs then Fits(runs[r], PhaseOf(tape, r)) else PhaseOf(tape, r) == Unseen)
    && SwapsBy(tape, r) == if r in runs && HasApplied(runs[r].task) then 1 else 0
  }

  ghost predicate RunsAgree(runs: map<RunId, Run>, tape: seq<Event>) {
    forall r :: RunAgrees(runs, tape, r)
  }

  ghost predicate IdsUsed(w: World) {
    && (forall r :: r in w.runs ==> w.runs[r].call.id in w.used)
    && w.escalations.Keys <= w.used
    && (forall id :: id in w.resolving ==> id in w.escalations)
  }

  ghost predicate Inv(w: World) {
    && Lawful(w.tape)
    && SlotsAgree(w.authorizations, w.tape)
    && StatusesAgree(w.escalations, w.tape)
    && RunsAgree(w.runs, w.tape)
    && IdsUsed(w)
  }

  // ---- One step of a call --------------------------------------------------------------------

  predicate CanWrite(p: Phase, write: Write, id: Id) {
    match write
    case Guard(_) => p == Unseen
    case Look(_, _) => p == Open(id)
    case Hold(_) => p == Ready(id)
    case ClaimSlot(_) => p == Ready(id)
    case Freeze => p == Holding(id)
    case Start => p == Holding(id)
    case Consume => p == Running(id)
    case _ => true
  }

  function Written(p: Phase, write: Write, id: Id): Phase {
    match write
    case Guard(_) => Open(id)
    case Look(_, _) => Ready(id)
    case Hold(_) => Closed(id)
    case ClaimSlot(_) => Holding(id)
    case Freeze => Stuck(id)
    case Start => Running(id)
    case Consume => Done(id)
    case _ => p
  }

  /** What the step has read entitles it to its write. */
  predicate Entitled(w: World, r: RunId, id: Id, write: Write) {
    match write
    case Guard(approved) => StatusIn(w.escalations, id) == if approved then Some(Approved) else None
    case Look(spent, permitted) => spent == (id in w.authorizations && w.authorizations[id].consumed) &&
      (spent ==> permitted)
    case ClaimSlot(a) => !Live(w.authorizations, id) && a.holder == r && !a.consumed
    case _ => true
  }

  /** A planned step of run `r` in phase `p` keeps program counter and phase together. */
  predicate Fitting(w: World, r: RunId, p: Phase, run: Run, write: Write)
    requires r in w.runs
  {
    && run.call == w.runs[r].call
    && CanWrite(p, write, run.call.id)
    && Fits(run, Written(p, write, run.call.id))
    && HasApplied(run.task) == HasApplied(w.runs[r].task)
    && Entitled(w, r, run.call.id, write)
  }

  lemma PlanFits(ctx: Context, w: World, r: RunId, answered: bool, p: Phase)
    requires r in w.runs && Fits(w.runs[r], p)
    ensures var (run, write) := Plan(ctx, w, r, answered); Fitting(w, r, p, run, write)
  {
    hide Fits, Fitting, PlanFetch, PlanConclusion, PlanSettling;
    hide PlanClaim, PlanGuards, CurrentDecision, ReportOf, Conditional;
    var run := w.runs[r];
    if run.pc.Fetching? {
      FetchFits(ctx, w, r, answered, p);
    } else if run.pc.Concluding? {
      ConclusionFits(ctx, w, r, p);
    } else if run.pc == Settling {
      SettlingFits(ctx, w, r, p);
    } else if run.pc == Claiming {
      ClaimFits(ctx, w, r, p);
    } else if Progressing(run.pc) {
      ProgressFits(ctx, w, r, answered, p);
    } else {
      GuardsFit(ctx, w, r, p);
    }
  }

  /** The program counters whose step needs no plan of its own. */
  predicate Progressing(pc: Pc) {
    pc.Evaluating? || pc.Revalidating? || pc.GateHolding? || pc.Starting? || pc.InFlight? || pc.Consuming?
  }

  lemma ProgressFits(ctx: Context, w: World, r: RunId, answered: bool, p: Phase)
    requires r in w.runs && Fits(w.runs[r], p) && Progressing(w.runs[r].pc)
    ensures var (run, write) := Plan(ctx, w, r, answered); Fitting(w, r, p, run, write)
  {
    hide EntriesOf, SnapshotsOf, CurrentDecision, PlanFetch, PlanConclusion, PlanSettling, PlanClaim, PlanGuards;
  }

  lemma GuardsFit(ctx: Context, w: World, r: RunId, p: Phase)
    requires r in w.runs && Fits(w.runs[r], p)
    requires !w.runs[r].pc.Fetching?
    ensures var (run, write) := PlanGuards(ctx, w, w.runs[r]); Fitting(w, r, p, run, write)
  {
    hide PolicyOf, InitialDecision, ExpectedState, Approval.Binds, PolicyMissing;
  }

  lemma FetchFits(ctx: Context, w: World, r: RunId, answered: bool, p: Phase)
    requires r in w.runs && Fits(w.runs[r], p) && w.runs[r].pc.Fetching?
    ensures Fitting(w, r, p, PlanFetch(ctx, w.provider, w.runs[r], answered), Nothing)
  {
    hide PolicyOf, EntriesOf, SnapshotsOf, RouteTo, GetState, GetConditional, Supports;
  }

  lemma ConclusionFits(ctx: Context, w: World, r: RunId, p: Phase)
    requires r in w.runs && Fits(w.runs[r], p) && w.runs[r].pc.Concluding?
    ensures var (run, write) := PlanConclusion(ctx, w, w.runs[r]); Fitting(w, r, p, run, write)
  {
    hide InitialDecision, CurrentVerdicts, DecideOn, Recomputed, RecheckBlocks, ExpectedState;
  }

  lemma SettlingFits(ctx: Context, w: World, r: RunId, p: Phase)
    requires r in w.runs && Fits(w.runs[r], p) && w.runs[r].pc == Settling
    ensures var (run, write) := PlanSettling(ctx, w, w.runs[r]); Fitting(w, r, p, run, write)
  {
    hide CurrentDecision, PolicyOf, ExpectedState, GateOutcome;
  }

  lemma ClaimFits(ctx: Context, w: World, r: RunId, p: Phase)
    requires r in w.runs && Fits(w.runs[r], p) && w.runs[r].pc == Claiming
    ensures var (run, write) := PlanClaim(ctx, w, r, w.runs[r]); Fitting(w, r, p, run, write)
  {
    hide PolicyOf, EntriesOf, SnapshotsOf, Hashing.Fingerprint, DeadlineOf;
  }

  // ---- Its writes keep the agreement -----------------------------------------------------------

  /** Appending one lawful event, with the state moved alike. */
  lemma AppendHolds(w: World, w': World, r: RunId, run: Run, e: Event)
    requires Inv(w) && Legal(w.tape, e) && By(e, r) && e.id == run.call.id && !e.Swapped?
    requires w'.tape == w.tape + [e] && w'.runs == w.runs[r := run] && w'.used == w.used + {run.call.id}
    requires Fits(run, Moved(PhaseOf(w.tape, r), e)) && SwapsBy(w.tape, r) == if HasApplied(run.task) then 1 else 0
    requires forall id :: SlotFits(w.authorizations, id, SlotOf(w.tape, id)) ==>
      SlotFits(w'.authorizations, id, SlotAfter(SlotOf(w.tape, id), e, id))
    requires forall id :: StatusIn(w'.escalations, id) == StatusAfter(StatusIn(w.escalations, id), e, id)
    requires w'.resolving == w.resolving && w'.escalations.Keys <= w.escalations.Keys + {run.call.id} &&
      w.escalations.Keys <= w'.escalations.Keys
    ensures Inv(w')
  {
    Grow(w.tape, e);
    hide Lawful, PhaseOf, SlotOf, StatusOf, SwapsBy, Legal, Fits, SlotFits, SlotAfter, StatusAfter, StatusIn, Moved;
    assert SlotsAgree(w'.authorizations, w'.tape);
    assert StatusesAgree(w'.escalations, w'.tape);
    forall q ensures RunAgrees(w'.runs, w'.tape, q) {
      assert RunAgrees(w.runs, w.tape, q);
    }
  }

  /** A step that appends nothing and leaves authorizations and escalations alone. */
  lemma QuietHolds(w: World, w': World, r: RunId, run: Run)
    requires Inv(w) && w'.tape == w.tape && w'.authorizations == w.authorizations && w'.escalations == w.escalations
    requires w'.runs == w.runs[r := run] && w'.used == w.used + {run.call.id} && w'.resolving == w.resolving
    requires Fits(run, PhaseOf(w.tape, r)) && SwapsBy(w.tape, r) == if HasApplied(run.task) then 1 else 0
    ensures Inv(w')
  {
    hide Lawful, PhaseOf, SlotOf, StatusOf, SwapsBy, Fits, SlotFits, StatusIn;
    forall q ensures RunAgrees(w'.runs, w'.tape, q) {
      assert RunAgrees(w.runs, w.tape, q);
    }
  }

  /** What the invariant tells about one run and its action id. */
  lemma Locally(w: World, r: RunId, id: Id)
    requires Inv(w)
    ensures RunAgrees(w.runs, w.tape, r)
    ensures SlotFits(w.authorizations, id, SlotOf(w.tape, id)) && StatusIn(w.escalations, id) == StatusOf(w.tape, id)
    ensures r in w.runs ==> w.runs[r].call.id in w.used
  {
    hide Fits, SlotFits, StatusIn;
  }

  lemma SaveHolds(ctx: Context, w: World, r: RunId, run: Run, write: Write)
    requires Inv(w) && r in w.runs && Fitting(w, r, PhaseOf(w.tape, r), run, write)
    requires write.Nothing? || write.KeepIntent? || write.SaveRecord?
    ensures Inv(Perform(ctx, w, r, run, write))
  {
    hide Inv, Fits, PhaseOf, SwapsBy, RiskOf;
    Locally(w, r, run.call.id);
    assert w.used + {run.call.id} == w.used;
    QuietHolds(w, Perform(ctx, w, r, run, write), r, run);
  }

  lemma NoteHolds(ctx: Context, w: World, r: RunId, run: Run, write: Write)
    requires Inv(w) && r in w.runs && Fitting(w, r, PhaseOf(w.tape, r), run, write)
    requires write.Guard? || write.Look? || write.Freeze? || write.Start?
    ensures Inv(Perform(ctx, w, r, run, write))
  {
    hide Inv, Fits, PhaseOf, SlotOf, StatusOf, SwapsBy;
    var id := run.call.id;
    var e := if write.Guard? then Admitted(r, id, write.approved)
      else if write.Look? then Looked(r, id, write.spent, write.permitted)
      else if write.Freeze? then Froze(r, id) else Started(r, id);
    Locally(w, r, id);
    assert w.used + {id} == w.used;
    AppendHolds(w, Perform(ctx, w, r, run, write), r, run, e);
  }

  lemma HoldHolds(ctx: Context, w: World, r: RunId, run: Run, write: Write)
    requires Inv(w) && r in w.runs && Fitting(w, r, PhaseOf(w.tape, r), run, write) && write.Hold?
    ensures Inv(Perform(ctx, w, r, run, write))
  {
    hide Inv, Fits, PhaseOf, SlotOf, StatusOf, SwapsBy;
    Locally(w, r, run.call.id);
    assert w.used + {run.call.id} == w.used;
    AppendHolds(w, Perform(ctx, w, r, run, write), r, run, Held(r, run.call.id));
  }

  lemma ClaimHolds(ctx: Context, w: World, r: RunId, run: Run, write: Write)
    requires Inv(w) && r in w.runs && Fitting(w, r, PhaseOf(w.tape, r), run, write) && write.ClaimSlot?
    ensures Inv(Perform(ctx, w, r, run, write))
  {
    hide Inv, Fits, PhaseOf, SlotOf, StatusOf, SwapsBy;
    Locally(w, r, run.call.id);
    assert w.used + {run.call.id} == w.used;
    AppendHolds(w, Perform(ctx, w, r, run, write), r, run, Claimed(r, run.call.id));
  }

  lemma ConsumeHolds(ctx: Context, w: World, r: RunId, run: Run, write: Write)
    requires Inv(w) && r in w.runs && Fitting(w, r, PhaseOf(w.tape, r), run, write) && write.Consume?
    ensures Inv(Perform(ctx, w, r, run, write))
  {
    var id := run.call.id;
    HolderExactly(w.tape, r, id);
    hide Inv, Fits, PhaseOf, SlotOf, StatusOf, SwapsBy;
    Locally(w, r, id);
    assert w.used + {id} == w.used;
    AppendHolds(w, Perform(ctx, w, r, run, write), r, run, Consumed(r, id));
  }

  lemma PerformHolds(ctx: Context, w: World, r: RunId, run: Run, write: Write)
    requires Inv(w) && r in w.runs && Fitting(w, r, PhaseOf(w.tape, r), run, write)
    ensures Inv(Perform(ctx, w, r, run, write))
  {
    hide Fits, Inv;
    if write.ClaimSlot? {
      ClaimHolds(ctx, w, r, run, write);
    } else if write.Consume? {
      ConsumeHolds(ctx, w, r, run, write);
    } else if write.Hold? {
      HoldHolds(ctx, w, r, run, write);
    } else if write.Nothing? || write.KeepIntent? || write.SaveRecord? {
      SaveHolds(ctx, w, r, run, write);
    } else {
      NoteHolds(ctx, w, r, run, write);
    }
  }

  // ---- Every other step ----------------------------------------------------------------------------

  /** The executor's work moves on; what was still possible stays consistent. */
  lemma TaskFitsOn(run: Run, task: Task, p: Phase)
    requires Fits(run, p)
    requires (run.task == Waiting && task != Idle) ||
      (run.task == Applied && run.pc == InFlight && task == Crashed(true))
    ensures Fits(run.(task := task), p) && (run.task == Waiting ==> p in {Running(run.call.id), Done(run.call.id)})
  {
    hide EntriesOf, SnapshotsOf;
  }

  lemma TaskHolds(w: World, r: RunId, task: Task)
    requires Inv(w) && r in w.runs
    requires (w.runs[r].task == Waiting && task in {Refused, Declined, Crashed(false)}) ||
      (w.runs[r].task == Applied && w.runs[r].pc == InFlight && task == Crashed(true))
    ensures Inv(WithTask(w, r, task))
  {
    hide Inv, Fits, PhaseOf, SwapsBy;
    Locally(w, r, w.runs[r].call.id);
    TaskFitsOn(w.runs[r], task, PhaseOf(w.tape, r));
    assert w.used + {w.runs[r].call.id} == w.used;
    QuietHolds(w, WithTask(w, r, task), r, w.runs[r].(task := task));
  }

  lemma SwapHolds(w: World, r: RunId, key: Text, s: State)
    requires Inv(w) && r in w.runs && w.runs[r].task == Waiting && key in s.resources && key in w.provider.resources
    ensures Inv(SwapIn(w, r, key, s))
  {
    var w' := SwapIn(w, r, key, s);
    var run := w'.runs[r];
    Locally(w, r, run.call.id);
    TaskFitsOn(w.runs[r], Applied, PhaseOf(w.tape, r));
    Grow(w.tape, Swapped(r, run.call.id, key, w.provider.resources[key], s.resources[key]));
    hide Lawful, PhaseOf, SlotOf, StatusOf, SwapsBy, Fits, SlotFits, StatusIn, Recorded;
    forall q ensures RunAgrees(w'.runs, w'.tape, q) {
      assert RunAgrees(w.runs, w.tape, q);
    }
  }

  /** The executor's act ends in a refusal or in a swap. */
  lemma ActIs(w: World, r: RunId) returns (key: Text, s: State)
    requires r in w.runs
    ensures ExecutorActs(w, r) == WithTask(w, r, Refused) ||
      (key in s.resources && key in w.provider.resources && ExecutorActs(w, r) == SwapIn(w, r, key, s))
  {
    hide Forwarded, WithTask, SwapIn, Recorded;
    var run := w.runs[r];
    key := KeyOf(run.call.executor.target);
    s := ConditionalExecute(w.provider, key, GetOr(Forwarded(run), []), run.call.executor.changes).0;
  }

  lemma ActHolds(w: World, r: RunId)
    requires Inv(w) && r in w.runs && w.runs[r].task == Waiting
    ensures Inv(ExecutorActs(w, r))
  {
    var key, s := ActIs(w, r);
    hide ExecutorActs, Inv, WithTask, SwapIn, Recorded;
    if ExecutorActs(w, r) == WithTask(w, r, Refused) {
      TaskHolds(w, r, Refused);
    } else {
      SwapHolds(w, r, key, s);
    }
  }

  /** The invariant reads only part of the world. */
  lemma SameClaims(w: World, w': World)
    requires Inv(w) && w'.tape == w.tape && w'.authorizations == w.authorizations && w'.escalations == w.escalations
    requires w'.runs == w.runs && w'.used == w.used && w'.resolving == w.resolving
    ensures Inv(w')
  {
    hide SlotsAgree, StatusesAgree, RunsAgree, Lawful;
  }

  lemma BeginHolds(w: World, r: RunId, call: Call)
    requires Inv(w) && Enabled(w, Begin(r, call))
    ensures Inv(BeginRun(w, r, call))
  {
    var w' := BeginRun(w, r, call);
    var run := w'.runs[r];
    assert RunAgrees(w.runs, w.tape, r);
    assert StatusIn(w.escalations, call.id) == StatusOf(w.tape, call.id);
    assert call.id !in w.used ==> call.id !in w.escalations.Keys;
    hide Inv, PhaseOf, SlotOf, StatusOf, SwapsBy, EntriesOf, SnapshotsOf;
    if run.pc == Validating {
      AppendHolds(w, w', r, run, Admitted(r, call.id, false));
    } else {
      QuietHolds(w, w', r, run);
    }
  }

  lemma TimeoutFits(run: Run, p: Phase)
    requires Fits(run, p) && run.pc == InFlight
    ensures Fits(TimedOut(run), p)
  {
    hide EntriesOf, SnapshotsOf;
  }

  lemma TimeoutHolds(w: World, r: RunId)
    requires Inv(w) && r in w.runs && w.runs[r].pc == InFlight
    ensures Inv(w.(runs := w.runs[r := TimedOut(w.runs[r])]))
  {
    hide Inv, PhaseOf, SlotOf, StatusOf, SwapsBy, Fits, Conditional;
    Locally(w, r, w.runs[r].call.id);
    TimeoutFits(w.runs[r], PhaseOf(w.tape, r));
    assert w.used + {w.runs[r].call.id} == w.used;
    QuietHolds(w, w.(runs := w.runs[r := TimedOut(w.runs[r])]), r, TimedOut(w.runs[r]));
  }

  lemma ResolutionHolds(w: World, id: Id, approves: bool)
    requires Inv(w) && id in w.resolving
    ensures Inv(Resolution(w, id, approves))
  {
    var w' := Resolution(w, id, approves);
    Grow(w.tape, Resolved(id, approves));
    assert StatusIn(w.escalations, id) == StatusOf(w.tape, id);
    var e := Resolved(id, approves);
    assert forall k :: StatusIn(w'.escalations, k) == StatusAfter(StatusIn(w.escalations, k), e, k);
    hide Lawful, PhaseOf, SlotOf, StatusOf, SwapsBy, Fits, SlotFits, StatusIn, StatusAfter;
    forall q ensures RunAgrees(w'.runs, w'.tape, q) {
      assert RunAgrees(w.runs, w.tape, q);
    }
  }

  lemma NextHolds(ctx: Context, w: World, step: Step)
    requires Inv(w) && Enabled(w, step)
    ensures Inv(Next(ctx, w, step))
  {
    hide Inv, Plan, Perform, ExecutorActs, BeginRun, WithTask, TimedOut, Resolution, Recorded, Put, Provider.Advance;
    match step
    case Begin(r, call) => BeginHolds(w, r, call);
    case Advance(r, answered) => AdvanceKeeps(ctx, w, r, answered);
    case Act(r) => ActHolds(w, r);
    case Decline(r) => TaskHolds(w, r, Declined);
    case Crash(r) => TaskHolds(w, r, Crashed(w.runs[r].task == Applied));
    case Timeout(r) => TimeoutHolds(w, r);
    case WriteResolution(id, approves) => ResolutionHolds(w, id, approves);
    case ReadPending(id) => ReadHolds(w, id);
    case _ => SameClaims(w, Next(ctx, w, step));
  }

  lemma AdvanceKeeps(ctx: Context, w: World, r: RunId, answered: bool)
    requires Inv(w) && r in w.runs
    ensures var (run, write) := Plan(ctx, w, r, answered); Inv(Perform(ctx, w, r, run, write))
  {
    hide Inv, Plan, Perform, Fits, PhaseOf, SwapsBy;
    Locally(w, r, w.runs[r].call.id);
    PlanFits(ctx, w, r, answered, PhaseOf(w.tape, r));
    var (run, write) := Plan(ctx, w, r, answered);
    PerformHolds(ctx, w, r, run, write);
  }

  lemma ReadHolds(w: World, id: Id)
    requires Inv(w) && id in w.escalations
    ensures Inv(w.(resolving := w.resolving + multiset{id}))
  {
    hide SlotsAgree, StatusesAgree, RunsAgree, Lawful;
  }

  /** Every schedule, of any number of calls in any interleaving, leaves a
      lawful history with which the store agrees. */
  lemma {:induction false} EveryScheduleIsLawful(ctx: Context, schedule: seq<Step>)
    ensures Inv(After(ctx, schedule))
  {
    hide Enabled, Next;
    if schedule != [] {
      var w, step := After(ctx, schedule[..|schedule| - 1]), schedule[|schedule| - 1];
      EveryScheduleIsLawful(ctx, schedule[..|schedule| - 1]);
      if Enabled(w, step) { NextHolds(ctx, w, step); }
    }
  }
}

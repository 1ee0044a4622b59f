/** Why the one-start guarantee speaks of calls that do not overlap: a
    schedule in which two calls that never overlap each other both start their
    executor under one action id, because a third call overlaps both. */
module ProtocolExamples {
  import opened Wrappers
  import opened Text
  import opened Json
  import opened Domain
  import Redaction
  import opened Store
  import Approval
  import opened History
  import opened Protocol
  import opened ProtocolClaims
  import Policies

  /** A call without dependencies whose decision is `o`, and in whose way nothing
      else stands but the authorization protocol; it is no permitted retry. */
  ghost predicate Plain(ctx: Context, call: Call, o: Outcome) {
    var execution := PolicyOf(ctx, call.intent).execution;
    && call.pinned && !call.approved && !call.executor.conditional && !call.executor.idempotent
    && call.intent.dependencies == [] && !PolicyMissing(ctx, call.intent)
    && !execution.requireFresh && !execution.requireConditional
    && ctx.mode != Observe && o != Revalidate && DecideOn(ctx, call.intent, [], false) == o
  }

  /** A run of such a call at a program counter. */
  predicate Stands(w: World, r: RunId, call: Call, pc: Pc) {
    && r in w.runs && w.runs[r].call == call && w.runs[r].pc == pc && w.runs[r].task == Idle
    && w.runs[r].fetches == [] && w.runs[r].revalidatedAt == None
  }

  function Following(pc: Pc, o: Outcome): Pc {
    match pc
    case EscalationGuard => LiveGuard
    case LiveGuard => Validating
    case Validating => Evaluating(Validation)
    case Evaluating(_) => Fetching(Validation, false)
    case Fetching(_, _) => Concluding(Validation)
    case Concluding(_) => ConsumedGuard
    case ConsumedGuard => Settling
    case Settling => if o == Allow then Claiming else Stopped
    case Claiming => Starting
    case Starting => InFlight
    case InFlight => Consuming(NotAttempted)
    case Consuming(_) => Finished(NotAttempted)
    case _ => pc
  }

  function Trace(pc: Pc, r: RunId, id: Id, o: Outcome): seq<Event> {
    match pc
    case EscalationGuard => [Admitted(r, id, false)]
    case ConsumedGuard => [Looked(r, id, false, false)]
    case Settling => if o == Escalate then [Held(r, id)] else []
    case Claiming => [Claimed(r, id)]
    case Starting => [Started(r, id)]
    case Consuming(_) => [Consumed(r, id)]
    case _ => []
  }

  /** What the step asks of the slot and the escalation. */
  predicate Clear(pc: Pc, slot: Slot, status: Option<EscalationStatus>) {
    match pc
    case EscalationGuard => status == None
    case LiveGuard => !slot.HeldBy?
    case ConsumedGuard => slot != Spent
    case Claiming => !slot.HeldBy?
    case _ => true
  }

  predicate OnPath(pc: Pc) {
    pc in {EscalationGuard, LiveGuard, Validating, Evaluating(Validation), Fetching(Validation, false),
      Concluding(Validation),
      ConsumedGuard, Settling, Claiming, Starting, InFlight, Consuming(NotAttempted)}
  }

  function EventsOf(write: Write, r: RunId, id: Id): seq<Event> {
    match write
    case Guard(approved) => [Admitted(r, id, approved)]
    case Look(spent, permitted) => [Looked(r, id, spent, permitted)]
    case Hold(_) => [Held(r, id)]
    case ClaimSlot(_) => [Claimed(r, id)]
    case Freeze => [Froze(r, id)]
    case Start => [Started(r, id)]
    case Consume => [Consumed(r, id)]
    case _ => []
  }

  /** The intent as first recorded under its id. */
  function Submitted(ctx: Context, call: Call): Intent {
    call.intent.(risk := Some(RiskOf(ctx, call.intent)))
  }

  lemma PerformEmits(ctx: Context, w: World, r: RunId, run: Run, write: Write)
    ensures Perform(ctx, w, r, run, write).tape == w.tape + EventsOf(write, r, run.call.id)
    ensures Perform(ctx, w, r, run, write).runs == w.runs[r := run]
    ensures Perform(ctx, w, r, run, write).first ==
      if write.KeepIntent? then KeepFirst(w.first, run.call.id, Submitted(ctx, run.call)) else w.first
  {
    hide RiskOf, Approval.RecordedIntent, Approval.RecordOf;
  }

  predicate Reached(run: Run, write: Write, r: RunId, call: Call, pc: Pc, o: Outcome) {
    && run.call == call && run.pc == Following(pc, o) && run.task == Idle && run.fetches == [] &&
      run.revalidatedAt == None
    && EventsOf(write, r, call.id) == Trace(pc, r, call.id, o) && (write.KeepIntent? <==> pc == Validating)
  }

  lemma PlainDecisions(ctx: Context, run: Run, o: Outcome)
    requires Plain(ctx, run.call, o) && run.fetches == [] && run.revalidatedAt == None
    ensures InitialDecision(ctx, run) == o && CurrentDecision(ctx, run) == o && !Conditional(run)
  {
    hide DecideOn, PolicyOf, PolicyMissing;
    assert Verdicts(ctx, run.call.intent, run.fetches, run.validatedAt) == [];
  }

  lemma PlainGuards(ctx: Context, w: World, r: RunId, call: Call, pc: Pc, slot: Slot, o: Outcome)
    requires Plain(ctx, call, o) && Stands(w, r, call, pc) &&
      pc in {EscalationGuard, LiveGuard, Validating, ConsumedGuard}
    requires SlotFits(w.authorizations, call.id, slot) && Clear(pc, slot, StatusIn(w.escalations, call.id))
    ensures var (run, write) := PlanGuards(ctx, w, w.runs[r]); Reached(run, write, r, call, pc, o)
  {
    PlainDecisions(ctx, w.runs[r], o);
    hide DecideOn, PolicyOf, PolicyMissing, InitialDecision, CurrentDecision, Conditional;
  }

  lemma PlainFetch(ctx: Context, w: World, r: RunId, call: Call, o: Outcome)
    requires Plain(ctx, call, o) && Stands(w, r, call, Fetching(Validation, false))
    ensures Reached(PlanFetch(ctx, w.provider, w.runs[r], true), Nothing, r, call, Fetching(Validation, false), o)
  {
    hide DecideOn, PolicyOf, PolicyMissing;
  }

  lemma PlainConclusion(ctx: Context, w: World, r: RunId, call: Call, o: Outcome)
    requires Plain(ctx, call, o) && Stands(w, r, call, Concluding(Validation))
    ensures var (run, write) := PlanConclusion(ctx, w, w.runs[r]);
      Reached(run, write, r, call, Concluding(Validation), o)
  {
    hide DecideOn, PolicyOf, PolicyMissing, InitialDecision;
  }

  lemma PlainSettling(ctx: Context, w: World, r: RunId, call: Call, o: Outcome)
    requires Plain(ctx, call, o) && Stands(w, r, call, Settling)
    ensures var (run, write) := PlanSettling(ctx, w, w.runs[r]); Reached(run, write, r, call, Settling, o)
  {
    PlainDecisions(ctx, w.runs[r], o);
    hide DecideOn, PolicyOf, PolicyMissing, CurrentDecision, Conditional;
  }

  lemma PlainClaim(ctx: Context, w: World, r: RunId, call: Call, o: Outcome)
    requires Plain(ctx, call, o) && Stands(w, r, call, Claiming) && !Live(w.authorizations, call.id)
    ensures var (run, write) := PlanClaim(ctx, w, r, w.runs[r]); Reached(run, write, r, call, Claiming, o)
  {
    PlainDecisions(ctx, w.runs[r], o);
    hide DecideOn, PolicyOf, PolicyMissing, Conditional, ExpectedState, DeadlineOf, Live;
  }

  lemma SlotFree(w: World, id: Id, slot: Slot)
    requires SlotFits(w.authorizations, id, slot) && !slot.HeldBy?
    ensures !Live(w.authorizations, id)
  {
  }

  lemma PlainEvaluating(ctx: Context, w: World, r: RunId, call: Call, o: Outcome)
    requires Stands(w, r, call, Evaluating(Validation))
    ensures var (run, write) := Plan(ctx, w, r, true); Reached(run, write, r, call, Evaluating(Validation), o)
  {
    hide Conditional, CurrentDecision, PlanFetch, PlanConclusion, PlanSettling, PlanClaim, PlanGuards;
  }

  lemma PlainStarting(ctx: Context, w: World, r: RunId, call: Call, o: Outcome)
    requires Plain(ctx, call, o) && Stands(w, r, call, Starting)
    ensures Plan(ctx, w, r, true) == (w.runs[r].(pc := InFlight, task := Idle), Start)
  {
    PlainDecisions(ctx, w.runs[r], o);
    hide Plain, Conditional, CurrentDecision, PlanFetch, PlanConclusion, PlanSettling, PlanClaim, PlanGuards;
  }

  lemma PlainInFlight(ctx: Context, w: World, r: RunId, call: Call, o: Outcome)
    requires Plain(ctx, call, o) && Stands(w, r, call, InFlight)
    ensures Plan(ctx, w, r, true) == (w.runs[r].(pc := Consuming(NotAttempted)), Nothing)
  {
    PlainDecisions(ctx, w.runs[r], o);
    hide Plain, Conditional, CurrentDecision, PlanFetch, PlanConclusion, PlanSettling, PlanClaim, PlanGuards;
  }

  lemma PlainConsuming(ctx: Context, w: World, r: RunId, call: Call)
    requires Stands(w, r, call, Consuming(NotAttempted))
    ensures Plan(ctx, w, r, true) == (w.runs[r].(pc := Finished(NotAttempted)), Consume)
  {
    hide Conditional, CurrentDecision, PlanFetch, PlanConclusion, PlanSettling, PlanClaim, PlanGuards;
  }

  lemma PlainExecution(ctx: Context, w: World, r: RunId, call: Call, pc: Pc, o: Outcome)
    requires Plain(ctx, call, o) && Stands(w, r, call, pc)
    requires pc in {Starting, InFlight, Consuming(NotAttempted)}
    ensures var (run, write) := Plan(ctx, w, r, true); Reached(run, write, r, call, pc, o)
  {
    hide Plain, Plan;
    if pc == Starting {
      PlainStarting(ctx, w, r, call, o);
    } else if pc == InFlight {
      PlainInFlight(ctx, w, r, call, o);
    } else {
      PlainConsuming(ctx, w, r, call);
    }
  }

  lemma PlainPlan(ctx: Context, w: World, r: RunId, call: Call, pc: Pc, slot: Slot, o: Outcome)
    requires Plain(ctx, call, o) && Stands(w, r, call, pc) && OnPath(pc)
    requires SlotFits(w.authorizations, call.id, slot) && Clear(pc, slot, StatusIn(w.escalations, call.id))
    ensures var (run, write) := Plan(ctx, w, r, true); Reached(run, write, r, call, pc, o)
  {
    hide Plain, SlotFits, Reached, PlanGuards, PlanFetch;
    hide PlanConclusion, PlanSettling, PlanClaim, Conditional, CurrentDecision;
    if pc in {EscalationGuard, LiveGuard, Validating, ConsumedGuard} {
      PlainGuards(ctx, w, r, call, pc, slot, o);
    } else if pc.Fetching? {
      PlainFetch(ctx, w, r, call, o);
    } else if pc.Concluding? {
      PlainConclusion(ctx, w, r, call, o);
    } else if pc == Settling {
      PlainSettling(ctx, w, r, call, o);
    } else if pc == Claiming {
      SlotFree(w, call.id, slot);
      PlainClaim(ctx, w, r, call, o);
    } else if pc.Evaluating? {
      PlainEvaluating(ctx, w, r, call, o);
    } else {
      PlainExecution(ctx, w, r, call, pc, o);
    }
  }

  // ---- Walking a call along its path ---------------------------------------------------------

  /** Nothing but this call's program counter and the history has moved. */
  ghost predicate Stepped(w: World, w': World, r: RunId, events: seq<Event>) {
    && w'.tape == w.tape + events
    && r in w'.runs && w'.runs == w.runs[r := w'.runs[r]]
  }

  lemma Walk(ctx: Context, schedule: seq<Step>, r: RunId, call: Call, pc: Pc, o: Outcome) returns (next: seq<Step>)
    requires Plain(ctx, call, o) && Stands(After(ctx, schedule), r, call, pc) && OnPath(pc)
    requires var tape := After(ctx, schedule).tape; Clear(pc, SlotOf(tape, call.id), StatusOf(tape, call.id))
    ensures var w, w' := After(ctx, schedule), After(ctx, next);
      && Stands(w', r, call, Following(pc, o)) && Stepped(w, w', r, Trace(pc, r, call.id, o))
      && w'.first == if pc == Validating then KeepFirst(w.first, call.id, Submitted(ctx, call)) else w.first
  {
    var w := After(ctx, schedule);
    next := schedule + [Advance(r, true)];
    assert next[..|next| - 1] == schedule;
    assert After(ctx, next) == Next(ctx, w, Advance(r, true));
    EveryScheduleIsLawful(ctx, schedule);
    Locally(w, r, call.id);
    hide After, Inv, SlotOf, StatusOf, Plain, Plan, Perform;
    PlainPlan(ctx, w, r, call, pc, SlotOf(w.tape, call.id), o);
    var (run, write) := Plan(ctx, w, r, true);
    PerformEmits(ctx, w, r, run, write);
  }

  lemma SteppedOn(w0: World, w1: World, w2: World, r: RunId, first: seq<Event>, second: seq<Event>)
    requires Stepped(w0, w1, r, first) && Stepped(w1, w2, r, second)
    ensures Stepped(w0, w2, r, first + second)
  {
    assert w0.tape + first + second == w0.tape + (first + second);
  }

  function StepsLeft(pc: Pc): nat {
    match pc
    case LiveGuard => 5
    case Validating => 4
    case Evaluating(_) => 3
    case Fetching(_, _) => 2
    case Concluding(_) => 1
    case _ => 0
  }

  /** The silent steps between the escalation guard and the look. */
  lemma {:induction false} Glide(
    ctx: Context, schedule: seq<Step>, r: RunId, call: Call, pc: Pc, o: Outcome) returns (next: seq<Step>)
    requires Plain(ctx, call, o) && Stands(After(ctx, schedule), r, call, pc) && OnPath(pc) && StepsLeft(pc) > 0
    requires pc == LiveGuard ==> !SlotOf(After(ctx, schedule).tape, call.id).HeldBy?
    ensures Stands(After(ctx, next), r, call, ConsumedGuard) && Stepped(After(ctx, schedule), After(ctx, next), r, [])
    ensures var w, w' := After(ctx, schedule), After(ctx, next);
      w'.first == if StepsLeft(pc) >= 4 then KeepFirst(w.first, call.id, Submitted(ctx, call)) else w.first
    decreases StepsLeft(pc)
  {
    hide After, SlotOf, StatusOf, Plain, Stands;
    var s1 := Walk(ctx, schedule, r, call, pc, o);
    assert After(ctx, s1).tape == After(ctx, schedule).tape;
    if pc == Concluding(Validation) {
      next := s1;
    } else {
      next := Glide(ctx, s1, r, call, Following(pc, o), o);
      SteppedOn(After(ctx, schedule), After(ctx, s1), After(ctx, next), r, [], []);
    }
  }

  lemma BeginPlain(ctx: Context, schedule: seq<Step>, r: RunId, call: Call, o: Outcome) returns (next: seq<Step>)
    requires Plain(ctx, call, o) && r !in After(ctx, schedule).runs
    ensures Stands(After(ctx, next), r, call, EscalationGuard)
    ensures Stepped(After(ctx, schedule), After(ctx, next), r, []) && After(ctx, next).tape == After(ctx, schedule).tape
    ensures After(ctx, next).first == After(ctx, schedule).first
  {
    next := schedule + [Begin(r, call)];
    assert next[..|next| - 1] == schedule;
    assert After(ctx, next) == BeginRun(After(ctx, schedule), r, call);
    hide After;
  }

  lemma Enter(ctx: Context, schedule: seq<Step>, r: RunId, call: Call, o: Outcome) returns (next: seq<Step>)
    requires Plain(ctx, call, o) && r !in After(ctx, schedule).runs
    requires StatusOf(After(ctx, schedule).tape, call.id) == None
    ensures Stands(After(ctx, next), r, call, LiveGuard)
    ensures Stepped(After(ctx, schedule), After(ctx, next), r, [Admitted(r, call.id, false)])
    ensures After(ctx, next).first == After(ctx, schedule).first
  {
    hide After, SlotOf, StatusOf, Plain, Stands;
    var s0 := BeginPlain(ctx, schedule, r, call, o);
    next := Walk(ctx, s0, r, call, EscalationGuard, o);
    SteppedOn(After(ctx, schedule), After(ctx, s0), After(ctx, next), r, [], [Admitted(r, call.id, false)]);
    assert [] + [Admitted(r, call.id, false)] == [Admitted(r, call.id, false)];
  }

  /** From the beginning of a call up to its look at the authorization. */
  lemma Arrive(ctx: Context, schedule: seq<Step>, r: RunId, call: Call, o: Outcome) returns (next: seq<Step>)
    requires Plain(ctx, call, o) && r !in After(ctx, schedule).runs
    requires var tape := After(ctx, schedule).tape; StatusOf(tape, call.id) == None && !SlotOf(tape, call.id).HeldBy?
    ensures Stands(After(ctx, next), r, call, ConsumedGuard)
    ensures Stepped(After(ctx, schedule), After(ctx, next), r, [Admitted(r, call.id, false)])
    ensures After(ctx, next).first == KeepFirst(After(ctx, schedule).first, call.id, Submitted(ctx, call))
  {
    var s1 := Enter(ctx, schedule, r, call, o);
    Grow(After(ctx, schedule).tape, Admitted(r, call.id, false));
    hide After, SlotOf, StatusOf, Plain, Stands;
    next := Glide(ctx, s1, r, call, LiveGuard, o);
    SteppedOn(After(ctx, schedule), After(ctx, s1), After(ctx, next), r, [Admitted(r, call.id, false)], []);
    assert [Admitted(r, call.id, false)] + [] == [Admitted(r, call.id, false)];
  }

  /** From a clear look to the claim. */
  lemma LookAround(ctx: Context, schedule: seq<Step>, r: RunId, call: Call) returns (next: seq<Step>)
    requires Plain(ctx, call, Allow) && Stands(After(ctx, schedule), r, call, ConsumedGuard)
    requires SlotOf(After(ctx, schedule).tape, call.id) != Spent
    ensures Stands(After(ctx, next), r, call, Claiming)
    ensures Stepped(After(ctx, schedule), After(ctx, next), r, [Looked(r, call.id, false, false)])
  {
    hide After, SlotOf, StatusOf, Plain, Stands;
    var s1 := Walk(ctx, schedule, r, call, ConsumedGuard, Allow);
    next := Walk(ctx, s1, r, call, Settling, Allow);
    SteppedOn(After(ctx, schedule), After(ctx, s1), After(ctx, next), r, [Looked(r, call.id, false, false)], []);
  }

  /** The executor runs and the authorization is consumed. */
  lemma Execute(ctx: Context, schedule: seq<Step>, r: RunId, call: Call) returns (next: seq<Step>)
    requires Plain(ctx, call, Allow) && Stands(After(ctx, schedule), r, call, Starting)
    ensures Stands(After(ctx, next), r, call, Finished(NotAttempted))
    ensures Stepped(After(ctx, schedule), After(ctx, next), r, [Started(r, call.id), Consumed(r, call.id)])
  {
    hide After, SlotOf, StatusOf, Plain, Stands;
    var w := After(ctx, schedule);
    var s1 := Walk(ctx, schedule, r, call, Starting, Allow);
    var s2 := Walk(ctx, s1, r, call, InFlight, Allow);
    SteppedOn(w, After(ctx, s1), After(ctx, s2), r, [Started(r, call.id)], []);
    next := Walk(ctx, s2, r, call, Consuming(NotAttempted), Allow);
    SteppedOn(w, After(ctx, s2), After(ctx, next), r, [Started(r, call.id)], [Consumed(r, call.id)]);
    assert [Started(r, call.id)] + [Consumed(r, call.id)] == [Started(r, call.id), Consumed(r, call.id)];
  }

  // ---- The schedule -----------------------------------------------------------------------------

  /** Reading the slot and the escalation after one more stretch. */
  lemma Reads(tape: seq<Event>, events: seq<Event>, id: Id)
    requires 0 < |events| <= 2
    ensures var last, before := events[|events| - 1], if |events| == 2 then SlotAfter(SlotOf(tape, id), events[0], id)
      else SlotOf(tape, id);
      SlotOf(tape + events, id) == SlotAfter(before, last, id)
    ensures (forall e :: e in events ==> !e.Held? && !e.Resolved?) ==> StatusOf(tape + events, id) == StatusOf(tape, id)
  {
    Grow(tape, events[0]);
    hide SlotOf, StatusOf;
    if |events| == 2 {
      Grow(tape + [events[0]], events[1]);
      assert tape + [events[0]] + [events[1]] == tape + events;
    } else {
      assert tape + [events[0]] == tape + events;
    }
  }

  /** A stretch of one call's steps leaves another call where it stood. */
  lemma Waits(w: World, w': World, r: RunId, events: seq<Event>, q: RunId, call: Call, pc: Pc)
    requires Stepped(w, w', r, events) && Stands(w, q, call, pc) && q != r
    ensures Stands(w', q, call, pc)
  {
  }

  function Looking(r: RunId, id: Id): seq<Event> {
    [Looked(r, id, false, false)]
  }

  function Executing(r: RunId, id: Id): seq<Event> {
    [Started(r, id), Consumed(r, id)]
  }

  function Whole(r: RunId, id: Id): seq<Event> {
    [Admitted(r, id, false)] + Looking(r, id) + [Claimed(r, id)] + Executing(r, id)
  }

  /** A call from beginning to end, on a slot never claimed. */
  lemma RunWhole(ctx: Context, schedule: seq<Step>, r: RunId, call: Call) returns (next: seq<Step>)
    requires Plain(ctx, call, Allow) && r !in After(ctx, schedule).runs
    requires var tape := After(ctx, schedule).tape; StatusOf(tape, call.id) == None && SlotOf(tape, call.id) == Empty
    ensures Stepped(After(ctx, schedule), After(ctx, next), r, Whole(r, call.id))
    ensures var tape := After(ctx, next).tape; StatusOf(tape, call.id) == None && SlotOf(tape, call.id) == Spent
  {
    hide After, SlotOf, StatusOf, Plain, Stands;
    var id := call.id;
    var s1 := Arrive(ctx, schedule, r, call, Allow);
    Reads(After(ctx, schedule).tape, [Admitted(r, id, false)], id);
    var s2 := LookAround(ctx, s1, r, call);
    Reads(After(ctx, s1).tape, Looking(r, id), id);
    SteppedOn(After(ctx, schedule), After(ctx, s1), After(ctx, s2), r, [Admitted(r, id, false)], Looking(r, id));
    var s3 := Walk(ctx, s2, r, call, Claiming, Allow);
    Reads(After(ctx, s2).tape, [Claimed(r, id)], id);
    SteppedOn(After(ctx, schedule), After(ctx, s2), After(ctx, s3), r, [Admitted(r, id, false)] + Looking(r, id),
      [Claimed(r, id)]);
    next := Execute(ctx, s3, r, call);
    Reads(After(ctx, s3).tape, Executing(r, id), id);
    SteppedOn(After(ctx, schedule), After(ctx, s3), After(ctx, next), r,
      [Admitted(r, id, false)] + Looking(r, id) + [Claimed(r, id)], Executing(r, id));
  }

  /** A third call looks first; a call runs from beginning to end; another
      begins; the third claims; the other looks and finds the slot held, not
      spent; the third executes; the other claims and executes. Calls 1 and 2
      never overlap and neither is a permitted retry, yet both start. */
  function ThirdCallTape(id: Id): seq<Event> {
    [Admitted(3, id, false)] + Looking(3, id) + Whole(1, id) + [Admitted(2, id, false)] + [Claimed(3, id)] +
    Looking(2, id) + Executing(3, id) + [Claimed(2, id)] + Executing(2, id)
  }

  lemma SeparateCallsCanBothStart(ctx: Context, call: Call) returns (schedule: seq<Step>)
    requires Plain(ctx, call, Allow)
    ensures After(ctx, schedule).tape == ThirdCallTape(call.id)
  {
    hide After, SlotOf, StatusOf, Plain, Stands, Whole;
    var s10 := OtherPasses(ctx, call);
    var s11 := Walk(ctx, s10, 2, call, Claiming, Allow);
    schedule := Execute(ctx, s11, 2, call);
  }

  lemma Beginning(ctx: Context, id: Id)
    ensures var w := After(ctx, []);
      w.tape == [] && w.runs == map[] && w.first == map[] && SlotOf(w.tape, id) == Empty && StatusOf(w.tape, id) == None
  {
  }

  /** The third call has looked. */
  lemma ThirdLooks(ctx: Context, call: Call) returns (schedule: seq<Step>)
    requires Plain(ctx, call, Allow)
    ensures var w := After(ctx, schedule); var id := call.id;
      && w.tape == [Admitted(3, id, false)] + Looking(3, id)
      && Stands(w, 3, call, Claiming) && 1 !in w.runs && 2 !in w.runs
      && StatusOf(w.tape, id) == None && SlotOf(w.tape, id) == Empty
  {
    var id := call.id;
    Beginning(ctx, id);
    hide After, SlotOf, StatusOf, Plain, Stands;
    var s1 := Arrive(ctx, [], 3, call, Allow);
    Reads(After(ctx, []).tape, [Admitted(3, id, false)], id);
    schedule := LookAround(ctx, s1, 3, call);
    Reads(After(ctx, s1).tape, Looking(3, id), id);
  }

  /** Call 1 runs from beginning to end. */
  lemma FirstRuns(ctx: Context, call: Call) returns (schedule: seq<Step>)
    requires Plain(ctx, call, Allow)
    ensures var w := After(ctx, schedule); var id := call.id;
      && w.tape == [Admitted(3, id, false)] + Looking(3, id) + Whole(1, id)
      && Stands(w, 3, call, Claiming) && 2 !in w.runs
      && StatusOf(w.tape, id) == None && SlotOf(w.tape, id) == Spent
  {
    hide After, SlotOf, StatusOf, Plain, Stands, Whole;
    var s2 := ThirdLooks(ctx, call);
    schedule := RunWhole(ctx, s2, 1, call);
    Waits(After(ctx, s2), After(ctx, schedule), 1, Whole(1, call.id), 3, call, Claiming);
  }

  /** Call 2 begins, and the third call claims. */
  lemma ThirdClaims(ctx: Context, call: Call) returns (schedule: seq<Step>)
    requires Plain(ctx, call, Allow)
    ensures var w := After(ctx, schedule); var id := call.id;
      && w.tape == [Admitted(3, id, false)] + Looking(3, id) + Whole(1, id) +
        [Admitted(2, id, false)] + [Claimed(3, id)]
      && Stands(w, 3, call, Starting) && Stands(w, 2, call, ConsumedGuard)
      && SlotOf(w.tape, id) == HeldBy(3)
  {
    hide After, SlotOf, StatusOf, Plain, Stands, Whole;
    var id := call.id;
    var s6 := FirstRuns(ctx, call);
    var s7 := Arrive(ctx, s6, 2, call, Allow);
    Reads(After(ctx, s6).tape, [Admitted(2, id, false)], id);
    Waits(After(ctx, s6), After(ctx, s7), 2, [Admitted(2, id, false)], 3, call, Claiming);
    schedule := Walk(ctx, s7, 3, call, Claiming, Allow);
    Reads(After(ctx, s7).tape, [Claimed(3, id)], id);
    Waits(After(ctx, s7), After(ctx, schedule), 3, [Claimed(3, id)], 2, call, ConsumedGuard);
  }

  /** Call 2 looks and passes, and the third call executes. */
  lemma OtherPasses(ctx: Context, call: Call) returns (schedule: seq<Step>)
    requires Plain(ctx, call, Allow)
    ensures var w := After(ctx, schedule); var id := call.id;
      && w.tape == [Admitted(3, id, false)] + Looking(3, id) + Whole(1, id) +
        [Admitted(2, id, false)] + [Claimed(3, id)] +
           Looking(2, id) + Executing(3, id)
      && Stands(w, 2, call, Claiming) && SlotOf(w.tape, id) == Spent
  {
    hide After, SlotOf, StatusOf, Plain, Stands, Whole;
    var id := call.id;
    var s8 := ThirdClaims(ctx, call);
    var s9 := LookAround(ctx, s8, 2, call);
    Reads(After(ctx, s8).tape, Looking(2, id), id);
    Waits(After(ctx, s8), After(ctx, s9), 2, Looking(2, id), 3, call, Starting);
    schedule := Execute(ctx, s9, 3, call);
    Reads(After(ctx, s9).tape, Executing(3, id), id);
    Waits(After(ctx, s9), After(ctx, schedule), 3, Executing(3, id), 2, call, Claiming);
  }

  // ---- Such contexts exist ------------------------------------------------------------------------

  /** Without the tool it asks for no intent below fits it; it is named instead. */
  function Naming(name: Text, onUnknown: Outcome, freshness: Freshness): Policy {
    Policy(name, Matcher(Some([1]), None, None, None), None, freshness, [], [],
      Outcomes(None, None, None, Some(onUnknown), None), ExecutionPolicy(None, false, false, false, Deny))
  }

  function SampleIntent(operation: Text, policyName: Option<Text>): Intent {
    Intent([], operation, None, Obj(map[]), [], [], None, policyName)
  }

  function SampleCall(intent: Intent): Call {
    Call(7, true, false, intent, Executor(false, false, Ref([], [], []), map[]))
  }

  /** An ENFORCE context whose defaults allow unknown state and whose named
      policies escalate or deny it, with a call of each kind on one action id. */
  lemma PlainExists(e: Engine, sensitive: Redaction.Sensitive, freshness: Freshness)
    returns (ctx: Context, allowed: Call, held: Call, denied: Call)
    ensures ctx.mode == Enforce && allowed.id == held.id == denied.id
    ensures Plain(ctx, allowed, Allow) && Plain(ctx, held, Escalate) && Plain(ctx, denied, Deny)
    ensures held.intent.operation != denied.intent.operation
  {
    var execution := ExecutionPolicy(None, false, false, false, Deny);
    var defaults := GlobalDefaults(Outcomes(None, None, None, Some(Allow), None), freshness, execution);
    var holds, denies := Naming([2], Escalate, freshness), Naming([3], Deny, freshness);
    ctx := Context(e, sensitive, [holds, denies], defaults, None, Enforce, []);
    allowed := SampleCall(SampleIntent([4], None));
    held := SampleCall(SampleIntent([5], Some([2])));
    denied := SampleCall(SampleIntent([6], Some([3])));
    Unmatched(ctx.policies, allowed.intent, Medium);
    assert PolicyOf(ctx, allowed.intent) == Policies.SyntheticDefault(defaults);
    assert PolicyOf(ctx, held.intent) == holds;
    NamedSecond(holds, denies);
    assert PolicyOf(ctx, denied.intent) == denies;
  }

  lemma NamedSecond(a: Policy, b: Policy)
    requires a.name != b.name
    ensures Policies.FindNamed([a, b], b.name) == Some(b)
  {
    assert [a, b][1..] == [b];
  }

  lemma Unmatched(ps: seq<Policy>, i: Intent, base: Risk)
    requires forall p :: p in ps ==> !Policies.MatchesPolicy(p, i, base)
    ensures Policies.BestIndex(ps, i, base, |ps|).None?
  {
    Policies.MatchingFindsWinner(ps, i, base);
    assert forall j :: 0 <= j < |ps| ==> ps[j] in ps;
  }

  // ---- Two calls that overlap -----------------------------------------------------------------------

  /** Two calls pass their guards; one looks, claims and starts; while its
      executor runs the other looks and finds the slot held, not spent; the
      first consumes, and the other claims and starts. Neither waits between its
      look and its claim for longer than the other's one step. */
  function OverlapTape(id: Id): seq<Event> {
    [Admitted(1, id, false)] + [Admitted(2, id, false)] + Looking(1, id) + [Claimed(1, id)] + [Started(1, id)] +
    Looking(2, id) + [Consumed(1, id)] + [Claimed(2, id)] + Executing(2, id)
  }

  lemma OverlappingCallsCanBothStart(ctx: Context, call: Call) returns (schedule: seq<Step>)
    requires Plain(ctx, call, Allow)
    ensures After(ctx, schedule).tape == OverlapTape(call.id)
  {
    var id := call.id;
    hide After, SlotOf, StatusOf, Plain, Stands;
    var s6 := LooksInFlight(ctx, call);
    var s7 := Walk(ctx, s6, 1, call, Consuming(NotAttempted), Allow);
    Reads(After(ctx, s6).tape, [Consumed(1, id)], id);
    Waits(After(ctx, s6), After(ctx, s7), 1, [Consumed(1, id)], 2, call, Claiming);
    var s8 := Walk(ctx, s7, 2, call, Claiming, Allow);
    schedule := Execute(ctx, s8, 2, call);
  }

  /** Call 2 is past its guards, call 1 about to look. */
  lemma BothEnter(ctx: Context, call: Call) returns (schedule: seq<Step>)
    requires Plain(ctx, call, Allow)
    ensures var w, id := After(ctx, schedule), call.id;
      && w.tape == [Admitted(1, id, false)] + [Admitted(2, id, false)]
      && Stands(w, 1, call, ConsumedGuard) && Stands(w, 2, call, Validating)
      && SlotOf(w.tape, id) == Empty
  {
    var id := call.id;
    Beginning(ctx, id);
    hide After, SlotOf, StatusOf, Plain, Stands;
    var s1 := Arrive(ctx, [], 1, call, Allow);
    Reads(After(ctx, []).tape, [Admitted(1, id, false)], id);
    var s2 := Enter(ctx, s1, 2, call, Allow);
    Reads(After(ctx, s1).tape, [Admitted(2, id, false)], id);
    Waits(After(ctx, s1), After(ctx, s2), 2, [Admitted(2, id, false)], 1, call, ConsumedGuard);
    schedule := Walk(ctx, s2, 2, call, LiveGuard, Allow);
    assert After(ctx, schedule).tape == After(ctx, s2).tape;
    Waits(After(ctx, s2), After(ctx, schedule), 2, [], 1, call, ConsumedGuard);
  }

  lemma FirstStarts(ctx: Context, call: Call) returns (schedule: seq<Step>)
    requires Plain(ctx, call, Allow)
    ensures var w, id := After(ctx, schedule), call.id;
      && w.tape == [Admitted(1, id, false)] + [Admitted(2, id, false)] + Looking(1,
        id) + [Claimed(1, id)] + [Started(1, id)]
      && Stands(w, 1, call, InFlight) && Stands(w, 2, call, Validating)
      && SlotOf(w.tape, id) == HeldBy(1)
  {
    var id := call.id;
    hide After, SlotOf, StatusOf, Plain, Stands;
    var s2 := BothEnter(ctx, call);
    var s3 := LookAround(ctx, s2, 1, call);
    Reads(After(ctx, s2).tape, Looking(1, id), id);
    Waits(After(ctx, s2), After(ctx, s3), 1, Looking(1, id), 2, call, Validating);
    var s4 := Walk(ctx, s3, 1, call, Claiming, Allow);
    Reads(After(ctx, s3).tape, [Claimed(1, id)], id);
    Waits(After(ctx, s3), After(ctx, s4), 1, [Claimed(1, id)], 2, call, Validating);
    schedule := Walk(ctx, s4, 1, call, Starting, Allow);
    Reads(After(ctx, s4).tape, [Started(1, id)], id);
    Waits(After(ctx, s4), After(ctx, schedule), 1, [Started(1, id)], 2, call, Validating);
  }

  /** Call 2 validates and looks while call 1's executor runs; then the executor ends. */
  lemma LooksInFlight(ctx: Context, call: Call) returns (schedule: seq<Step>)
    requires Plain(ctx, call, Allow)
    ensures var w, id := After(ctx, schedule), call.id;
      && w.tape == [Admitted(1, id, false)] + [Admitted(2, id, false)] + Looking(1,
        id) + [Claimed(1, id)] + [Started(1, id)] +
        Looking(2, id)
      && Stands(w, 1, call, Consuming(NotAttempted)) && Stands(w, 2, call, Claiming)
  {
    var id := call.id;
    hide After, SlotOf, StatusOf, Plain, Stands;
    var s4 := FirstStarts(ctx, call);
    var s5 := Glide(ctx, s4, 2, call, Validating, Allow);
    assert After(ctx, s5).tape == After(ctx, s4).tape;
    Waits(After(ctx, s4), After(ctx, s5), 2, [], 1, call, InFlight);
    var s6 := Walk(ctx, s5, 1, call, InFlight, Allow);
    assert After(ctx, s6).tape == After(ctx, s5).tape;
    Waits(After(ctx, s5), After(ctx, s6), 1, [], 2, call, ConsumedGuard);
    schedule := LookAround(ctx, s6, 2, call);
    Waits(After(ctx, s6), After(ctx, schedule), 2, Looking(2, id), 1, call, Consuming(NotAttempted));
  }
}

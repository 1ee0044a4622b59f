/** Escalations under overlap: when a resolution is final, a schedule whose
    executor starts under a pending escalation, and a schedule in which an
    approval refuses the first intent recorded under its id. */
module ProtocolEscalations {
  import opened Wrappers
  import opened Text
  import opened Domain
  import Provider
  import opened Store
  import opened Approval
  import opened History
  import opened Protocol
  import opened ProtocolClaims
  import opened ProtocolApproval
  import opened ProtocolSafety
  import opened ProtocolExamples

  // ---- When a resolution is final ---------------------------------------------------------

  /** Between the two histories no call was held under the id. */
  predicate NoNewHold(before: seq<Event>, after: seq<Event>, id: Id) {
    forall k | |before| <= k < |after| :: !(after[k].Held? && after[k].id == id)
  }

  /** The escalation is resolved, and nobody who saw it pending has yet to write. */
  predicate Settled(w: World, id: Id) {
    id in w.escalations && w.escalations[id].status != Pending && id !in w.resolving
  }

  lemma PerformEscalates(ctx: Context, w: World, r: RunId, run: Run, write: Write, id: Id)
    ensures var w' := Perform(ctx, w, r, run, write);
      && w'.resolving == w.resolving
      && (id in w.escalations && !(write.Hold? && run.call.id == id) ==>
        id in w'.escalations && w'.escalations[id] == w.escalations[id])
      && (write.Hold? && run.call.id == id ==> w'.tape == w.tape + [Held(r, id)])
  {
    hide RiskOf, RecordedIntent, RecordOf;
  }

  predicate SameEscalations(w: World, w': World) {
    w'.escalations == w.escalations && w'.resolving == w.resolving
  }

  lemma ActEscalates(w: World, r: RunId)
    requires r in w.runs
    ensures SameEscalations(w, ExecutorActs(w, r))
  {
    var key, s := ActIs(w, r);
    hide ExecutorActs, SwapIn;
    if ExecutorActs(w, r) != WithTask(w, r, Refused) { SwapEscalates(w, r, key, s); }
  }

  lemma SwapEscalates(w: World, r: RunId, key: Text, s: Provider.State)
    requires r in w.runs && key in s.resources && key in w.provider.resources
    ensures SameEscalations(w, SwapIn(w, r, key, s))
  {
    hide Provider.Recorded;
  }

  lemma TaskEscalates(w: World, r: RunId, task: Task)
    requires r in w.runs
    ensures SameEscalations(w, WithTask(w, r, task))
  {
  }

  lemma BeginEscalates(w: World, r: RunId, call: Call)
    ensures SameEscalations(w, BeginRun(w, r, call))
  {
  }

  predicate StillSettled(w: World, w': World, id: Id) {
    id in w.escalations && Settled(w', id) && w'.escalations[id] == w.escalations[id]
  }

  lemma PlanStays(ctx: Context, w: World, r: RunId, answered: bool, id: Id)
    requires r in w.runs && Settled(w, id)
    requires var (run, write) := Plan(ctx, w, r, answered); NoNewHold(w.tape, Perform(ctx, w, r, run, write).tape, id)
    ensures var (run, write) := Plan(ctx, w, r, answered); StillSettled(w, Perform(ctx, w, r, run, write), id)
  {
    hide Plan, Perform;
    var (run, write) := Plan(ctx, w, r, answered);
    PerformEscalates(ctx, w, r, run, write, id);
    HoldShows(w.tape, r, id);
  }

  lemma HoldShows(tape: seq<Event>, r: RunId, id: Id)
    ensures !NoNewHold(tape, tape + [Held(r, id)], id)
  {
    assert (tape + [Held(r, id)])[|tape|] == Held(r, id);
  }

  lemma ResolutionStays(w: World, other: Id, approves: bool, id: Id)
    requires Settled(w, id) && other in w.resolving
    ensures StillSettled(w, Resolution(w, other, approves), id)
  {
  }

  lemma SettledStays(ctx: Context, w: World, step: Step, id: Id)
    requires Settled(w, id) && Enabled(w, step) && NoNewHold(w.tape, Next(ctx, w, step).tape, id)
    ensures StillSettled(w, Next(ctx, w, step), id)
  {
    hide Plan, Perform, ExecutorActs, BeginRun, WithTask, TimedOut, Resolution, Provider.Recorded, Provider.Put,
      Provider.Advance;
    match step
    case Begin(r, call) => BeginEscalates(w, r, call);
    case Advance(r, answered) => PlanStays(ctx, w, r, answered, id);
    case Act(r) => ActEscalates(w, r);
    case Decline(r) => TaskEscalates(w, r, Declined);
    case Crash(r) => TaskEscalates(w, r, Crashed(w.runs[r].task == Applied));
    case WriteResolution(other, approves) => ResolutionStays(w, other, approves, id);
    case _ =>
  }

  lemma {:induction false} SettledForGood(ctx: Context, schedule: seq<Step>, more: seq<Step>, id: Id)
    requires Settled(After(ctx, schedule), id)
    requires NoNewHold(After(ctx, schedule).tape, After(ctx, schedule + more).tape, id)
    ensures StillSettled(After(ctx, schedule), After(ctx, schedule + more), id)
  {
    hide Enabled, Next;
    if more == [] {
      assert schedule + more == schedule;
    } else {
      var less, step := more[..|more| - 1], more[|more| - 1];
      assert (schedule + more)[..|schedule + more| - 1] == schedule + less;
      ProtocolSafety.HistoryGrows(ctx, schedule, less);
      ProtocolSafety.HistoryGrows(ctx, schedule + less, [step]);
      assert schedule + less + [step] == schedule + more;
      var w := After(ctx, schedule + less);
      SettledForGood(ctx, schedule, less, id);
      if Enabled(w, step) { SettledStays(ctx, w, step, id); }
    }
  }

  /** Whatever happens next, short of another hold, the escalation stands. */
  ghost predicate StandsFrom(ctx: Context, schedule: seq<Step>, id: Id) {
    forall more: seq<Step> ::
      NoNewHold(After(ctx, schedule).tape, After(ctx, schedule + more).tape, id) ==>
        StatusIn(After(ctx, schedule + more).escalations, id) == StatusIn(After(ctx, schedule).escalations, id)
  }

  /** A resolution is final, short of another hold, exactly when no other
      operator had read the escalation pending and not yet written. */
  lemma ResolutionIsFinalExactly(ctx: Context, schedule: seq<Step>, id: Id)
    requires var w := After(ctx, schedule); id in w.escalations && w.escalations[id].status != Pending
    ensures StandsFrom(ctx, schedule, id) <==> id !in After(ctx, schedule).resolving
  {
    var w := After(ctx, schedule);
    if id in w.resolving {
      var approves := w.escalations[id].status == Rejected;
      Overwritten(ctx, schedule, id, approves);
      hide After;
      var w' := After(ctx, schedule + [WriteResolution(id, approves)]);
      assert NoNewHold(w.tape, w'.tape, id);
      assert StatusIn(w'.escalations, id) != StatusIn(w.escalations, id);
      assert !StandsFrom(ctx, schedule, id);
    } else {
      hide After;
      forall more: seq<Step> | NoNewHold(w.tape, After(ctx, schedule + more).tape, id)
        ensures StatusIn(After(ctx, schedule + more).escalations, id) == StatusIn(w.escalations, id)
      {
        SettledForGood(ctx, schedule, more, id);
      }
    }
  }

  lemma Overwritten(ctx: Context, schedule: seq<Step>, id: Id, approves: bool)
    requires var w := After(ctx, schedule); id in w.escalations && id in w.resolving
    ensures var w, w' := After(ctx, schedule), After(ctx, schedule + [WriteResolution(id, approves)]);
      && StatusIn(w'.escalations, id) == Some(if approves then Approved else Rejected)
      && w'.tape == w.tape + [Resolved(id, approves)]
  {
    hide After, Plan, Perform, ExecutorActs, BeginRun;
    StepAfter(ctx, schedule, WriteResolution(id, approves));
  }

  // ---- A start under a pending escalation -------------------------------------------------------

  /** Two calls in lock-step: both pass their guards and look, one claims, the
      other is held, and the first starts. */
  lemma StartsWhileHeld(ctx: Context, call: Call, held: Call) returns (schedule: seq<Step>)
    requires Plain(ctx, call, Allow) && Plain(ctx, held, Escalate) && held.id == call.id
    ensures var tape, id := After(ctx, schedule).tape, call.id;
      && tape == [Admitted(1, id, false)] + [Admitted(2, id, false)] + Looking(1, id) + Looking(2, id) +
        [Claimed(1, id)] + [Held(2, id)] + [Started(1, id)]
      && StatusOf(tape[..6], id) == Some(Pending)
  {
    hide After, SlotOf, StatusOf, Plain, Stands;
    var s6 := HeldMeanwhile(ctx, call, held);
    schedule := Walk(ctx, s6, 1, call, Starting, Allow);
    assert After(ctx, schedule).tape[..6] == After(ctx, s6).tape;
  }

  lemma HeldMeanwhile(ctx: Context, call: Call, held: Call) returns (schedule: seq<Step>)
    requires Plain(ctx, call, Allow) && Plain(ctx, held, Escalate) && held.id == call.id
    ensures var w, id := After(ctx, schedule), call.id;
      && w.tape == [Admitted(1, id, false)] + [Admitted(2, id, false)] + Looking(1, id) + Looking(2, id) +
        [Claimed(1, id)] + [Held(2, id)]
      && Stands(w, 1, call, Starting) && StatusOf(w.tape, id) == Some(Pending)
  {
    var id := call.id;
    hide After, SlotOf, StatusOf, Plain, Stands;
    var s3 := BothLook(ctx, call, held);
    var s4 := Walk(ctx, s3, 1, call, Settling, Allow);
    assert After(ctx, s4).tape == After(ctx, s3).tape;
    Waits(After(ctx, s3), After(ctx, s4), 1, [], 2, held, Settling);
    var s5 := Walk(ctx, s4, 1, call, Claiming, Allow);
    Waits(After(ctx, s4), After(ctx, s5), 1, [Claimed(1, id)], 2, held, Settling);
    schedule := Walk(ctx, s5, 2, held, Settling, Escalate);
    Waits(After(ctx, s5), After(ctx, schedule), 2, [Held(2, id)], 1, call, Starting);
    Grow(After(ctx, s5).tape, Held(2, id));
  }

  lemma BothLook(ctx: Context, call: Call, held: Call) returns (schedule: seq<Step>)
    requires Plain(ctx, call, Allow) && Plain(ctx, held, Escalate) && held.id == call.id
    ensures var w, id := After(ctx, schedule), call.id;
      && w.tape == [Admitted(1, id, false)] + [Admitted(2, id, false)] + Looking(1, id) + Looking(2, id)
      && Stands(w, 1, call, Settling) && Stands(w, 2, held, Settling)
      && SlotOf(w.tape, id) == Empty
  {
    var id := call.id;
    hide After, SlotOf, StatusOf, Plain, Stands;
    var s2 := BothArrive(ctx, call, held, Escalate);
    var s3 := Walk(ctx, s2, 1, call, ConsumedGuard, Allow);
    Reads(After(ctx, s2).tape, Looking(1, id), id);
    Waits(After(ctx, s2), After(ctx, s3), 1, Looking(1, id), 2, held, ConsumedGuard);
    schedule := Walk(ctx, s3, 2, held, ConsumedGuard, Escalate);
    Reads(After(ctx, s3).tape, Looking(2, id), id);
    Waits(After(ctx, s3), After(ctx, schedule), 2, Looking(2, id), 1, call, Settling);
  }

  lemma BothArrive(ctx: Context, call: Call, other: Call, o: Outcome) returns (schedule: seq<Step>)
    requires Plain(ctx, call, Allow) && Plain(ctx, other, o) && other.id == call.id
    ensures var w, id := After(ctx, schedule), call.id;
      && w.tape == [Admitted(1, id, false)] + [Admitted(2, id, false)]
      && Stands(w, 1, call, ConsumedGuard) && Stands(w, 2, other, ConsumedGuard)
      && SlotOf(w.tape, id) == Empty && StatusOf(w.tape, id) == None
  {
    var id := call.id;
    Beginning(ctx, id);
    hide After, SlotOf, StatusOf, Plain, Stands;
    var s1 := Arrive(ctx, [], 1, call, Allow);
    Reads(After(ctx, []).tape, [Admitted(1, id, false)], id);
    schedule := Arrive(ctx, s1, 2, other, o);
    Reads(After(ctx, s1).tape, [Admitted(2, id, false)], id);
    Waits(After(ctx, s1), After(ctx, schedule), 2, [Admitted(2, id, false)], 1, call, ConsumedGuard);
  }

  // ---- A first intent refused -------------------------------------------------------------------

  function DeniedThenHeld(id: Id): seq<Event> {
    [Admitted(1, id, false)] + Looking(1, id) + [Admitted(2, id, false)] + Looking(2, id) + [Held(2, id)]
  }

  /** The first submission is denied, the second held. */
  lemma DenyThenHold(ctx: Context, denied: Call, held: Call) returns (schedule: seq<Step>)
    requires Plain(ctx, denied, Deny) && Plain(ctx, held, Escalate) && held.id == denied.id
    ensures var w, id := After(ctx, schedule), denied.id;
      && w.tape == DeniedThenHeld(id) && StatusOf(w.tape, id) == Some(Pending)
      && id in w.first && w.first[id] == Submitted(ctx, denied)
      && 2 in w.runs && w.runs[2].call == held && 3 !in w.runs
  {
    var id := denied.id;
    hide After, SlotOf, StatusOf, Plain, Stands;
    var s2 := DenyFirst(ctx, denied);
    var s3 := Arrive(ctx, s2, 2, held, Escalate);
    Reads(After(ctx, s2).tape, [Admitted(2, id, false)], id);
    var s4 := Walk(ctx, s3, 2, held, ConsumedGuard, Escalate);
    schedule := Walk(ctx, s4, 2, held, Settling, Escalate);
    Grow(After(ctx, s4).tape, Held(2, id));
    StandsIn(After(ctx, schedule), 2, held, Stopped);
  }

  lemma StandsIn(w: World, r: RunId, call: Call, pc: Pc)
    requires Stands(w, r, call, pc)
    ensures r in w.runs && w.runs[r].call == call
  {
  }

  lemma DenyFirst(ctx: Context, denied: Call) returns (schedule: seq<Step>)
    requires Plain(ctx, denied, Deny)
    ensures var w, id := After(ctx, schedule), denied.id;
      && w.tape == [Admitted(1, id, false)] + Looking(1, id)
      && StatusOf(w.tape, id) == None && SlotOf(w.tape, id) == Empty
      && id in w.first && w.first[id] == Submitted(ctx, denied) && 2 !in w.runs && 3 !in w.runs
  {
    var id := denied.id;
    Beginning(ctx, id);
    hide After, SlotOf, StatusOf, Plain, Stands;
    var s1 := Arrive(ctx, [], 1, denied, Deny);
    Reads(After(ctx, []).tape, [Admitted(1, id, false)], id);
    var s2 := Walk(ctx, s1, 1, denied, ConsumedGuard, Deny);
    Reads(After(ctx, s1).tape, Looking(1, id), id);
    schedule := Walk(ctx, s2, 1, denied, Settling, Deny);
    assert After(ctx, schedule).tape == After(ctx, s2).tape;
  }

  /** An operator reads the escalation pending and approves it. */
  lemma Approves(ctx: Context, schedule: seq<Step>, id: Id) returns (next: seq<Step>)
    requires var w := After(ctx, schedule); id in w.escalations && w.escalations[id].status == Pending
    ensures var w, w' := After(ctx, schedule), After(ctx, next);
      && w'.tape == w.tape + [Resolved(id, true)] && StatusOf(w'.tape, id) == Some(Approved)
      && w'.first == w.first && w'.runs == w.runs
  {
    var read := schedule + [ReadPending(id)];
    StepAfter(ctx, schedule, ReadPending(id));
    StepAfter(ctx, read, WriteResolution(id, true));
    Grow(After(ctx, schedule).tape, Resolved(id, true));
    hide After, StatusOf;
    next := read + [WriteResolution(id, true)];
  }

  lemma BeginsApproved(ctx: Context, schedule: seq<Step>, r: RunId, call: Call)
    requires r !in After(ctx, schedule).runs && call.approved
    ensures var w, w' := After(ctx, schedule), After(ctx, schedule + [Begin(r, call)]);
      && w'.tape == w.tape && w'.first == w.first
      && r in w'.runs && w'.runs == w.runs[r := w'.runs[r]] && w'.runs[r].call == call &&
        w'.runs[r].pc == ReadEscalation
  {
    StepAfter(ctx, schedule, Begin(r, call));
    hide After;
  }

  /** The held call's escalation is approved, and the denied intent resubmitted under it. */
  lemma Resubmitted(ctx: Context, denied: Call, held: Call, again: Call) returns (schedule: seq<Step>)
    requires Plain(ctx, denied, Deny) && Plain(ctx, held, Escalate) && held.id == denied.id
    requires again == denied.(approved := true)
    ensures var w, id := After(ctx, schedule), denied.id;
      && w.tape == DeniedThenHeld(id) + [Resolved(id, true)] && StatusOf(w.tape, id) == Some(Approved)
      && id in w.first && w.first[id] == Submitted(ctx, again)
      && 2 in w.runs && w.runs[2].call == held
      && 3 in w.runs && w.runs[3].call == again && w.runs[3].pc == ReadEscalation
  {
    var id := denied.id;
    hide After, Inv, StatusOf, Plain;
    var s1 := DenyThenHold(ctx, denied, held);
    EveryScheduleIsLawful(ctx, s1);
    Locally(After(ctx, s1), 2, id);
    var s2 := Approves(ctx, s1, id);
    BeginsApproved(ctx, s2, 3, again);
    schedule := s2 + [Begin(3, again)];
  }

  /** One step of a call at a guard. */
  lemma GuardStep(ctx: Context, schedule: seq<Step>, r: RunId, answered: bool, run: Run, write: Write)
    requires var w := After(ctx, schedule);
      && r in w.runs && (w.runs[r].pc.ReadEscalation? || w.runs[r].pc.ReadDecision? || w.runs[r].pc.ReadAction?)
      && PlanGuards(ctx, w, w.runs[r]) == (run, write) && !write.KeepIntent?
    ensures var w, w' := After(ctx, schedule), After(ctx, schedule + [Advance(r, answered)]);
      && w'.tape == w.tape + EventsOf(write, r, run.call.id) && w'.runs == w.runs[r := run] && w'.first == w.first
  {
    StepAfter(ctx, schedule, Advance(r, answered));
    hide After, PlanGuards, Perform;
    var w := After(ctx, schedule);
    assert Plan(ctx, w, r, answered) == (run, write);
    PerformEmits(ctx, w, r, run, write);
  }

  /** An approved call reads its escalation, the decision and the recorded action. */
  lemma ActionRead(ctx: Context, schedule: seq<Step>, r: RunId) returns (next: seq<Step>)
    requires var w := After(ctx, schedule);
      r in w.runs && w.runs[r].pc == ReadEscalation && StatusOf(w.tape, w.runs[r].call.id) == Some(Approved)
    ensures var w, w' := After(ctx, schedule), After(ctx, next);
      && w'.tape == w.tape + [Admitted(r, w.runs[r].call.id, true)] && w'.first == w.first
      && r in w'.runs && w'.runs == w.runs[r := w'.runs[r]] && w'.runs[r].call == w.runs[r].call &&
        w'.runs[r].pc.ReadAction?
  {
    var w := After(ctx, schedule);
    var id := w.runs[r].call.id;
    EveryScheduleIsLawful(ctx, schedule);
    Locally(w, r, id);
    hide After, Inv, StatusOf, Bindings, Traced;
    GuardStep(ctx, schedule, r, true, w.runs[r].(pc := ReadDecision(w.escalations[id].decisionId)), Guard(true));
    var s1 := schedule + [Advance(r, true)];
    var w1 := After(ctx, s1);
    var d := w1.runs[r].pc.decisionId;
    ConsultsHeld(ctx, s1, r);
    GuardStep(ctx, s1, r, true, w1.runs[r].(pc := ReadAction(w1.decisions[d])), Nothing);
    next := s1 + [Advance(r, true)];
  }

  /** The decision an approved call is referred to is one its id was held under. */
  lemma ConsultsHeld(ctx: Context, schedule: seq<Step>, r: RunId)
    requires var w := After(ctx, schedule); r in w.runs && Consulted(w.runs[r].pc).Some?
    ensures var w := After(ctx, schedule); var d := Consulted(w.runs[r].pc).value;
      && HeldFor(w, d, w.runs[r].call.id) && w.author.Keys == w.decisions.Keys && RecordKept(w, d)
      && (w.runs[r].pc.ReadAction? ==> w.decisions[d] == w.runs[r].pc.record)
  {
    EveryScheduleKeepsBindings(ctx, schedule);
    hide After, Bound, RecordOf;
    var w := After(ctx, schedule);
    assert Traced(ctx, w, r, w.runs[r]);
    assert RecordKept(w, Consulted(w.runs[r].pc).value);
  }

  /** A first submission under an id is denied, a second one is held, an operator
      approves, and the first intent is resubmitted under the approval. */
  lemma FirstIntentIsRefused(ctx: Context, denied: Call, held: Call, again: Call, answered: bool)
    returns (schedule: seq<Step>)
    requires Plain(ctx, denied, Deny) && Plain(ctx, held, Escalate) && held.id == denied.id
    requires again == denied.(approved := true) && held.intent.operation != denied.intent.operation
    ensures var w, id := After(ctx, schedule), denied.id;
      && w.tape == DeniedThenHeld(id) + [Resolved(id, true)] + [Admitted(3, id, true)]
      && id in w.first && w.first[id] == Submitted(ctx, again)
      && 3 in w.runs && w.runs[3].call == again && w.runs[3].pc.ReadAction?
    ensures var next := After(ctx, schedule + [Advance(3, answered)]); 3 in next.runs && next.runs[3].pc == Stopped
  {
    hide After, Plain, StatusOf;
    var s5 := Resubmitted(ctx, denied, held, again);
    schedule := ActionRead(ctx, s5, 3);
    Refuses(ctx, schedule, held, again, answered);
  }

  /** Only call 2 was held, so its record is the one compared. */
  lemma Refuses(ctx: Context, schedule: seq<Step>, held: Call, again: Call, answered: bool)
    requires var w := After(ctx, schedule);
      && w.tape == DeniedThenHeld(again.id) + [Resolved(again.id, true)] + [Admitted(3, again.id, true)]
      && 2 in w.runs && w.runs[2].call == held
      && 3 in w.runs && w.runs[3].call == again && w.runs[3].pc.ReadAction?
    requires held.intent.operation != again.intent.operation
    ensures var next := After(ctx, schedule + [Advance(3, answered)]); 3 in next.runs && next.runs[3].pc == Stopped
  {
    hide After;
    var w := After(ctx, schedule);
    var record := w.runs[3].pc.record;
    ConsultsHeld(ctx, schedule, 3);
    var x := w.author[record.id];
    assert x == 2 by { OnlyTwoHeld(w.tape, again.id, x); }
    hide SameArguments, KeysOf, RefsOf;
    assert record.operation == held.intent.operation;
    GuardStep(ctx, schedule, 3, answered, w.runs[3].(pc := Stopped), Nothing);
  }

  lemma OnlyTwoHeld(tape: seq<Event>, id: Id, x: RunId)
    requires tape == DeniedThenHeld(id) + [Resolved(id, true)] + [Admitted(3, id, true)] && Held(x, id) in tape
    ensures x == 2
  {
    var k :| 0 <= k < |tape| && tape[k] == Held(x, id);
  }

  // ---- A resolution overwritten ----------------------------------------------------------------

  /** Two operators read the same escalation pending and one approves: the
      approval is not final. */
  lemma ResolutionCanBeOverwritten(ctx: Context, denied: Call, held: Call) returns (schedule: seq<Step>)
    requires Plain(ctx, denied, Deny) && Plain(ctx, held, Escalate) && held.id == denied.id
    ensures var w, id := After(ctx, schedule), held.id;
      && id in w.escalations && w.escalations[id].status == Approved && id in w.resolving
      && !StandsFrom(ctx, schedule, id)
  {
    var id := held.id;
    var s1 := DenyThenHold(ctx, denied, held);
    EveryScheduleIsLawful(ctx, s1);
    Locally(After(ctx, s1), 2, id);
    hide Inv, StatusOf, Plain, StandsFrom;
    var s3 := BothRead(ctx, s1, id);
    Overwritten(ctx, s3, id, true);
    schedule := s3 + [WriteResolution(id, true)];
    StepAfter(ctx, s3, WriteResolution(id, true));
    hide After;
    ResolutionIsFinalExactly(ctx, schedule, id);
  }

  lemma BothRead(ctx: Context, schedule: seq<Step>, id: Id) returns (next: seq<Step>)
    requires var w := After(ctx, schedule); id in w.escalations && w.escalations[id].status == Pending
    ensures var w, w' := After(ctx, schedule), After(ctx, next);
      id in w'.escalations && w'.escalations[id] == w.escalations[id] && w'.resolving[id] >= 2
  {
    hide After;
    StepAfter(ctx, schedule, ReadPending(id));
    var s1 := schedule + [ReadPending(id)];
    StepAfter(ctx, s1, ReadPending(id));
    next := s1 + [ReadPending(id)];
  }

  /** Where nobody else has read it pending, one operator's resolution stands. */
  lemma SoleResolutionStands(ctx: Context, schedule: seq<Step>, id: Id, approves: bool)
    requires var w := After(ctx, schedule);
      id in w.escalations && w.escalations[id].status == Pending && id !in w.resolving
    ensures var next := schedule + [ReadPending(id)] + [WriteResolution(id, approves)];
      && StatusIn(After(ctx, next).escalations, id) == Some(if approves then Approved else Rejected)
      && StandsFrom(ctx, next, id)
  {
    var read := schedule + [ReadPending(id)];
    var next := read + [WriteResolution(id, approves)];
    StepAfter(ctx, schedule, ReadPending(id));
    StepAfter(ctx, read, WriteResolution(id, approves));
    hide After, StandsFrom;
    assert After(ctx, read).resolving[id] == 1;
    ResolutionIsFinalExactly(ctx, next, id);
  }
}

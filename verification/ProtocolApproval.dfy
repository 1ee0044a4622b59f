/** Approvals across calls: in every schedule a call that executes under an
    approval names what a held call of the same action id had named, with
    arguments alike to those first submitted under the id. */
module ProtocolApproval {
  import opened Wrappers
  import opened Domain
  import Redaction
  import opened Store
  import opened Approval
  import opened History
  import opened Protocol
  import opened ProtocolClaims
  import Provider
  import opened Text

  // ---- What the store remembers ------------------------------------------------------------

  ghost predicate RecordsKept(w: World) {
    && w.author.Keys == w.decisions.Keys
    && forall d :: d in w.decisions ==> d < w.nextDecision && RecordKept(w, d)
  }

  /** A decision record tells the intent of the call that saved it. */
  predicate RecordKept(w: World, d: Id)
    requires d in w.decisions && w.author.Keys == w.decisions.Keys
  {
    w.author[d] in w.runs &&
      var call := w.runs[w.author[d]].call;
      w.decisions[d] == RecordOf(d, call.id, w.decisions[d].outcome, call.intent)
  }

  /** A recorded action is the redaction of the first intent submitted under its id. */
  ghost predicate ActionsKept(ctx: Context, w: World) {
    && w.actions.Keys == w.first.Keys
    && forall id :: id in w.actions ==> w.actions[id] == RecordedIntent(ctx.sensitive, w.first[id])
  }

  /** The decision belongs to a call of this id. */
  predicate SavedFor(w: World, d: Id, id: Id) {
    d in w.decisions && d in w.author && w.author[d] in w.runs && w.runs[w.author[d]].call.id == id
  }

  /** The decision belongs to a call of this id that was held. */
  predicate HeldFor(w: World, d: Id, id: Id) {
    SavedFor(w, d, id) && Held(w.author[d], id) in w.tape
  }

  ghost predicate EscalationsKept(w: World) {
    forall id :: id in w.escalations ==> id in w.first && HeldFor(w, w.escalations[id].decisionId, id)
  }

  /** The call names what held call `x` named, under arguments alike to the first. */
  ghost predicate BoundTo(ctx: Context, w: World, call: Call, x: RunId) {
    && x in w.runs && w.runs[x].call.id == call.id && Held(x, call.id) in w.tape
    && SameTarget(w.runs[x].call.intent, call.intent)
    && call.id in w.first && Redaction.Alike(ctx.sensitive, w.first[call.id].arguments, call.intent.arguments, 0)
  }

  ghost predicate Bound(ctx: Context, w: World, call: Call) {
    exists x :: BoundTo(ctx, w, call, x)
  }

  predicate BeforeBinding(pc: Pc) {
    pc.ReadEscalation? || pc.ReadDecision? || pc.ReadAction? || pc.Stopped?
  }

  /** From the recording of its intent to the look at the authorization, and
      where it may be held, a call's id has a first intent. */
  predicate HasFirst(pc: Pc) {
    match pc
    case ReadDecision(_) => true
    case ReadAction(_) => true
    case Evaluating(p) => p == Validation
    case Fetching(p, _) => p == Validation
    case Concluding(p) => p == Validation
    case ConsumedGuard => true
    case Revalidating => true
    case Settling => true
    case GateHolding(_) => true
    case _ => false
  }

  /** The decision a call would be held under. */
  function Cited(run: Run): Option<Id> {
    match run.pc
    case ConsumedGuard => Some(run.decisionId)
    case Settling => Some(run.decisionId)
    case GateHolding(d) => Some(d)
    case _ => None
  }

  /** The decision an approved call was referred to. */
  function Consulted(pc: Pc): Option<Id> {
    match pc
    case ReadDecision(d) => Some(d)
    case ReadAction(record) => Some(record.id)
    case _ => None
  }

  predicate Own(w: World, r: RunId, d: Id) {
    d in w.decisions && d in w.author && w.author[d] == r
  }

  ghost predicate Traced(ctx: Context, w: World, r: RunId, run: Run) {
    var id := run.call.id;
    && (run.call.approved && !BeforeBinding(run.pc) ==> Bound(ctx, w, run.call))
    && (run.call.approved && !run.pc.ReadEscalation? && !run.pc.Stopped? ==> Admitted(r, id, true) in w.tape)
    && (HasFirst(run.pc) ==> id in w.first)
    && (Cited(run).Some? ==> Own(w, r, Cited(run).value))
    && (Consulted(run.pc).Some? ==> HeldFor(w, Consulted(run.pc).value, id))
    && (run.pc.ReadAction? ==> run.pc.record.id in w.decisions && w.decisions[run.pc.record.id] == run.pc.record)
  }

  ghost predicate Bindings(ctx: Context, w: World) {
    && RecordsKept(w) && ActionsKept(ctx, w) && EscalationsKept(w)
    && forall r :: r in w.runs ==> Traced(ctx, w, r, w.runs[r])
  }

  // ---- Nothing remembered is lost -----------------------------------------------------------

  ghost predicate Grown(w: World, w': World) {
    && (forall r :: r in w.runs ==> r in w'.runs && w'.runs[r].call == w.runs[r].call)
    && (forall d :: d in w.decisions ==> d in w'.decisions && w'.decisions[d] == w.decisions[d])
    && (forall d :: d in w.author ==> d in w'.author && w'.author[d] == w.author[d])
    && (forall id :: id in w.first ==> id in w'.first && w'.first[id] == w.first[id])
    && w.tape <= w'.tape
  }

  lemma HeldGrows(w: World, w': World, d: Id, id: Id)
    requires Grown(w, w')
    ensures SavedFor(w, d, id) ==> SavedFor(w', d, id)
    ensures HeldFor(w, d, id) ==> HeldFor(w', d, id)
  {
  }

  lemma BoundGrows(ctx: Context, w: World, w': World, call: Call)
    requires Grown(w, w') && Bound(ctx, w, call)
    ensures Bound(ctx, w', call)
  {
    hide SameTarget, Redaction.Alike;
    var x :| BoundTo(ctx, w, call, x);
    assert BoundTo(ctx, w', call, x);
  }

  lemma TracedGrows(ctx: Context, w: World, w': World, r: RunId, run: Run)
    requires Grown(w, w') && Traced(ctx, w, r, run)
    ensures Traced(ctx, w', r, run)
  {
    var id := run.call.id;
    if Bound(ctx, w, run.call) { BoundGrows(ctx, w, w', run.call); }
    if Consulted(run.pc).Some? { HeldGrows(w, w', Consulted(run.pc).value, id); }
    hide Bound;
  }

  lemma OthersTraced(ctx: Context, w: World, w': World, r: RunId)
    requires Bindings(ctx, w) && Grown(w, w')
    requires r in w'.runs && w'.runs == w.runs[r := w'.runs[r]]
    requires Traced(ctx, w', r, w'.runs[r])
    requires RecordsKept(w') && ActionsKept(ctx, w') && EscalationsKept(w')
    ensures Bindings(ctx, w')
  {
    hide Traced, Grown, RecordsKept, ActionsKept, EscalationsKept;
    forall q | q in w'.runs ensures Traced(ctx, w', q, w'.runs[q]) {
      if q != r { TracedGrows(ctx, w, w', q, w.runs[q]); }
    }
  }

  // ---- One step of a call --------------------------------------------------------------------

  /** What a planned step has in hand for the writes that follow. */
  ghost predicate Prepared(ctx: Context, w: World, r: RunId, run: Run, write: Write) {
    var id := run.call.id;
    && (run.call.approved && !BeforeBinding(run.pc) ==> Bound(ctx, w, run.call))
    && (run.call.approved && !run.pc.ReadEscalation? && !run.pc.Stopped? ==>
      Admitted(r, id, true) in w.tape || write == Guard(true))
    && (HasFirst(run.pc) ==> id in w.first || write.KeepIntent?)
    && (Cited(run).Some? ==> Own(w, r, Cited(run).value) || (write.SaveRecord? && Cited(run).value == w.nextDecision))
    && (Consulted(run.pc).Some? ==> HeldFor(w, Consulted(run.pc).value, id))
    && (run.pc.ReadAction? ==> run.pc.record.id in w.decisions && w.decisions[run.pc.record.id] == run.pc.record)
    && (write.Hold? ==> Own(w, r, write.decisionId) && id in w.first)
    && r in w.runs && run.call == w.runs[r].call
  }

  lemma PlanPrepared(ctx: Context, w: World, r: RunId, answered: bool)
    requires Bindings(ctx, w) && r in w.runs
    ensures var (run, write) := Plan(ctx, w, r, answered); Prepared(ctx, w, r, run, write)
  {
    var run := w.runs[r];
    assert Traced(ctx, w, r, run);
    hide PlanFetch, PlanConclusion, PlanSettling, PlanGuards, PlanClaim;
    hide Prepared, Conditional, CurrentDecision, ReportOf, Bindings;
    if run.pc.Fetching? {
      FetchPrepared(ctx, w, r, run, answered);
    } else if run.pc.Concluding? {
      ConclusionPrepared(ctx, w, r, run);
    } else if run.pc == Settling {
      SettlingPrepared(ctx, w, r, run);
    } else if run.pc == Claiming {
      ClaimPrepared(ctx, w, r, run);
    } else if Progressing(run.pc) {
      ProgressPrepared(ctx, w, r, answered);
    } else {
      GuardsPrepared(ctx, w, r, run);
    }
  }

  lemma FetchPrepared(ctx: Context, w: World, r: RunId, run: Run, answered: bool)
    requires r in w.runs && run == w.runs[r] && Traced(ctx, w, r, run) && run.pc.Fetching?
    ensures Prepared(ctx, w, r, PlanFetch(ctx, w.provider, run, answered), Nothing)
  {
    FetchFollows(ctx, w.provider, run, answered);
    hide PlanFetch, Bound, HeldFor;
  }

  lemma FetchFollows(ctx: Context, s: Provider.State, run: Run, answered: bool)
    requires run.pc.Fetching?
    ensures var run' := PlanFetch(ctx, s, run, answered);
      run'.call == run.call && (run'.pc.Fetching? || run'.pc.Concluding?) && run'.pc.purpose == run.pc.purpose
  {
  }

  lemma ConclusionPrepared(ctx: Context, w: World, r: RunId, run: Run)
    requires r in w.runs && run == w.runs[r] && Traced(ctx, w, r, run) && run.pc.Concluding?
    ensures var (run', write) := PlanConclusion(ctx, w, run); Prepared(ctx, w, r, run', write)
  {
    hide Bound, HeldFor, InitialDecision, CurrentVerdicts, DecideOn, Recomputed, RecheckBlocks;
  }

  lemma SettlingPrepared(ctx: Context, w: World, r: RunId, run: Run)
    requires r in w.runs && run == w.runs[r] && Traced(ctx, w, r, run) && run.pc == Settling
    ensures var (run', write) := PlanSettling(ctx, w, run); Prepared(ctx, w, r, run', write)
  {
    hide Bound, HeldFor, CurrentDecision, PolicyOf, Conditional, GateOutcome;
  }

  lemma ClaimPrepared(ctx: Context, w: World, r: RunId, run: Run)
    requires r in w.runs && run == w.runs[r] && Traced(ctx, w, r, run) && run.pc == Claiming
    ensures var (run', write) := PlanClaim(ctx, w, r, run); Prepared(ctx, w, r, run', write)
  {
    hide Bound, HeldFor, PolicyOf, Conditional, DeadlineOf, ExpectedState;
  }

  lemma ProgressPrepared(ctx: Context, w: World, r: RunId, answered: bool)
    requires r in w.runs && Traced(ctx, w, r, w.runs[r]) && Progressing(w.runs[r].pc)
    ensures var (run, write) := Plan(ctx, w, r, answered); Prepared(ctx, w, r, run, write)
  {
    hide Bound, HeldFor, CurrentDecision, Conditional, PlanFetch, PlanConclusion, PlanSettling, PlanClaim, PlanGuards;
  }

  lemma GuardsPrepared(ctx: Context, w: World, r: RunId, run: Run)
    requires Bindings(ctx, w) && r in w.runs && run == w.runs[r] && !run.pc.Fetching?
    ensures var (run', write) := PlanGuards(ctx, w, run); Prepared(ctx, w, r, run', write)
  {
    assert Traced(ctx, w, r, run);
    hide Traced, Prepared, PlanGuards, RecordsKept, ActionsKept, EscalationsKept;
    if run.pc.ReadEscalation? || run.pc.ReadDecision? {
      ConsultingPrepared(ctx, w, r, run);
    } else if run.pc.ReadAction? {
      BindingPrepared(ctx, w, r, run);
    } else {
      PassingPrepared(ctx, w, r, run);
    }
  }

  lemma PassingPrepared(ctx: Context, w: World, r: RunId, run: Run)
    requires r in w.runs && run == w.runs[r] && Traced(ctx, w, r, run)
    requires !run.pc.Fetching? && !run.pc.ReadEscalation? && !run.pc.ReadDecision? && !run.pc.ReadAction?
    ensures var (run', write) := PlanGuards(ctx, w, run); Prepared(ctx, w, r, run', write)
  {
    hide Bound, HeldFor, PolicyOf, InitialDecision, PolicyMissing;
  }

  lemma ConsultingPrepared(ctx: Context, w: World, r: RunId, run: Run)
    requires RecordsKept(w) && EscalationsKept(w) && r in w.runs && run == w.runs[r] && Traced(ctx, w, r, run)
    requires run.pc.ReadEscalation? || run.pc.ReadDecision?
    ensures var (run', write) := PlanGuards(ctx, w, run); Prepared(ctx, w, r, run', write)
  {
    hide Bound, HeldFor, RecordOf;
    if run.call.id in w.escalations { assert HeldFor(w, w.escalations[run.call.id].decisionId, run.call.id); }
    if run.pc.ReadDecision? && run.pc.decisionId in w.decisions {
      assert RecordKept(w, run.pc.decisionId);
      RecordNamesItself(w, run.pc.decisionId);
    }
    hide RecordKept;
  }

  lemma RecordNamesItself(w: World, d: Id)
    requires d in w.decisions && w.author.Keys == w.decisions.Keys && RecordKept(w, d)
    ensures w.decisions[d].id == d
  {
  }

  lemma BindingPrepared(ctx: Context, w: World, r: RunId, run: Run)
    requires RecordsKept(w) && ActionsKept(ctx, w) && r in w.runs && run == w.runs[r] && Traced(ctx, w, r, run)
    requires run.pc.ReadAction?
    ensures var (run', write) := PlanGuards(ctx, w, run); Prepared(ctx, w, r, run', write)
  {
    hide Bound, HeldFor, Binds, RecordKept, RecordedIntent;
    assert run.call.id in w.actions.Keys;
    if Binds(ctx.sensitive, run.pc.record, Some(w.actions[run.call.id]), run.call.intent) {
      BindingBinds(ctx, w, run);
    }
    hide RecordsKept, ActionsKept;
  }

  lemma BindingBinds(ctx: Context, w: World, run: Run)
    requires RecordsKept(w) && ActionsKept(ctx, w) && run.pc.ReadAction?
    requires var id, record := run.call.id, run.pc.record;
      && id in w.actions && HeldFor(w, record.id, id) && w.decisions[record.id] == record
      && Binds(ctx.sensitive, record, Some(w.actions[id]), run.call.intent)
    ensures Bound(ctx, w, run.call)
  {
    var id, record := run.call.id, run.pc.record;
    hide Binds, SameTarget, Redaction.Alike, RecordOf;
    assert RecordKept(w, record.id);
    var x := w.author[record.id];
    RecordFields(record.id, id, record, w.runs[x].call.intent);
    BindsExactly(ctx.sensitive, record, w.first[id], w.runs[x].call.intent, run.call.intent);
    assert BoundTo(ctx, w, run.call, x);
  }

  lemma RecordFields(d: Id, actionId: Id, record: DecisionRecord, intent: Intent)
    requires record == RecordOf(d, actionId, record.outcome, intent)
    ensures record == RecordOf(record.id, record.actionId, record.outcome, intent)
  {
  }

  // ---- Its writes ------------------------------------------------------------------------------

  predicate Saves(write: Write) {
    write.SaveRecord? || write.Freeze?
  }

  function SavedOutcome(write: Write): Outcome {
    if write.SaveRecord? then write.outcome else Deny
  }

  /** What each write does to what the store remembers. */
  lemma PerformFacts(ctx: Context, w: World, r: RunId, run: Run, write: Write)
    ensures var w' := Perform(ctx, w, r, run, write); var id, d := run.call.id, w.nextDecision;
      && w'.runs == w.runs[r := run] && w.tape <= w'.tape
      && w'.decisions == (if Saves(write) then w.decisions[d := RecordOf(d, id, SavedOutcome(write), run.call.intent)]
        else w.decisions)
      && w'.author == (if Saves(write) then w.author[d := r] else w.author)
      && w'.nextDecision == (if Saves(write) then d + 1 else d)
      && (write.KeepIntent? ==> id in w'.first)
      && w'.first.Keys == (if write.KeepIntent? then w.first.Keys + {id} else w.first.Keys)
      && (forall k :: k in w.first ==> w'.first[k] == w.first[k])
      && w'.escalations == (if write.Hold? then w.escalations[id := Escalation(write.decisionId, Pending)]
        else w.escalations)
      && (write.Hold? ==> w'.tape == w.tape + [Held(r, id)])
      && (write == Guard(true) ==> Admitted(r, id, true) in w'.tape)
  {
    hide RiskOf, RecordedIntent, RecordOf;
  }

  lemma PerformGrows(ctx: Context, w: World, r: RunId, run: Run, write: Write)
    requires RecordsKept(w) && r in w.runs && run.call == w.runs[r].call
    ensures Grown(w, Perform(ctx, w, r, run, write))
  {
    PerformFacts(ctx, w, r, run, write);
    hide Perform, RecordKept, RecordOf;
    assert w.nextDecision !in w.decisions.Keys;
  }

  lemma OwnGrows(w: World, w': World, r: RunId, d: Id)
    requires Grown(w, w') && Own(w, r, d)
    ensures Own(w', r, d)
  {
  }

  lemma PerformTraced(ctx: Context, w: World, r: RunId, run: Run, write: Write)
    requires Prepared(ctx, w, r, run, write) && Grown(w, Perform(ctx, w, r, run, write))
    ensures Traced(ctx, Perform(ctx, w, r, run, write), r, run)
  {
    hide Perform, RecordOf, Grown, Bound, HeldFor;
    var w' := Perform(ctx, w, r, run, write);
    PerformFacts(ctx, w, r, run, write);
    if run.call.approved && !BeforeBinding(run.pc) { BoundGrows(ctx, w, w', run.call); }
    if Consulted(run.pc).Some? { HeldGrows(w, w', Consulted(run.pc).value, run.call.id); }
    if Cited(run).Some? && Own(w, r, Cited(run).value) { OwnGrows(w, w', r, Cited(run).value); }
    if run.pc.ReadAction? { RecordStays(w, w', run.pc.record.id); }
  }

  lemma RecordStays(w: World, w': World, d: Id)
    requires Grown(w, w') && d in w.decisions
    ensures d in w'.decisions && w'.decisions[d] == w.decisions[d]
  {
  }

  lemma PerformRecords(ctx: Context, w: World, r: RunId, run: Run, write: Write)
    requires RecordsKept(w) && r in w.runs && run.call == w.runs[r].call
    ensures RecordsKept(Perform(ctx, w, r, run, write))
  {
    var w' := Perform(ctx, w, r, run, write);
    PerformFacts(ctx, w, r, run, write);
    RecordOutcome(w.nextDecision, run.call.id, SavedOutcome(write), run.call.intent);
    hide Perform, RecordOf;
    assert w'.author.Keys == w'.decisions.Keys;
    forall d | d in w'.decisions ensures d < w'.nextDecision && RecordKept(w', d) {
      if d in w.decisions { assert RecordKept(w, d); }
    }
  }

  lemma RecordOutcome(d: Id, actionId: Id, outcome: Outcome, intent: Intent)
    ensures RecordOf(d, actionId, outcome, intent).outcome == outcome
  {
  }

  lemma PerformActions(ctx: Context, w: World, r: RunId, run: Run, write: Write)
    requires ActionsKept(ctx, w)
    ensures ActionsKept(ctx, Perform(ctx, w, r, run, write))
  {
    hide RiskOf, RecordOf, RecordedIntent;
  }

  lemma PerformEscalations(ctx: Context, w: World, r: RunId, run: Run, write: Write)
    requires EscalationsKept(w) && Prepared(ctx, w, r, run, write) && Grown(w, Perform(ctx, w, r, run, write))
    ensures EscalationsKept(Perform(ctx, w, r, run, write))
  {
    var w' := Perform(ctx, w, r, run, write);
    var id := run.call.id;
    PerformFacts(ctx, w, r, run, write);
    hide Perform, Bound, RecordOf;
    forall k | k in w'.escalations ensures k in w'.first && HeldFor(w', w'.escalations[k].decisionId, k) {
      if write.Hold? && k == id {
        OwnGrows(w, w', r, write.decisionId);
        assert w'.tape[|w.tape|] == Held(r, id);
      } else {
        HeldGrows(w, w', w.escalations[k].decisionId, k);
      }
    }
  }

  // ---- Every schedule -------------------------------------------------------------------------

  lemma AdvanceBindings(ctx: Context, w: World, r: RunId, answered: bool)
    requires Bindings(ctx, w) && r in w.runs
    ensures var (run, write) := Plan(ctx, w, r, answered); Bindings(ctx, Perform(ctx, w, r, run, write))
  {
    PlanPrepared(ctx, w, r, answered);
    hide Plan, Traced, RecordsKept, ActionsKept, EscalationsKept;
    var (run, write) := Plan(ctx, w, r, answered);
    assert run.call == w.runs[r].call;
    hide Prepared;
    PerformGrows(ctx, w, r, run, write);
    PerformTraced(ctx, w, r, run, write);
    PerformRecords(ctx, w, r, run, write);
    PerformActions(ctx, w, r, run, write);
    PerformEscalations(ctx, w, r, run, write);
    PerformFacts(ctx, w, r, run, write);
    hide Perform;
    OthersTraced(ctx, w, Perform(ctx, w, r, run, write), r);
  }

  /** A step that touches one call's program counter or task, or the history, only. */
  lemma BesideHolds(ctx: Context, w: World, w': World, r: RunId)
    requires Bindings(ctx, w) && r in w'.runs && w'.runs == w.runs[r := w'.runs[r]] && w.tape <= w'.tape
    requires r in w.runs ==> w'.runs[r].call == w.runs[r].call
    requires w'.decisions == w.decisions && w'.author == w.author && w'.nextDecision == w.nextDecision
    requires w'.actions == w.actions && w'.first == w.first && w'.escalations == w.escalations
    requires Grown(w, w') ==> Traced(ctx, w', r, w'.runs[r])
    ensures Bindings(ctx, w')
  {
    assert Grown(w, w');
    hide Traced;
    StoreStays(ctx, w, w');
    hide RecordsKept, ActionsKept, EscalationsKept, Grown;
    OthersTraced(ctx, w, w', r);
  }

  /** The store remembers the same when it is left alone, or an escalation resolved. */
  lemma StoreStays(ctx: Context, w: World, w': World)
    requires RecordsKept(w) && ActionsKept(ctx, w) && EscalationsKept(w) && Grown(w, w')
    requires w'.decisions == w.decisions && w'.author == w.author && w'.nextDecision == w.nextDecision
    requires w'.actions == w.actions && w'.first == w.first
    requires forall id :: id in w'.escalations ==>
      id in w.escalations && w'.escalations[id].decisionId == w.escalations[id].decisionId
    ensures RecordsKept(w') && ActionsKept(ctx, w') && EscalationsKept(w')
  {
    hide RecordOf, RecordedIntent;
    forall d | d in w'.decisions ensures RecordKept(w', d) {
      assert RecordKept(w, d);
    }
    hide RecordKept;
    forall id | id in w'.escalations ensures HeldFor(w', w'.escalations[id].decisionId, id) {
      HeldGrows(w, w', w.escalations[id].decisionId, id);
    }
  }

  lemma TaskBindings(ctx: Context, w: World, w': World, r: RunId, task: Task)
    requires Bindings(ctx, w) && r in w.runs && w'.runs == w.runs[r := w.runs[r].(task := task)] && w.tape <= w'.tape
    requires w'.decisions == w.decisions && w'.author == w.author && w'.nextDecision == w.nextDecision
    requires w'.actions == w.actions && w'.first == w.first && w'.escalations == w.escalations
    ensures Bindings(ctx, w')
  {
    assert Traced(ctx, w, r, w.runs[r]);
    TaskTraced(ctx, w, r, w.runs[r], task);
    hide Bindings, Traced;
    if Grown(w, w') { TracedGrows(ctx, w, w', r, w.runs[r].(task := task)); }
    BesideHolds(ctx, w, w', r);
  }

  lemma TaskTraced(ctx: Context, w: World, r: RunId, run: Run, task: Task)
    requires Traced(ctx, w, r, run)
    ensures Traced(ctx, w, r, run.(task := task))
  {
    hide Bound, HeldFor;
  }

  lemma TimeoutBindings(ctx: Context, w: World, r: RunId)
    requires Bindings(ctx, w) && r in w.runs && w.runs[r].pc == InFlight
    ensures Bindings(ctx, w.(runs := w.runs[r := TimedOut(w.runs[r])]))
  {
    var w' := w.(runs := w.runs[r := TimedOut(w.runs[r])]);
    assert Traced(ctx, w, r, w.runs[r]);
    TimeoutTraced(ctx, w, r, w.runs[r]);
    hide Bindings, Traced, Conditional;
    if Grown(w, w') { TracedGrows(ctx, w, w', r, TimedOut(w.runs[r])); }
    BesideHolds(ctx, w, w', r);
  }

  lemma TimeoutTraced(ctx: Context, w: World, r: RunId, run: Run)
    requires Traced(ctx, w, r, run) && run.pc == InFlight
    ensures Traced(ctx, w, r, TimedOut(run))
  {
    hide Bound, HeldFor, Conditional;
  }

  lemma BeginBindings(ctx: Context, w: World, r: RunId, call: Call)
    requires Bindings(ctx, w) && Enabled(w, Begin(r, call))
    ensures Bindings(ctx, BeginRun(w, r, call))
  {
    var w' := BeginRun(w, r, call);
    hide Bindings, Bound, HeldFor;
    assert Traced(ctx, w', r, w'.runs[r]);
    hide Traced;
    BesideHolds(ctx, w, w', r);
  }

  lemma ActBindings(ctx: Context, w: World, r: RunId)
    requires Bindings(ctx, w) && r in w.runs
    ensures Bindings(ctx, ExecutorActs(w, r))
  {
    var key, s := ActIs(w, r);
    hide ExecutorActs, Bindings, Provider.Recorded, WithTask, SwapIn;
    if ExecutorActs(w, r) == WithTask(w, r, Refused) {
      RefusalBindings(ctx, w, r);
    } else {
      SwapBindings(ctx, w, r, key, s);
    }
  }

  lemma RefusalBindings(ctx: Context, w: World, r: RunId)
    requires Bindings(ctx, w) && r in w.runs
    ensures Bindings(ctx, WithTask(w, r, Refused))
  {
    hide Bindings;
    TaskBindings(ctx, w, WithTask(w, r, Refused), r, Refused);
  }

  lemma SwapBindings(ctx: Context, w: World, r: RunId, key: Text, s: Provider.State)
    requires Bindings(ctx, w) && r in w.runs && key in s.resources && key in w.provider.resources
    ensures Bindings(ctx, SwapIn(w, r, key, s))
  {
    hide Bindings, Provider.Recorded;
    TaskBindings(ctx, w, SwapIn(w, r, key, s), r, Applied);
  }

  /** A step outside the calls that at most resolves an escalation. */
  lemma OutsideBindings(ctx: Context, w: World, w': World)
    requires Bindings(ctx, w) && w'.runs == w.runs && w.tape <= w'.tape
    requires w'.decisions == w.decisions && w'.author == w.author && w'.nextDecision == w.nextDecision
    requires w'.actions == w.actions && w'.first == w.first
    requires forall id :: id in w'.escalations ==>
      id in w.escalations && w'.escalations[id].decisionId == w.escalations[id].decisionId
    ensures Bindings(ctx, w')
  {
    assert Grown(w, w');
    hide Traced;
    StoreStays(ctx, w, w');
    hide RecordsKept, ActionsKept, EscalationsKept, Grown;
    forall q | q in w'.runs ensures Traced(ctx, w', q, w'.runs[q]) {
      TracedGrows(ctx, w, w', q, w.runs[q]);
    }
  }

  lemma BindingsNext(ctx: Context, w: World, step: Step)
    requires Bindings(ctx, w) && Enabled(w, step)
    ensures Bindings(ctx, Next(ctx, w, step))
  {
    hide Bindings, Plan, Perform, ExecutorActs, BeginRun, TimedOut, Provider.Recorded, Provider.Put, Provider.Advance;
    match step
    case Begin(r, call) => BeginBindings(ctx, w, r, call);
    case Advance(r, answered) => AdvanceBindings(ctx, w, r, answered);
    case Act(r) => ActBindings(ctx, w, r);
    case Decline(r) => TaskBindings(ctx, w, WithTask(w, r, Declined), r, Declined);
    case Crash(r) =>
      var task := Crashed(w.runs[r].task == Applied);
      TaskBindings(ctx, w, WithTask(w, r, task), r, task);
    case Timeout(r) => TimeoutBindings(ctx, w, r);
    case _ => OutsideBindings(ctx, w, Next(ctx, w, step));
  }

  lemma {:induction false} EveryScheduleKeepsBindings(ctx: Context, schedule: seq<Step>)
    ensures Bindings(ctx, After(ctx, schedule))
  {
    hide Enabled, Next, Traced, RecordKept;
    if schedule != [] {
      hide Bindings;
      var w, step := After(ctx, schedule[..|schedule| - 1]), schedule[|schedule| - 1];
      EveryScheduleKeepsBindings(ctx, schedule[..|schedule| - 1]);
      if Enabled(w, step) { BindingsNext(ctx, w, step); }
    }
  }

  /** In every schedule, a call that got past the binding of its approval was
      approved when it asked, and names what a held call of its id had named,
      under arguments alike to the first ones submitted. */
  lemma ApprovedCallsAreBound(ctx: Context, schedule: seq<Step>, r: RunId) returns (x: RunId, g: nat)
    requires var w := After(ctx, schedule); r in w.runs && w.runs[r].call.approved && !BeforeBinding(w.runs[r].pc)
    ensures var w := After(ctx, schedule); var call := w.runs[r].call;
      && BoundTo(ctx, w, call, x)
      && g < |w.tape| && w.tape[g] == Admitted(r, call.id, true) && StatusOf(w.tape[..g], call.id) == Some(Approved)
  {
    hide After, BoundTo;
    var w := After(ctx, schedule);
    EveryScheduleKeepsBindings(ctx, schedule);
    assert Traced(ctx, w, r, w.runs[r]);
    hide Bindings;
    x :| BoundTo(ctx, w, w.runs[r].call, x);
    g :| 0 <= g < |w.tape| && w.tape[g] == Admitted(r, w.runs[r].call.id, true);
    hide Traced;
    EveryScheduleIsLawful(ctx, schedule);
    LegalAt(w, g);
  }

  lemma LegalAt(w: World, g: nat)
    requires Inv(w) && g < |w.tape|
    ensures Legal(w.tape[..g], w.tape[g])
  {
    hide SlotsAgree, StatusesAgree, RunsAgree;
    At(w.tape, g);
  }

  /** In every schedule the stored intents show nothing under a sensitive key, however
      deep in the arguments. */
  lemma NothingSensitiveStored(ctx: Context, schedule: seq<Step>, id: Id)
    requires id in After(ctx, schedule).actions
    ensures Redaction.Covered(ctx.sensitive, After(ctx, schedule).actions[id].arguments)
  {
    EveryScheduleKeepsBindings(ctx, schedule);
    hide After, RecordedIntent;
    StoredIntent(ctx.sensitive, After(ctx, schedule).first[id]);
  }
}

/** What a stored authorization binds: in every schedule a live authorization
    tells exactly the state its holder was granted it on. */
module ProtocolGrants {
  import opened Wrappers
  import opened Text
  import Hashing
  import opened Provider
  import Dependencies
  import opened Store
  import Approval
  import opened History
  import opened Protocol
  import opened ProtocolClaims

  /** The authorization tells the state its holder was granted it on. */
  predicate Granted(ctx: Context, a: Authorization, run: Run) {
    && a.fingerprint == Hashing.Fingerprint(ctx.engine.hash, ExpectedState(run))
    && a.expectedState == if Conditional(run) then Some(ExpectedState(run)) else None
  }

  ghost predicate Binding(ctx: Context, w: World, id: Id) {
    Live(w.authorizations, id) ==>
      var a := w.authorizations[id];
      a.holder in w.runs && w.runs[a.holder].call.id == id && Granted(ctx, a, w.runs[a.holder])
  }

  ghost predicate AllBinding(ctx: Context, w: World) {
    forall id :: Binding(ctx, w, id)
  }

  /** The holder of a live authorization no longer changes what it fetched. */
  lemma HolderKeepsFetches(ctx: Context, w: World, r: RunId, answered: bool)
    requires Inv(w) && r in w.runs && Live(w.authorizations, w.runs[r].call.id)
    requires w.authorizations[w.runs[r].call.id].holder == r
    ensures Plan(ctx, w, r, answered).0.fetches == w.runs[r].fetches
    ensures Plan(ctx, w, r, answered).0.call == w.runs[r].call
    ensures !Plan(ctx, w, r, answered).1.ClaimSlot?
  {
    var run := w.runs[r];
    Locally(w, r, run.call.id);
    HolderExactly(w.tape, r, run.call.id);
    assert Owns(PhaseOf(w.tape, r), run.call.id);
    hide Inv, PhaseOf, SlotOf;
    OwnerPlan(ctx, w, r, answered, PhaseOf(w.tape, r));
  }

  lemma OwnerPlan(ctx: Context, w: World, r: RunId, answered: bool, p: Phase)
    requires r in w.runs && Fits(w.runs[r], p) && Owns(p, w.runs[r].call.id)
    ensures var (run, write) := Plan(ctx, w, r, answered);
      run.fetches == w.runs[r].fetches && run.call == w.runs[r].call && !write.ClaimSlot?
  {
    hide GetConditional, GetState, Supports, Dependencies.RouteTo, PolicyOf, RecheckBlocks, Dependencies.EntriesOf,
      Dependencies.SnapshotsOf;
    hide PlanSettling, PlanClaim;
  }

  // ---- One step of a call ----------------------------------------------------------------------

  /** What a step does to the authorizations. */
  function Authorized(w: World, id: Id, write: Write): map<Id, Authorization> {
    match write
    case ClaimSlot(a) => Claim(w.authorizations, id, a).0
    case Consume => Store.Consume(w.authorizations, id)
    case _ => w.authorizations
  }

  lemma PerformAuthorizes(ctx: Context, w: World, r: RunId, run: Run, write: Write)
    ensures Perform(ctx, w, r, run, write).authorizations == Authorized(w, run.call.id, write)
    ensures Perform(ctx, w, r, run, write).runs == w.runs[r := run]
  {
    hide RiskOf, Approval.RecordedIntent, Approval.RecordOf;
  }

  lemma ClaimGrants(ctx: Context, w: World, r: RunId, answered: bool)
    requires r in w.runs
    ensures var (run, write) := Plan(ctx, w, r, answered);
      write.ClaimSlot? ==>
        run.call == w.runs[r].call && write.authorization.holder == r && Granted(ctx, write.authorization, run)
  {
    hide PolicyOf, Dependencies.EntriesOf, Dependencies.SnapshotsOf, Hashing.Fingerprint, DeadlineOf, CurrentDecision,
      InitialDecision, RecheckBlocks,
      PlanFetch;
  }

  lemma AdvanceBinding(ctx: Context, w: World, r: RunId, answered: bool)
    requires Inv(w) && AllBinding(ctx, w) && r in w.runs
    ensures var (run, write) := Plan(ctx, w, r, answered); AllBinding(ctx, Perform(ctx, w, r, run, write))
  {
    hide Plan, Perform, Granted, Inv;
    var (run, write) := Plan(ctx, w, r, answered);
    var w' := Perform(ctx, w, r, run, write);
    PerformAuthorizes(ctx, w, r, run, write);
    ClaimGrants(ctx, w, r, answered);
    CallKept(ctx, w, r, answered);
    forall id ensures Binding(ctx, w', id) {
      assert Binding(ctx, w, id);
      if Live(w.authorizations, id) && w.authorizations[id].holder == r {
        HolderKeepsFetches(ctx, w, r, answered);
        SameGrant(ctx, w.authorizations[id], w.runs[r], run);
      }
    }
  }

  lemma CallKept(ctx: Context, w: World, r: RunId, answered: bool)
    requires Inv(w) && r in w.runs
    ensures Plan(ctx, w, r, answered).0.call == w.runs[r].call
  {
    Locally(w, r, w.runs[r].call.id);
    hide Inv, Plan, PhaseOf, Fits;
    PlanFits(ctx, w, r, answered, PhaseOf(w.tape, r));
  }

  lemma SameGrant(ctx: Context, a: Authorization, run: Run, run': Run)
    requires Granted(ctx, a, run) && run'.fetches == run.fetches && run'.call == run.call
    ensures Granted(ctx, a, run')
  {
    hide Dependencies.EntriesOf, Dependencies.SnapshotsOf, Hashing.Fingerprint;
  }

  // ---- Every schedule ---------------------------------------------------------------------------

  /** A step that leaves the authorizations and every call's findings alone. */
  lemma BesideBinding(ctx: Context, w: World, w': World)
    requires AllBinding(ctx, w) && w'.authorizations == w.authorizations
    requires forall r :: r in w.runs ==>
      r in w'.runs && w'.runs[r].call == w.runs[r].call && w'.runs[r].fetches == w.runs[r].fetches
    ensures AllBinding(ctx, w')
  {
    hide Granted;
    forall id ensures Binding(ctx, w', id) {
      assert Binding(ctx, w, id);
      if Live(w.authorizations, id) {
        var r := w.authorizations[id].holder;
        SameGrant(ctx, w.authorizations[id], w.runs[r], w'.runs[r]);
      }
    }
  }

  lemma ActBinding(ctx: Context, w: World, r: RunId)
    requires AllBinding(ctx, w) && r in w.runs
    ensures AllBinding(ctx, ExecutorActs(w, r))
  {
    var key, s := ActIs(w, r);
    hide ExecutorActs, AllBinding, SwapIn;
    if ExecutorActs(w, r) == WithTask(w, r, Refused) {
      BesideBinding(ctx, w, WithTask(w, r, Refused));
    } else {
      SwapBinding(ctx, w, r, key, s);
    }
  }

  lemma SwapBinding(ctx: Context, w: World, r: RunId, key: Text, s: State)
    requires AllBinding(ctx, w) && r in w.runs && key in s.resources && key in w.provider.resources
    ensures AllBinding(ctx, SwapIn(w, r, key, s))
  {
    hide AllBinding, Recorded;
    BesideBinding(ctx, w, SwapIn(w, r, key, s));
  }

  lemma TimeoutBinding(ctx: Context, w: World, r: RunId)
    requires AllBinding(ctx, w) && r in w.runs
    ensures AllBinding(ctx, w.(runs := w.runs[r := TimedOut(w.runs[r])]))
  {
    hide AllBinding, Conditional;
    BesideBinding(ctx, w, w.(runs := w.runs[r := TimedOut(w.runs[r])]));
  }

  lemma TaskBinding(ctx: Context, w: World, r: RunId, task: Task)
    requires AllBinding(ctx, w) && r in w.runs
    ensures AllBinding(ctx, WithTask(w, r, task))
  {
    hide AllBinding;
    BesideBinding(ctx, w, WithTask(w, r, task));
  }

  lemma BeginBinding(ctx: Context, w: World, r: RunId, call: Call)
    requires AllBinding(ctx, w) && r !in w.runs
    ensures AllBinding(ctx, BeginRun(w, r, call))
  {
    hide AllBinding;
    BesideBinding(ctx, w, BeginRun(w, r, call));
  }

  lemma BindingNext(ctx: Context, w: World, step: Step)
    requires Inv(w) && AllBinding(ctx, w) && Enabled(w, step)
    ensures AllBinding(ctx, Next(ctx, w, step))
  {
    hide Inv, AllBinding, Plan, Perform, ExecutorActs, BeginRun, WithTask, TimedOut, Recorded, Put, Provider.Advance;
    match step
    case Begin(r, call) => BeginBinding(ctx, w, r, call);
    case Advance(r, answered) => AdvanceBinding(ctx, w, r, answered);
    case Act(r) => ActBinding(ctx, w, r);
    case Decline(r) => TaskBinding(ctx, w, r, Declined);
    case Crash(r) => TaskBinding(ctx, w, r, Crashed(w.runs[r].task == Applied));
    case Timeout(r) => TimeoutBinding(ctx, w, r);
    case _ => BesideBinding(ctx, w, Next(ctx, w, step));
  }

  lemma {:induction false} EveryScheduleBinds(ctx: Context, schedule: seq<Step>)
    ensures AllBinding(ctx, After(ctx, schedule))
  {
    hide Enabled, Next;
    if schedule != [] {
      hide AllBinding;
      var w, step := After(ctx, schedule[..|schedule| - 1]), schedule[|schedule| - 1];
      EveryScheduleBinds(ctx, schedule[..|schedule| - 1]);
      EveryScheduleIsLawful(ctx, schedule[..|schedule| - 1]);
      if Enabled(w, step) { BindingNext(ctx, w, step); }
    }
  }
}

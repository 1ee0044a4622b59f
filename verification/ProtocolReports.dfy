/** When a report is given: each one is explained by what the executor did, and
    what the executor did is always reported. */
module ProtocolReports {
  import opened Wrappers
  import opened Text
  import opened Json
  import opened Domain
  import opened Provider
  import Dependencies
  import Store
  import opened History
  import opened Protocol
  import opened ProtocolClaims
  import ProtocolEffects

  /** The report a call has made or is about to make. */
  function Reported(run: Run): Option<Report> {
    match run.pc
    case Consuming(x) => Some(x)
    case Finished(x) => Some(x)
    case Evaluating(p) => if p == Redecision then Some(Failed) else None
    case Fetching(p, _) => if p == Redecision then Some(Failed) else None
    case Concluding(p) => if p == Redecision then Some(Failed) else None
    case _ => None
  }

  /** What must have happened to a call for its state and its report. */
  predicate Explained(schedule: seq<Step>, r: RunId, run: Run) {
    && (run.task.Crashed? ==> Crash(r) in schedule)
    && (run.task == Declined ==> Decline(r) in schedule)
    && (Reported(run) == Some(UnknownOutcome) ==> Timeout(r) in schedule || Crash(r) in schedule)
    && (Reported(run) == Some(Unavailable) ==> Decline(r) in schedule)
    && (Reported(run).Some? ==> (Reported(run) == Some(NotAttempted) <==> !Conditional(run)))
  }

  lemma ExplainedOn(schedule: seq<Step>, step: Step, r: RunId, run: Run)
    requires Explained(schedule, r, run)
    ensures Explained(schedule + [step], r, run)
  {
    hide Conditional;
  }

  // ---- One step ---------------------------------------------------------------------------

  /** A step of the call itself. */
  lemma PlanExplained(ctx: Context, w: World, r: RunId, answered: bool, schedule: seq<Step>)
    requires r in w.runs && Explained(schedule, r, w.runs[r])
    ensures Explained(schedule, r, Plan(ctx, w, r, answered).0)
  {
    hide Explained, PlanFetch, PlanConclusion, PlanSettling, PlanClaim, PlanGuards, CurrentDecision, Conditional;
    hide ReportOf;
    var run := w.runs[r];
    if run.pc.Fetching? {
      FetchExplained(ctx, w.provider, r, run, answered, schedule);
    } else if run.pc.Concluding? {
      ConclusionExplained(ctx, w, r, run, schedule);
    } else if run.pc == Settling {
      SettlingExplained(ctx, w, r, run, schedule);
    } else if run.pc == Claiming {
      ClaimExplained(ctx, w, r, run, schedule);
    } else if Progressing(run.pc) {
      ProgressExplained(ctx, w, r, answered, schedule);
    } else {
      GuardsExplained(ctx, w, r, run, schedule);
    }
  }

  lemma FetchExplained(ctx: Context, s: State, r: RunId, run: Run, answered: bool, schedule: seq<Step>)
    requires run.pc.Fetching? && Explained(schedule, r, run)
    ensures Explained(schedule, r, PlanFetch(ctx, s, run, answered))
  {
    hide PolicyOf, Dependencies.RouteTo, Dependencies.EntriesOf, Dependencies.SnapshotsOf, GetState, GetConditional,
      Supports;
  }

  lemma ConclusionExplained(ctx: Context, w: World, r: RunId, run: Run, schedule: seq<Step>)
    requires run.pc.Concluding? && Explained(schedule, r, run)
    ensures Explained(schedule, r, PlanConclusion(ctx, w, run).0)
  {
    hide InitialDecision, CurrentVerdicts, DecideOn, Recomputed, RecheckBlocks;
    hide Dependencies.EntriesOf, Dependencies.SnapshotsOf;
  }

  lemma SettlingExplained(ctx: Context, w: World, r: RunId, run: Run, schedule: seq<Step>)
    requires run.pc == Settling && Explained(schedule, r, run)
    ensures Explained(schedule, r, PlanSettling(ctx, w, run).0)
  {
    hide CurrentDecision, PolicyOf, Conditional, GateOutcome;
  }

  lemma ClaimExplained(ctx: Context, w: World, r: RunId, run: Run, schedule: seq<Step>)
    requires run.pc == Claiming && Explained(schedule, r, run)
    ensures Explained(schedule, r, PlanClaim(ctx, w, r, run).0)
  {
    hide PolicyOf, Conditional, ExpectedState, DeadlineOf;
  }

  lemma GuardsExplained(ctx: Context, w: World, r: RunId, run: Run, schedule: seq<Step>)
    requires Explained(schedule, r, run)
    ensures Explained(schedule, r, PlanGuards(ctx, w, run).0)
  {
    hide PolicyOf, InitialDecision, Conditional, PolicyMissing;
  }

  lemma ProgressExplained(ctx: Context, w: World, r: RunId, answered: bool, schedule: seq<Step>)
    requires r in w.runs && Progressing(w.runs[r].pc) && Explained(schedule, r, w.runs[r])
    ensures Explained(schedule, r, Plan(ctx, w, r, answered).0)
  {
    hide Dependencies.EntriesOf, Dependencies.SnapshotsOf, CurrentDecision, PlanFetch, PlanConclusion, PlanSettling,
      PlanClaim, PlanGuards;
  }

  lemma AdvanceExplained(ctx: Context, w: World, q: RunId, answered: bool, schedule: seq<Step>, r: RunId)
    requires q in w.runs && r in w.runs && Explained(schedule, r, w.runs[r])
    ensures var (run, write) := Plan(ctx, w, q, answered); var w' := Perform(ctx, w, q, run, write);
      r in w'.runs && Explained(schedule, r, w'.runs[r])
  {
    hide Plan, Perform, Explained;
    var (run, write) := Plan(ctx, w, q, answered);
    ProtocolEffects.PerformFrame(ctx, w, q, run, write);
    if q == r { PlanExplained(ctx, w, r, answered, schedule); }
  }

  lemma TaskExplained(schedule: seq<Step>, step: Step, r: RunId, run: Run, task: Task)
    requires Explained(schedule, r, run)
    requires task.Crashed? ==> step == Crash(r)
    requires task == Declined ==> step == Decline(r)
    ensures Explained(schedule + [step], r, run.(task := task))
  {
    hide Dependencies.EntriesOf, Dependencies.SnapshotsOf;
  }

  lemma WithTaskExplained(
    runs: map<RunId, Run>, q: RunId, task: Task, schedule: seq<Step>, step: Step, r: RunId)
    requires q in runs && r in runs && Explained(schedule, r, runs[r])
    requires task.Crashed? ==> step == Crash(q)
    requires task == Declined ==> step == Decline(q)
    ensures Explained(schedule + [step], r, runs[q := runs[q].(task := task)][r])
  {
    hide Explained;
    if q == r {
      TaskExplained(schedule, step, r, runs[r], task);
    } else {
      ExplainedOn(schedule, step, r, runs[r]);
    }
  }

  lemma ActExplained(w: World, q: RunId, schedule: seq<Step>, r: RunId)
    requires q in w.runs && r in w.runs && Explained(schedule, r, w.runs[r])
    ensures r in ExecutorActs(w, q).runs && Explained(schedule + [Act(q)], r, ExecutorActs(w, q).runs[r])
  {
    var key, s := ActIs(w, q);
    hide Explained, ExecutorActs, Recorded;
    if ExecutorActs(w, q) == WithTask(w, q, Refused) {
      WithTaskExplained(w.runs, q, Refused, schedule, Act(q), r);
    } else {
      WithTaskExplained(w.runs, q, Applied, schedule, Act(q), r);
      assert SwapIn(w, q, key, s).runs == WithTask(w, q, Applied).runs;
    }
  }

  lemma TimeoutExplained(w: World, q: RunId, schedule: seq<Step>, r: RunId)
    requires q in w.runs && r in w.runs && Explained(schedule, r, w.runs[r])
    ensures Explained(schedule + [Timeout(q)], r, w.runs[q := TimedOut(w.runs[q])][r])
  {
    ExplainedOn(schedule, Timeout(q), r, w.runs[r]);
    hide Dependencies.EntriesOf, Dependencies.SnapshotsOf;
  }

  lemma BeginExplained(w: World, q: RunId, call: Call, schedule: seq<Step>, r: RunId)
    requires q !in w.runs && (r in w.runs ==> Explained(schedule, r, w.runs[r]))
    requires r in BeginRun(w, q, call).runs
    ensures Explained(schedule + [Begin(q, call)], r, BeginRun(w, q, call).runs[r])
  {
    if r in w.runs { ExplainedOn(schedule, Begin(q, call), r, w.runs[r]); }
    hide Conditional;
  }

  /** The steps that are not of any call. */
  lemma OutsideRuns(ctx: Context, w: World, step: Step)
    requires Enabled(w, step)
    requires step.Tick? || step.ExternalMutate? || step.ExternalPut? || step.ReadPending? || step.WriteResolution?
    ensures Next(ctx, w, step).runs == w.runs
  {
    hide Recorded, Put, Provider.Advance;
  }

  lemma ExplainedNext(ctx: Context, w: World, step: Step, schedule: seq<Step>, r: RunId)
    requires Enabled(w, step) && r in Next(ctx, w, step).runs
    requires r in w.runs ==> Explained(schedule, r, w.runs[r])
    ensures Explained(schedule + [step], r, Next(ctx, w, step).runs[r])
  {
    hide Explained, Plan, Perform, ExecutorActs, BeginRun, TimedOut, Resolution, Recorded, Put, Provider.Advance;
    match step
    case Begin(q, call) => BeginExplained(w, q, call, schedule, r);
    case Advance(q, answered) =>
      var (run, write) := Plan(ctx, w, q, answered);
      ProtocolEffects.PerformFrame(ctx, w, q, run, write);
      AdvanceExplained(ctx, w, q, answered, schedule, r);
      ExplainedOn(schedule, step, r, Next(ctx, w, step).runs[r]);
    case Act(q) =>
      ActRuns(w, q);
      ActExplained(w, q, schedule, r);
    case Decline(q) => WithTaskExplained(w.runs, q, Declined, schedule, step, r);
    case Crash(q) => WithTaskExplained(w.runs, q, Crashed(w.runs[q].task == Applied), schedule, step, r);
    case Timeout(q) => TimeoutExplained(w, q, schedule, r);
    case _ =>
      OutsideRuns(ctx, w, step);
      ExplainedOn(schedule, step, r, w.runs[r]);
  }

  lemma ActRuns(w: World, q: RunId)
    requires q in w.runs
    ensures ExecutorActs(w, q).runs.Keys == w.runs.Keys
  {
    var key, s := ActIs(w, q);
    hide ExecutorActs, Recorded;
  }

  // ---- Every schedule -----------------------------------------------------------------------

  lemma {:induction false} EveryReportIsExplained(ctx: Context, schedule: seq<Step>, r: RunId)
    requires r in After(ctx, schedule).runs
    ensures Explained(schedule, r, After(ctx, schedule).runs[r])
  {
    hide Enabled, Next, Explained;
    if schedule != [] {
      var before, step := schedule[..|schedule| - 1], schedule[|schedule| - 1];
      var w := After(ctx, before);
      assert schedule == before + [step];
      if r in w.runs { EveryReportIsExplained(ctx, before, r); }
      if Enabled(w, step) {
        ExplainedNext(ctx, w, step, before, r);
      } else {
        ExplainedOn(before, step, r, w.runs[r]);
      }
    }
  }

  /** The call runs on a condition: its executor offers one, and something was fetched
      to hold it to. */
  ghost predicate OnCondition(run: Run) {
    run.call.executor.conditional && exists k :: 0 <= k < |run.fetches| && run.fetches[k].Fetched?
  }

  lemma {:induction false} SomethingFetched(fetches: seq<Fetch>)
    ensures Dependencies.SnapshotsOf(fetches) != [] <==>
      exists k :: 0 <= k < |fetches| && fetches[k].Fetched?
  {
    if fetches != [] {
      var n := |fetches| - 1;
      SomethingFetched(fetches[..n]);
      if k :| 0 <= k < |fetches| && fetches[k].Fetched? && k < n { assert fetches[..n][k] == fetches[k]; }
      if k :| 0 <= k < n && fetches[..n][k].Fetched? { assert fetches[k] == fetches[..n][k]; }
    }
  }

  lemma ConditionalExactly(run: Run)
    ensures Conditional(run) <==> OnCondition(run)
  {
    SomethingFetched(run.fetches);
    assert |ExpectedState(run)| == |Dependencies.SnapshotsOf(run.fetches)|;
    hide Dependencies.SnapshotsOf, Dependencies.EntriesOf;
  }

  predicate Undisturbed(schedule: seq<Step>, r: RunId) {
    Timeout(r) !in schedule && Crash(r) !in schedule && Decline(r) !in schedule
  }

  /** No report without its cause: an unknown outcome is reported only after the
      deadline passed or the executor crashed, and an unavailable condition only
      after the executor declined. So a conditional call that none of these befell
      reports satisfied exactly when the provider applied its mutation and failed
      exactly when it did not. */
  lemma ReportsAreEarned(ctx: Context, schedule: seq<Step>, r: RunId)
    requires var w := After(ctx, schedule); r in w.runs && (w.runs[r].pc.Consuming? || w.runs[r].pc.Finished?)
    ensures var w := After(ctx, schedule); var run := w.runs[r]; var x := run.pc.report;
      && (x == UnknownOutcome ==> Timeout(r) in schedule || Crash(r) in schedule)
      && (x == Unavailable ==> Decline(r) in schedule)
      && (x == NotAttempted <==> !OnCondition(run))
      && (OnCondition(run) && Undisturbed(schedule, r) ==>
        && (x == Satisfied <==> SwapsBy(w.tape, r) == 1)
        && (x == Failed <==> SwapsBy(w.tape, r) == 0))
  {
    hide After;
    EveryReportIsExplained(ctx, schedule, r);
    EveryScheduleIsLawful(ctx, schedule);
    ConditionalExactly(After(ctx, schedule).runs[r]);
    hide OnCondition, PhaseOf, SwapsBy, Lawful, Dependencies.EntriesOf, Dependencies.SnapshotsOf;
    var w := After(ctx, schedule);
    assert RunAgrees(w.runs, w.tape, r);
  }

  /** How an executor's answer reads in the report. */
  predicate Answers(task: Task, x: Report) {
    match x
    case Satisfied => task == Applied
    case Failed => task == Refused
    case Unavailable => task == Declined
    case UnknownOutcome => task.Crashed?
    case NotAttempted => false
  }

  /** No answer is dropped: a call in flight is reported at its very next step, as
      not attempted without a condition and else as its executor answered; while the
      executor has not answered it stays in flight. */
  lemma AnswersAreReported(ctx: Context, schedule: seq<Step>, r: RunId, answered: bool)
    requires var w := After(ctx, schedule); r in w.runs && w.runs[r].pc == InFlight
    ensures var run := After(ctx, schedule).runs[r]; var w' := After(ctx, schedule + [Advance(r, answered)]);
      && r in w'.runs
      && (!OnCondition(run) ==> w'.runs[r].pc == Consuming(NotAttempted))
      && (OnCondition(run) && run.task == Waiting ==> w'.runs[r].pc == InFlight)
      && (OnCondition(run) && run.task != Waiting ==>
        w'.runs[r].pc.Consuming? && Answers(run.task, w'.runs[r].pc.report))
  {
    var w := After(ctx, schedule);
    EveryScheduleIsLawful(ctx, schedule);
    StepAfter(ctx, schedule, Advance(r, answered));
    ConditionalExactly(w.runs[r]);
    hide After, Inv, Plan, Perform, Conditional, OnCondition, ReportOf, Answers;
    ReportTells(w, r);
    InFlightPlan(ctx, w, r, answered);
    var (run, write) := Plan(ctx, w, r, answered);
    ProtocolEffects.PerformFrame(ctx, w, r, run, write);
  }

  lemma ReportTells(w: World, r: RunId)
    requires Inv(w) && r in w.runs && w.runs[r].pc == InFlight
    ensures var run := w.runs[r]; var report := ReportOf(run);
      && (!Conditional(run) ==> report == Some(NotAttempted))
      && (Conditional(run) && run.task == Waiting ==> report == None)
      && (Conditional(run) && run.task != Waiting ==> report.Some? && Answers(run.task, report.value))
  {
    hide PhaseOf, SwapsBy, Lawful, Dependencies.EntriesOf, Dependencies.SnapshotsOf;
    assert RunAgrees(w.runs, w.tape, r);
  }

  lemma InFlightPlan(ctx: Context, w: World, r: RunId, answered: bool)
    requires r in w.runs && w.runs[r].pc == InFlight
    ensures var run := w.runs[r]; var report := ReportOf(run);
      Plan(ctx, w, r, answered) ==
        (if report.Some? then run.(pc := Consuming(report.value)) else run, Nothing)
  {
    hide PlanFetch, PlanConclusion, PlanSettling, PlanClaim, PlanGuards, CurrentDecision, ReportOf, Conditional;
  }

  /** What interrupts a call in flight is reported as what it is: the deadline at once,
      a crash, whatever the provider applied before it, and a refusal to try at the next
      step. */
  lemma InterruptionsAreReported(ctx: Context, schedule: seq<Step>, r: RunId, answered: bool)
    requires var w := After(ctx, schedule); r in w.runs && w.runs[r].pc == InFlight && OnCondition(w.runs[r])
    ensures var w := After(ctx, schedule); var task, tape := w.runs[r].task, w.tape;
      && Reports(After(ctx, schedule + [Timeout(r)]), r, UnknownOutcome, tape)
      && (task == Waiting || task == Applied ==>
        Reports(After(ctx, schedule + [Crash(r)] + [Advance(r, answered)]), r, UnknownOutcome, tape))
      && (task == Waiting ==>
        Reports(After(ctx, schedule + [Decline(r)] + [Advance(r, answered)]), r, Unavailable, tape))
  {
    hide After, Reports, OnCondition, Conditional;
    var w := After(ctx, schedule);
    ConditionalExactly(w.runs[r]);
    DeadlineReports(ctx, schedule, r);
    if w.runs[r].task == Waiting || w.runs[r].task == Applied { CrashReports(ctx, schedule, r, answered); }
    if w.runs[r].task == Waiting { RefusalReports(ctx, schedule, r, answered); }
  }

  lemma DeadlineReports(ctx: Context, schedule: seq<Step>, r: RunId)
    requires var w := After(ctx, schedule); r in w.runs && w.runs[r].pc == InFlight && Conditional(w.runs[r])
    ensures Reports(After(ctx, schedule + [Timeout(r)]), r, UnknownOutcome, After(ctx, schedule).tape)
  {
    StepAfter(ctx, schedule, Timeout(r));
    hide After, Conditional;
  }

  lemma CrashReports(ctx: Context, schedule: seq<Step>, r: RunId, answered: bool)
    requires var w := After(ctx, schedule); r in w.runs && w.runs[r].pc == InFlight && Conditional(w.runs[r])
    requires After(ctx, schedule).runs[r].task in {Waiting, Applied}
    ensures Reports(After(ctx, schedule + [Crash(r)] + [Advance(r, answered)]), r, UnknownOutcome,
      After(ctx, schedule).tape)
  {
    StepAfter(ctx, schedule, Crash(r));
    hide After, Conditional;
    var run := After(ctx, schedule).runs[r];
    NextReports(ctx, schedule + [Crash(r)], r, answered, Crashed(run.task == Applied), run);
  }

  lemma RefusalReports(ctx: Context, schedule: seq<Step>, r: RunId, answered: bool)
    requires var w := After(ctx, schedule); r in w.runs && w.runs[r].pc == InFlight && Conditional(w.runs[r])
    requires After(ctx, schedule).runs[r].task == Waiting
    ensures Reports(After(ctx, schedule + [Decline(r)] + [Advance(r, answered)]), r, Unavailable,
      After(ctx, schedule).tape)
  {
    StepAfter(ctx, schedule, Decline(r));
    hide After, Conditional;
    NextReports(ctx, schedule + [Decline(r)], r, answered, Declined, After(ctx, schedule).runs[r]);
  }

  /** The call is about to report `x`, with nothing more on the tape. */
  predicate Reports(w: World, r: RunId, x: Report, tape: seq<Event>) {
    r in w.runs && w.runs[r].pc == Consuming(x) && w.tape == tape
  }

  lemma NextReports(ctx: Context, schedule: seq<Step>, r: RunId, answered: bool, task: Task, run: Run)
    requires var w := After(ctx, schedule);
      r in w.runs && w.runs[r] == run.(task := task) && run.pc == InFlight && Conditional(run)
    requires task.Crashed? || task == Declined
    ensures Reports(After(ctx, schedule + [Advance(r, answered)]), r, if task == Declined then Unavailable
      else UnknownOutcome, After(ctx, schedule).tape)
  {
    StepAfter(ctx, schedule, Advance(r, answered));
    hide After, Dependencies.SnapshotsOf, Dependencies.EntriesOf;
    InFlightPlan(ctx, After(ctx, schedule), r, answered);
    hide Plan;
  }
}

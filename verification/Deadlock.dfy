// What becomes of a run whose plan holds two units that wait for each other.

module Deadlock {
  import opened Basics
  import opened Graphs
  import opened Sorting
  import opened Plans
  import opened Planner
  import opened Canonical
  import opened RunState
  import opened Decision
  import opened SkipFixpoint
  import opened Dispatch
  import opened Semantics
  import opened Preservation
  import opened History
  import opened Invariants
  import opened Lifecycle
  import opened Guarantees
  import opened Progress
  import opened Replay
  import opened Engine

  // Unit a depends on b, and b, which depends on nothing, has a condition on the status of a.
  ghost predicate Circle(plan: Plan, a: UnitId, b: UnitId) {
    && a != b && a in PlanIds(plan) && b in PlanIds(plan)
    && b in UnitWithId(plan, a).dependencies
    && UnitWithId(plan, b).dependencies == []
    && |UnitWithId(plan, b).declaration.conditions| > 0
    && UnitWithId(plan, b).declaration.conditions[0].UpstreamStatus?
    && UnitWithId(plan, b).declaration.conditions[0].unitId == a
  }

  predicate Idle(run: Run, id: UnitId) {
    FindUnit(run.units, id).Some? && UnitOf(run, id).status == Pending && UnitOf(run, id).attempts == []
    && UnitOf(run, id).nextRetryAt.None?
  }

  ghost predicate BothWait(run: Run, a: UnitId, b: UnitId) {
    Aligned(run) && Circle(run.plan, a, b) && Idle(run, a) && Idle(run, b)
  }

  lemma BothDecideToWait(run: Run, a: UnitId, b: UnitId)
    requires BothWait(run, a, b)
    ensures Decide(run, UnitWithId(run.plan, a)).Waiting? && Decide(run, UnitWithId(run.plan, b)).Waiting?
  {
    hide UnitWithId, PlanIds, UnitIds;
    var pa, pb := UnitWithId(run.plan, a), UnitWithId(run.plan, b);
    assert b in pa.dependencies && !Evaluable(pa, UnitOf(run, b));
    assert EvaluateCondition(run, pb.declaration.conditions[0]).Waiting?;
  }

  lemma ReplaceKeepsWaiting(x: Run, y: Run, next: UnitState, a: UnitId, b: UnitId)
    requires BothWait(x, a, b) && Replaced(x, y, next) && next.unitId != a && next.unitId != b
    ensures BothWait(y, a, b)
  {
    hide FindUnit, ReplaceIn, Circle, Aligned;
    ReplacedSameBut(x, y, next);
  }

  lemma {:induction false} SkipsKeepWaiting(run: Run, skips: seq<SkipRecord>, a: UnitId, b: UnitId)
    requires BothWait(run, a, b) && LegalSkips(run, skips)
    ensures BothWait(ApplySkips(run, skips), a, b)
    decreases |skips|
  {
    hide FindUnit, Decide, UnitWithId, BothWait, ApplySkip;
    if skips != [] {
      BothDecideToWait(run, a, b);
      SkipReplaces(run, skips[0]);
      ReplaceKeepsWaiting(run, ApplySkip(run, skips[0]), SkippedUnit(FindUnit(run.units, skips[0].unitId).value, skips[0].reason), a, b);
      SkipsKeepWaiting(ApplySkip(run, skips[0]), skips[1..], a, b);
    }
  }

  lemma RecoveryKeepsWaiting(run: Run, a: UnitId, b: UnitId)
    requires BothWait(run, a, b)
    ensures BothWait(RecoverRun(run), a, b)
  {
    hide FindUnit, Circle, SummarizeProgress, ResolveOutputs, PlanIds;
    FindMapped(run.units, RecoverUnit, a);
    FindMapped(run.units, RecoverUnit, b);
    assert UnitIds(MapUnits(run.units, RecoverUnit)) == UnitIds(run.units);
  }

  lemma SameUnitsWait(x: Run, y: Run, a: UnitId, b: UnitId)
    requires BothWait(x, a, b) && y.plan == x.plan && y.units == x.units
    ensures BothWait(y, a, b)
  {
    hide FindUnit, Circle;
  }

  lemma UnitStepKeepsWaiting(w: World, s: Stored, step: Step, a: UnitId, b: UnitId)
    requires UnitsFit(s.run, Restarts(s.log)) && BothWait(s.run, a, b) && Enabled(s, step)
    requires step.MakeReady? || step.DispatchUnit? || step.Complete? || step.WakeUnit?
    ensures BothWait(RunAfter(w, s.run, step), a, b)
  {
    hide Decide, UnitWithId, Circle, UnitsFit, Restarts, RunAfter, Aligned, PlanIds, FindUnit;
    BothDecideToWait(s.run, a, b);
    var next := UnitStepReplaces(w, s, step);
    ReplaceKeepsWaiting(s.run, RunAfter(w, s.run, step), next, a, b);
  }

  lemma WaitingUnsettled(run: Run, a: UnitId, b: UnitId)
    requires BothWait(run, a, b)
    ensures !AllSettled(run)
  {
    hide Circle, Aligned;
    assert UnitOf(run, a) in run.units && !Settled(UnitOf(run, a));
  }

  lemma StepKeepsWaiting(w: World, s: Stored, step: Step, a: UnitId, b: UnitId)
    requires UnitsFit(s.run, Restarts(s.log)) && BothWait(s.run, a, b) && Enabled(s, step)
    requires !step.RequestCancel? && !step.FinishCancel?
    ensures BothWait(Apply(w, s, step).run, a, b)
  {
    hide BothWait, UnitsFit, Restarts, FindUnit, UnitWithId, Decide, LegalSkips, ApplySkips, RecoverRun, EventsAfter,
      AllSettled;
    match step
    case SkipUnits(skips) => SkipsKeepWaiting(s.run, skips, a, b);
    case Restart => RecoveryKeepsWaiting(s.run, a, b);
    case Finish => WaitingUnsettled(s.run, a, b);
    case Activate => SameUnitsWait(s.run, WithStatus(s.run, RunningRun), a, b);
    case RegisterPayload(_) =>
    case _ => UnitStepKeepsWaiting(w, s, step, a, b);
  }

  predicate Cancels(step: Step) {
    step.RequestCancel? || step.FinishCancel?
  }

  lemma {:induction false} PlayedWaits(w: World, x: Stored, steps: seq<Step>, y: Stored, a: UnitId, b: UnitId)
    requires UnitsFit(x.run, Restarts(x.log)) && BothWait(x.run, a, b) && Plays(w, x, steps, y)
    requires forall step :: step in steps ==> !Cancels(step)
    ensures BothWait(y.run, a, b)
    decreases |steps|
  {
    hide UnitsFit, BothWait, Enabled, Apply, Restarts;
    if steps != [] {
      assert steps[0] in steps;
      StepKeepsWaiting(w, x, steps[0], a, b);
      StepFits(w, x, steps[0]);
      PlayedWaits(w, Apply(w, x, steps[0]), steps[1..], y, a, b);
    }
  }

  lemma InitialWaits(plan: Plan, runId: RunId, inputs: seq<NamedValue>, a: UnitId, b: UnitId)
    requires Sensible(plan) && Circle(EnsureTrigger(plan), a, b)
    ensures BothWait(InitialRun(plan, runId, inputs), a, b)
  {
    hide Circle, UnitWithId, SummarizeProgress, ResolveOutputs, FindUnit;
    var run := InitialRun(plan, runId, inputs);
    assert PlanIds(run.plan) == PlanIds(plan);
    assert UnitIds(run.units) == PlanIds(run.plan);
    assert Circle(run.plan, a, b);
    CircleIds(run.plan, a, b);
    FindPlanned(run, a);
    FindPlanned(run, b);
    assert forall u :: u in run.units ==> u.status == Pending && u.attempts == [] && u.nextRetryAt.None?;
  }

  lemma CircleIds(plan: Plan, a: UnitId, b: UnitId)
    requires Circle(plan, a, b)
    ensures a in PlanIds(plan) && b in PlanIds(plan)
  {
  }

  lemma DeadlockedSources()
    ensures "a" in Elements(Ids(DEADLOCKED)) && "b\0c" in Elements(Ids(DEADLOCKED))
    ensures "b\0c" in Sources(DEADLOCKED.dependencies, "a") && Sources(DEADLOCKED.dependencies, "b\0c") == {}
    ensures forall u :: u in DEADLOCKED.units && u.unitId == "b\0c" ==> u.conditions == [UpstreamStatus("a", Succeeded)]
  {
    DeadlockedKeys();
    assert Ids(DEADLOCKED)[0] == "a" && Ids(DEADLOCKED)[2] == "b\0c";
    assert DEADLOCKED.dependencies[1] == Edge("b\0c", "a") && DEADLOCKED.dependencies[1] in DEADLOCKED.dependencies;
  }

  lemma NoElements(s: seq<UnitId>)
    ensures Elements(s) == {} ==> s == []
  {
    if s != [] {
      assert s[0] in Elements(s);
    }
  }

  // The plan of the deadlocked definition has such a circle.
  lemma DeadlockedCircles(plan: Plan)
    requires PlanOf(DEADLOCKED, plan)
    ensures Sensible(plan) && Circle(EnsureTrigger(plan), "a", "b\0c")
  {
    hide PlanOf, Sources, UnitWithId, PlanIds, EnsureTrigger, Sensible;
    SameDeclarations(DEADLOCKED, plan);
    DeadlockedSources();
    DeadlockedUnit(plan, "a");
    DeadlockedUnit(plan, "b\0c");
    SameUnits(plan, "a");
    SameUnits(plan, "b\0c");
    NoElements(UnitWithId(plan, "b\0c").dependencies);
    assert "b\0c" in Elements(UnitWithId(plan, "a").dependencies);
  }

  lemma SameUnits(plan: Plan, id: UnitId)
    requires id in PlanIds(plan)
    ensures id in PlanIds(EnsureTrigger(plan)) && UnitWithId(EnsureTrigger(plan), id) == UnitWithId(plan, id)
  {
    assert PlanIds(EnsureTrigger(plan)) == PlanIds(plan);
  }

  lemma DeadlockedUnit(plan: Plan, id: UnitId)
    requires PlanOf(DEADLOCKED, plan) && id in Elements(Ids(DEADLOCKED)) && Elements(PlanIds(plan)) == Elements(Ids(DEADLOCKED))
    requires forall u :: u in plan.units ==> u.declaration in DEADLOCKED.units
    ensures id in PlanIds(plan)
    ensures Elements(UnitWithId(plan, id).dependencies) == Sources(DEADLOCKED.dependencies, id)
    ensures UnitWithId(plan, id).declaration in DEADLOCKED.units && UnitWithId(plan, id).declaration.unitId == id
  {
    hide StrictlySorted, Sources;
    assert id in Elements(PlanIds(plan));
    var u := UnitWithId(plan, id);
    var i :| 0 <= i < |plan.units| && plan.units[i] == u;
    assert DependsOnSources(DEADLOCKED, plan.units[i]);
  }

  // Every unit but these two is settled.
  ghost predicate OthersSettled(run: Run, a: UnitId, b: UnitId) {
    forall u :: u in run.units && u.unitId != a && u.unitId != b ==> Settled(u)
  }

  lemma WaitingIsStuck(run: Run, a: UnitId, b: UnitId)
    requires BothWait(run, a, b) && OthersSettled(run, a, b)
    ensures Stuck(run)
  {
    hide Circle, UnitWithId, Decide, FindUnit, PlanIds, UnitIds;
    BothDecideToWait(run, a, b);
    WaitingUnsettled(run, a, b);
    forall u | u in run.units
      ensures u.nextRetryAt.None? && (u.unitId != a && u.unitId != b ==> u.status != Pending)
    {
      FindMember(run, u);
    }
    forall id | IsPending(run, id)
      ensures id == a || id == b
    {
      assert FindUnit(run.units, id).value in run.units;
    }
  }

  // A run of the deadlocked definition, which the planner accepts, never ends unless it is canceled:
  // whatever the executor answers and however often the engine restarts, the two units stay pending
  // and undispatched, and once the others are settled the run is stuck.
  lemma DeadlockedNeverFinishes(plan: Plan, w: World, runId: RunId, inputs: seq<NamedValue>, steps: seq<Step>, s: Stored)
    requires PlanOf(DEADLOCKED, plan) && Plays(w, Created(plan, runId, inputs), steps, s)
    requires forall step :: step in steps ==> !Cancels(step)
    ensures !IsTerminalRun(s.run) && Idle(s.run, "a") && Idle(s.run, "b\0c")
    ensures OthersSettled(s.run, "a", "b\0c") ==> Stuck(s.run)
  {
    hide Plays, PlanOf, UnitsFit, InitialRun, Restarts, Circle, Stuck, OthersSettled, FindUnit, Coherent, Aligned;
    DeadlockedCircles(plan);
    InitialFits(plan, runId, inputs);
    NoRestarts([RunCreated]);
    InitialWaits(plan, runId, inputs, "a", "b\0c");
    PlayedWaits(w, Created(plan, runId, inputs), steps, s, "a", "b\0c");
    PlayedFits(w, Created(plan, runId, inputs), steps, s);
    InitialHasId(plan, runId, inputs);
    PlayedNeverCanceled(w, Created(plan, runId, inputs), steps, s);
    PendingNotTerminal(s.run, UnitOf(s.run, "a"));
    if OthersSettled(s.run, "a", "b\0c") {
      WaitingIsStuck(s.run, "a", "b\0c");
    }
  }

  lemma StepNeverCancels(w: World, s: Stored, step: Step)
    requires Enabled(s, step) && !Cancels(step) && s.run.status != CanceledRun
    ensures Apply(w, s, step).run.status != CanceledRun
  {
    hide LegalSkips, ApplySkips, FindUnit, UnitWithId, Decide, EventsAfter, ReplaceUnit, CompletedRun, FinalizeRun,
      CompletedUnit, AllSettled;
    match step
    case SkipUnits(skips) => SkipsKeepStatus(s.run, skips);
    case MakeReady(id) => ReplaceKeepsStatus(s.run, ReadyUnit(UnitOf(s.run, id)));
    case DispatchUnit(id) => ReplaceKeepsStatus(s.run, RunningUnit(UnitOf(s.run, id)));
    case Complete(id, result) => CompleteReplaces(w, s.run, id, result);
    case WakeUnit(id) => ReplaceKeepsStatus(s.run, Woken(UnitOf(s.run, id)));
    case Finish => OutcomeOf(s.run);
    case _ =>
  }

  lemma {:induction false} PlayedNeverCanceled(w: World, x: Stored, steps: seq<Step>, y: Stored)
    requires Plays(w, x, steps, y) && x.run.status != CanceledRun
    requires forall step :: step in steps ==> !Cancels(step)
    ensures y.run.status != CanceledRun
    decreases |steps|
  {
    hide Enabled, Apply;
    if steps != [] {
      assert steps[0] in steps;
      StepNeverCancels(w, x, steps[0]);
      PlayedNeverCanceled(w, Apply(w, x, steps[0]), steps[1..], y);
    }
  }

  lemma PendingNotTerminal(run: Run, u: UnitState)
    requires Coherent(run) && u in run.units && u.status == Pending && run.status != CanceledRun
    ensures !IsTerminalRun(run)
  {
  }
}

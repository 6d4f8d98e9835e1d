// The engine's guarantees over whole histories, stated in plain terms.

module Guarantees {
  import opened Basics
  import opened Plans
  import opened RunState
  import opened Decision
  import opened DecisionMeaning
  import opened SkipFixpoint
  import opened Dispatch
  import opened Preservation
  import opened History
  import opened Invariants
  import opened Lifecycle

  // A unit in flight is one the decision on is still to run it.
  ghost predicate FlyingReady(run: Run) {
    forall u :: u in run.units && InFlight(u) ==>
      u.unitId in PlanIds(run.plan) && Decide(run, UnitWithId(run.plan, u.unitId)) == ReadyToRun
  }

  // A step on one unit, named by the state it gives that unit.
  lemma UnitStepReplaces(w: World, s: Stored, step: Step) returns (next: UnitState)
    requires UnitsFit(s.run, Restarts(s.log)) && Enabled(s, step)
    requires step.MakeReady? || step.DispatchUnit? || step.Complete? || step.WakeUnit?
    ensures Replaced(s.run, RunAfter(w, s.run, step), next) && next.unitId == step.id
    ensures FindUnit(s.run.units, step.id).Some? && !Fixed(UnitOf(s.run, step.id))
    ensures step.Complete? || step.WakeUnit? ==> !InFlight(next)
    ensures step.MakeReady? ==> IsReady(s.run, step.id)
    ensures step.DispatchUnit? ==> InFlight(UnitOf(s.run, step.id))
  {
    hide LegalSkips, ApplySkips, RecoverRun, CancelRunState, FinalizeRun, CompletedRun, FailFast, Possible, FindUnit,
      UnitWithId, Decide, Restarts, SummarizeProgress, ResolveOutputs, ReplaceIn, RunningUnit, CompletedUnit, Bounded,
      Safe, UnitsFit;
    var id := step.id;
    FitUnit(s.run, Restarts(s.log), id);
    var u := UnitOf(s.run, id);
    match step {
      case MakeReady(_) => next := ReadyUnit(u);
      case DispatchUnit(_) =>
        RunningUnitIs(u);
        next := RunningUnit(u);
      case Complete(_, result) =>
        CompleteReplaces(w, s.run, id, result);
        CompletedFits(w, s.run.runId, UnitWithId(s.run.plan, id), u, result, Restarts(s.log));
        next := CompletedUnit(w, s.run.runId, UnitWithId(s.run.plan, id), u, |u.attempts|, result);
      case WakeUnit(_) => next := Woken(u);
    }
  }

  lemma FlyingKept(a: Run, b: Run, next: UnitState)
    requires FlyingReady(a) && Replaced(a, b, next) && Extends(a, b) && Aligned(a) && next.unitId in PlanIds(a.plan)
    requires InFlight(next) ==> Decide(a, UnitWithId(a.plan, next.unitId)) == ReadyToRun
    ensures FlyingReady(b)
  {
    hide FindUnit, ReplaceIn, Decide, UnitWithId, InFlight, Extends;
    ReplaceMembers(a.units, next);
    SamePlanOf(a, b);
    forall u | u in b.units && InFlight(u)
      ensures u.unitId in PlanIds(b.plan) && Decide(b, UnitWithId(b.plan, u.unitId)) == ReadyToRun
    {
      DecisionStable(a, b, UnitWithId(a.plan, u.unitId));
    }
  }

  lemma SamePlanOf(a: Run, b: Run)
    requires Extends(a, b)
    ensures a.plan == b.plan
  {
    hide FindUnit;
  }

  lemma {:induction false} SkipsKeepFlying(run: Run, restarts: nat, skips: seq<SkipRecord>)
    requires UnitsFit(run, restarts) && FlyingReady(run) && LegalSkips(run, skips)
    ensures FlyingReady(ApplySkips(run, skips))
    decreases |skips|
  {
    hide FindUnit, Decide, ApplySkip, UnitsFit, FlyingReady, UnitWithId, Sound, Bounded, Safe;
    if skips != [] {
      FitUnit(run, restarts, skips[0].unitId);
      SkipReplaces(run, skips[0]);
      SkipExtends(run, skips[0]);
      FitAligned(run, restarts);
      var next := SkippedUnit(FindUnit(run.units, skips[0].unitId).value, skips[0].reason);
      FlyingKept(run, ApplySkip(run, skips[0]), next);
      SkipFits(run, restarts, skips[0]);
      SkipsKeepFlying(ApplySkip(run, skips[0]), restarts, skips[1..]);
    }
  }

  lemma NoneFlying(run: Run)
    requires NoneInFlight(run)
    ensures FlyingReady(run)
  {
    hide Decide, UnitWithId;
  }

  lemma SameUnitsFlying(a: Run, b: Run)
    requires FlyingReady(a) && a.units == b.units && a.plan == b.plan && a.inputs == b.inputs
    ensures FlyingReady(b)
  {
    hide Decide, UnitWithId, InFlight;
    forall u | u in b.units && InFlight(u)
      ensures Decide(b, UnitWithId(b.plan, u.unitId)) == ReadyToRun
    {
      assert Extends(a, b);
      DecisionStable(a, b, UnitWithId(a.plan, u.unitId));
    }
  }

  lemma MapsLand(run: Run, restarts: nat)
    requires UnitsFit(run, restarts)
    ensures NoneInFlight(RecoverRun(run)) && NoneInFlight(CancelRunState(run))
  {
    hide SummarizeProgress, ResolveOutputs, Bounded, Safe, UnitWithId, MapAttempts;
    MapMembers(run.units, RecoverUnit);
    MapMembers(run.units, CancelUnit);
    forall u | u in run.units
      ensures !InFlight(RecoverUnit(u)) && !InFlight(CancelUnit(u))
    {
      assert UnitFits(run, restarts, u);
    }
  }

  lemma StepKeepsFlying(w: World, s: Stored, step: Step)
    requires UnitsFit(s.run, Restarts(s.log)) && FlyingReady(s.run) && Enabled(s, step)
    ensures FlyingReady(Apply(w, s, step).run)
  {
    hide FindUnit, UnitWithId, Decide, Restarts, UnitsFit, EventsAfter, ReplaceUnit, CompletedRun, RecoverRun,
      CancelRunState, LegalSkips, ApplySkips, ReadyRun, FlyingReady, NoneInFlight, SummarizeProgress, ResolveOutputs,
      FirstWithStatus;
    match step {
      case SkipUnits(skips) => SkipsKeepFlying(s.run, Restarts(s.log), skips);
      case FinishCancel =>
        MapsLand(s.run, Restarts(s.log));
        NoneFlying(CancelRunState(s.run));
      case Restart =>
        MapsLand(s.run, Restarts(s.log));
        NoneFlying(RecoverRun(s.run));
      case Activate => SameUnitsFlying(s.run, RunAfter(w, s.run, step));
      case RegisterPayload(_) =>
      case Finish => SameUnitsFlying(s.run, RunAfter(w, s.run, step));
      case RequestCancel => SameUnitsFlying(s.run, RunAfter(w, s.run, step));
      case _ =>
        UnitStepKeepsFlying(w, s, step);
    }
  }

  lemma UnitStepKeepsFlying(w: World, s: Stored, step: Step)
    requires UnitsFit(s.run, Restarts(s.log)) && FlyingReady(s.run) && Enabled(s, step)
    requires step.MakeReady? || step.DispatchUnit? || step.Complete? || step.WakeUnit?
    ensures FlyingReady(RunAfter(w, s.run, step))
  {
    hide FindUnit, UnitWithId, Decide, Restarts, UnitsFit, RunAfter, Enabled, Sound, Bounded, Safe, Fixed;
    EnabledUnit(s, step);
    FitUnit(s.run, Restarts(s.log), step.id);
    FitAligned(s.run, Restarts(s.log));
    var next := UnitStepReplaces(w, s, step);
    ReplaceExtends(s.run, RunAfter(w, s.run, step), next);
    FlyingKept(s.run, RunAfter(w, s.run, step), next);
  }

  lemma {:induction false} PlayedFlying(w: World, a: Stored, steps: seq<Step>, b: Stored)
    requires UnitsFit(a.run, Restarts(a.log)) && FlyingReady(a.run) && Plays(w, a, steps, b)
    ensures FlyingReady(b.run)
    decreases |steps|
  {
    hide FindUnit, Enabled, Apply, UnitsFit, Restarts, SucceededIn, FlyingReady;
    if steps != [] {
      StepFits(w, a, steps[0]);
      StepKeepsFlying(w, a, steps[0]);
      PlayedFlying(w, Apply(w, a, steps[0]), steps[1..], b);
    }
  }

  lemma ReachableFlying(w: World, s: Stored)
    requires Reachable(w, s)
    ensures FlyingReady(s.run)
  {
    hide FindUnit, Enabled, Apply, UnitsFit, Restarts, InitialRun, Sensible, Plays, Coherent, FlyingReady;
    var plan, runId, inputs, steps :| Sensible(plan) && Plays(w, Created(plan, runId, inputs), steps, s);
    InitialFits(plan, runId, inputs);
    NoRestarts([RunCreated]);
    InitialLanded(plan, runId, inputs);
    NoneFlying(InitialRun(plan, runId, inputs));
    PlayedFlying(w, Created(plan, runId, inputs), steps, s);
  }

  lemma InitialLanded(plan: Plan, runId: RunId, inputs: seq<NamedValue>)
    ensures NoneInFlight(InitialRun(plan, runId, inputs))
  {
    hide SummarizeProgress, ResolveOutputs;
  }

  // ----- the guarantees

  // Whenever the engine dispatches a unit, every dependency is settled and lets it proceed, and
  // every condition of the unit holds in the persisted run.
  lemma DispatchSafety(w: World, s: Stored, id: UnitId)
    requires Reachable(w, s) && Enabled(s, DispatchUnit(id))
    ensures var pu := UnitWithId(s.run.plan, id);
            && (forall d :: d in pu.dependencies ==>
                 FindUnit(s.run.units, d).Some? && Settled(UnitOf(s.run, d)) && Proceeds(s.run, pu, d))
            && (forall c :: c in pu.declaration.conditions ==> ConditionHolds(s.run, c))
  {
    hide FindUnit, UnitWithId, Restarts, Reachable, UnitsFit, Coherent, ConditionHolds, Conditioned, Decide;
    ReachableFlying(w, s);
    ReachableFits(w, s);
    var pu := UnitWithId(s.run.plan, id);
    assert UnitOf(s.run, id) in s.run.units;
    DecisionMeans(s.run, pu);
    forall d | d in pu.dependencies
      ensures FindUnit(s.run.units, d).Some? && Settled(UnitOf(s.run, d))
    {
      assert Proceeds(s.run, pu, d);
      FitUnit(s.run, Restarts(s.log), d);
      SuccessIsSettled(UnitOf(s.run, d));
    }
  }

  lemma SuccessIsSettled(u: UnitState)
    requires Sound(u)
    ensures u.status == Succeeded ==> Settled(u)
  {
  }

  // Also after restarts and cancellation: a unit with any attempt has every dependency that carries
  // no status condition in status succeeded.
  lemma AttemptedAfterSuccess(w: World, s: Stored, u: UnitState, d: UnitId)
    requires Reachable(w, s) && u in s.run.units && u.attempts != []
    ensures u.unitId in PlanIds(s.run.plan)
    ensures var pu := UnitWithId(s.run.plan, u.unitId);
            d in pu.dependencies && !Conditioned(pu, d) ==>
              FindUnit(s.run.units, d).Some? && UnitOf(s.run, d).status == Succeeded
  {
    hide FindUnit, UnitWithId, Restarts, Reachable, Sound, Bounded, Coherent, HasUpstreamCondition, Conditioned;
    ReachableFits(w, s);
    assert UnitFits(s.run, Restarts(s.log), u);
    ConditionedIff(UnitWithId(s.run.plan, u.unitId), d);
  }

  // So many attempts are at most the largest limit of a retry policy, and one more per restart.
  ghost predicate WithinLimit(pu: PlanUnit, restarts: nat, attempts: nat) {
    exists limit: nat :: LargestLimit(pu, limit) && attempts <= limit + restarts
  }

  // Attempts are numbered 1..k in list order, and k is at most the largest limit of a retry policy, or
  // one, plus the number of restarts recovered from.
  lemma AttemptAccounting(w: World, s: Stored, u: UnitState)
    requires Reachable(w, s) && u in s.run.units
    ensures forall i :: 0 <= i < |u.attempts| ==> u.attempts[i].number == i + 1
    ensures u.unitId in PlanIds(s.run.plan)
    ensures WithinLimit(UnitWithId(s.run.plan, u.unitId), Restarts(s.log), |u.attempts|)
  {
    hide FindUnit, UnitWithId, Restarts, Reachable, Safe, Coherent, MaxAttempts, LargestLimit;
    ReachableFits(w, s);
    assert UnitFits(s.run, Restarts(s.log), u);
    RetriesAfterMeans(UnitWithId(s.run.plan, u.unitId), 0);
  }

  // At most one attempt of the whole run is running, and it is the last of its unit.
  lemma OneRunningAttempt(w: World, s: Stored, u: UnitState, i: nat, v: UnitState, j: nat)
    requires Reachable(w, s) && u in s.run.units && v in s.run.units && i < |u.attempts| && j < |v.attempts|
    requires u.attempts[i].status == RunningAttempt && v.attempts[j].status == RunningAttempt
    ensures u.unitId == v.unitId && i == |u.attempts| - 1 && j == |v.attempts| - 1
    ensures !IsTerminalRun(s.run)
  {
    hide FindUnit, UnitWithId, Restarts, Reachable, Safe, Bounded;
    ReachableFits(w, s);
    assert UnitFits(s.run, Restarts(s.log), u) && UnitFits(s.run, Restarts(s.log), v);
  }

  // A terminal run never changes again.
  lemma TerminalIsFinal(w: World, s: Stored, steps: seq<Step>, t: Stored)
    requires IsTerminalRun(s.run) && Plays(w, s, steps, t)
    ensures t == s
  {
    hide FindUnit, UnitWithId, Decide, LegalSkips;
  }

  // Across any history, a unit that succeeded stays succeeded.
  lemma SuccessIsFinal(w: World, s: Stored, steps: seq<Step>, t: Stored, id: UnitId)
    requires Reachable(w, s) && Plays(w, s, steps, t) && FindUnit(s.run.units, id).Some?
    requires UnitOf(s.run, id).status == Succeeded
    ensures FindUnit(t.run.units, id).Some? && UnitOf(t.run, id).status == Succeeded
  {
    hide FindUnit, Restarts, Reachable, UnitsFit, Coherent, Plays;
    ReachableFits(w, s);
    PlayedFits(w, s, steps, t);
    assert SucceededIn(s.run, id);
  }
}

// How run and unit statuses constrain each other in every reachable state.

module Lifecycle {
  import opened Basics
  import opened Plans
  import opened RunState
  import opened Decision
  import opened SkipFixpoint
  import opened Dispatch
  import opened Preservation
  import opened History
  import opened Invariants

  predicate Finished(status: RunStatus) {
    status == SucceededRun || status == FailedRun || status == TimedOutRun
  }

  // What a run status allows of a unit.
  predicate Allowed(status: RunStatus, u: UnitState) {
    && (status == QueuedRun ==> u.status == Pending && u.attempts == [])
    && (status != CanceledRun ==> u.status != Canceled)
    && (Finished(status) ==> Settled(u))
    && (TerminalRunStatus(status) ==> !InFlight(u))
  }

  ghost predicate OneInFlight(run: Run) {
    forall u, v :: u in run.units && v in run.units && InFlight(u) && InFlight(v) ==> u.unitId == v.unitId
  }

  ghost predicate Coherent(run: Run) {
    && run.status != InterruptedRun
    && OneInFlight(run)
    && forall u :: u in run.units ==> Allowed(run.status, u)
  }

  lemma ReplaceKeepsCoherent(a: Run, b: Run, next: UnitState)
    requires Coherent(a) && Replaced(a, b, next) && b.status == a.status && Allowed(a.status, next)
    requires InFlight(next) ==> forall u :: u in a.units && InFlight(u) ==> u.unitId == next.unitId
    ensures Coherent(b)
  {
    hide ReplaceIn, InFlight, Allowed;
    ReplaceMembers(a.units, next);
  }

  lemma {:induction false} SkipsKeepCoherent(run: Run, skips: seq<SkipRecord>)
    requires Coherent(run) && run.status == RunningRun && LegalSkips(run, skips)
    ensures Coherent(ApplySkips(run, skips)) && ApplySkips(run, skips).status == RunningRun
    decreases |skips|
  {
    hide FindUnit, Decide, SummarizeProgress, ResolveOutputs, Coherent, ReplaceIn;
    if skips != [] {
      SkipReplaces(run, skips[0]);
      var u := FindUnit(run.units, skips[0].unitId).value;
      ReplaceKeepsCoherent(run, ApplySkip(run, skips[0]), SkippedUnit(u, skips[0].reason));
      SkipsKeepCoherent(ApplySkip(run, skips[0]), skips[1..]);
    }
  }

  // The outcome of a finished run: timed out over failed over succeeded.
  lemma OutcomeOf(run: Run)
    ensures var r := FinalizeRun(run);
            && r.units == run.units && r.plan == run.plan && Finished(r.status)
            && (r.status == TimedOutRun <==> exists u :: u in run.units && u.status == TimedOut)
            && (r.status == SucceededRun <==> forall u :: u in run.units ==> u.status != TimedOut && u.status != Failed)
  {
    hide SummarizeProgress, ResolveOutputs, FirstWithStatus;
  }

  lemma FinishKeepsCoherent(run: Run)
    requires Coherent(run) && run.status == RunningRun && AllSettled(run)
    ensures Coherent(FinalizeRun(run))
  {
    hide SummarizeProgress, ResolveOutputs, FirstWithStatus, FinalizeRun;
    OutcomeOf(run);
  }

  lemma MapsKeepCoherent(run: Run, restarts: nat)
    requires UnitsFit(run, restarts) && Coherent(run)
    ensures run.status == RunningRun ==> Coherent(RecoverRun(run))
    ensures Coherent(CancelRunState(run))
  {
    hide SummarizeProgress, ResolveOutputs, MapAttempts, UnitWithId, Bounded, Safe;
    MapMembers(run.units, RecoverUnit);
    MapMembers(run.units, CancelUnit);
    forall u | u in run.units
      ensures !InFlight(RecoverUnit(u)) && (u.status != Canceled ==> RecoverUnit(u).status != Canceled)
      ensures !InFlight(CancelUnit(u))
    {
      assert UnitFits(run, restarts, u);
    }
  }

  lemma InFlightOnly(run: Run, restarts: nat, id: UnitId)
    requires UnitsFit(run, restarts) && Coherent(run) && FindUnit(run.units, id).Some? && InFlight(UnitOf(run, id))
    ensures forall u :: u in run.units && InFlight(u) ==> u.unitId == id
  {
    hide FindUnit, Allowed, InFlight;
    assert UnitOf(run, id) in run.units && UnitOf(run, id).unitId == id;
  }

  lemma UnitStepKeepsCoherent(w: World, s: Stored, step: Step)
    requires UnitsFit(s.run, Restarts(s.log)) && Coherent(s.run) && Enabled(s, step)
    requires step.MakeReady? || step.DispatchUnit? || step.Complete? || step.WakeUnit?
    ensures Coherent(RunAfter(w, s.run, step))
  {
    hide LegalSkips, ApplySkips, RecoverRun, CancelRunState, FinalizeRun, CompletedRun, FailFast, Possible, FindUnit,
      UnitWithId, Decide, Restarts, SummarizeProgress, ResolveOutputs, Coherent, ReplaceIn, RunningUnit, CompletedUnit,
      Bounded, Safe, UnitsFit;
    var run, r, id := s.run, Restarts(s.log), step.id;
    FitUnit(run, r, id);
    var u := UnitOf(run, id);
    match step {
      case MakeReady(_) =>
        ReplaceKeepsCoherent(run, RunAfter(w, run, step), ReadyUnit(u));
      case DispatchUnit(_) =>
        RunningUnitIs(u);
        InFlightOnly(run, r, id);
        ReplaceKeepsCoherent(run, RunAfter(w, run, step), RunningUnit(u));
      case Complete(_, result) =>
        CompleteReplaces(w, run, id, result);
        CompletedFits(w, run.runId, UnitWithId(run.plan, id), u, result, r);
        ReplaceKeepsCoherent(run, RunAfter(w, run, step),
          CompletedUnit(w, run.runId, UnitWithId(run.plan, id), u, |u.attempts|, result));
      case WakeUnit(_) =>
        ReplaceKeepsCoherent(run, RunAfter(w, run, step), Woken(u));
    }
  }

  lemma StatusOnly(run: Run, status: RunStatus)
    requires Coherent(run)
    requires (run.status == QueuedRun && status == RunningRun) || (!TerminalRunStatus(run.status) && status == CancelingRun)
    ensures Coherent(WithStatus(run, status))
  {
  }

  lemma StepCoherent(w: World, s: Stored, step: Step)
    requires UnitsFit(s.run, Restarts(s.log)) && Coherent(s.run) && Enabled(s, step)
    ensures Coherent(Apply(w, s, step).run)
  {
    hide FindUnit, UnitWithId, Decide, Restarts, Coherent, UnitsFit, EventsAfter, ReplaceUnit, CompletedRun,
      RecoverRun, CancelRunState, FinalizeRun, LegalSkips, ApplySkips, ReadyRun;
    match step {
      case SkipUnits(skips) => SkipsKeepCoherent(s.run, skips);
      case RegisterPayload(_) =>
      case Activate => StatusOnly(s.run, RunningRun);
      case RequestCancel => StatusOnly(s.run, CancelingRun);
      case Finish => FinishKeepsCoherent(s.run);
      case FinishCancel => MapsKeepCoherent(s.run, Restarts(s.log));
      case Restart => MapsKeepCoherent(s.run, Restarts(s.log));
      case _ => UnitStepKeepsCoherent(w, s, step);
    }
  }

  lemma InitialFits(plan: Plan, runId: RunId, inputs: seq<NamedValue>)
    requires Sensible(plan)
    ensures UnitsFit(InitialRun(plan, runId, inputs), 0) && Coherent(InitialRun(plan, runId, inputs))
  {
    hide FindUnit, UnitWithId, SummarizeProgress, ResolveOutputs, MaxAttempts;
    var run := InitialRun(plan, runId, inputs);
    assert PlanIds(run.plan) == PlanIds(plan);
    assert UnitIds(run.units) == PlanIds(run.plan);
    forall u | u in run.units
      ensures u.unitId in PlanIds(run.plan) && u == InitialUnit(u.unitId)
    {
      var i :| 0 <= i < |run.units| && run.units[i] == u;
      assert PlanIds(run.plan)[i] == u.unitId;
    }
    forall u | u in run.units
      ensures UnitFits(run, 0, u)
    {
      AtLeastOne(UnitWithId(run.plan, u.unitId));
    }
  }

  lemma AtLeastOne(pu: PlanUnit)
    ensures MaxAttempts(pu) >= 1
  {
  }

  lemma {:induction false} PlayedFits(w: World, a: Stored, steps: seq<Step>, b: Stored)
    requires UnitsFit(a.run, Restarts(a.log)) && Coherent(a.run) && Plays(w, a, steps, b)
    ensures UnitsFit(b.run, Restarts(b.log)) && Coherent(b.run) && SuccessKept(a.run, b.run)
    decreases |steps|
  {
    hide FindUnit, Enabled, Apply, UnitsFit, Coherent, Restarts, SucceededIn;
    if steps != [] {
      StepFits(w, a, steps[0]);
      StepCoherent(w, a, steps[0]);
      PlayedFits(w, Apply(w, a, steps[0]), steps[1..], b);
    }
  }

  // In every reachable state of a run, restarts and cancellation included: attempts are numbered
  // in order and bounded, at most one unit is in flight, a unit was attempted only after its
  // unconditioned dependencies succeeded, and the run's status fits its units' statuses.
  lemma ReachableFits(w: World, s: Stored)
    requires Reachable(w, s)
    ensures UnitsFit(s.run, Restarts(s.log)) && Coherent(s.run)
  {
    hide FindUnit, Enabled, Apply, UnitsFit, Coherent, Restarts, InitialRun, Sensible, Plays;
    var plan, runId, inputs, steps :| Sensible(plan) && Plays(w, Created(plan, runId, inputs), steps, s);
    InitialFits(plan, runId, inputs);
    NoRestarts([RunCreated]);
    PlayedFits(w, Created(plan, runId, inputs), steps, s);
  }
}

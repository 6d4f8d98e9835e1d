// What a timed-out attempt and a skip leave behind in a run, restarts included.

module Timeouts {
  import opened Basics
  import opened Plans
  import opened RunState
  import opened Decision
  import opened SkipFixpoint
  import opened Dispatch
  import opened Preservation
  import opened History
  import opened Invariants
  import opened Lifecycle
  import opened Guarantees
  import opened Replay
  import opened Engine

  predicate TimedOutOnce(u: UnitState) {
    exists i :: 0 <= i < |u.attempts| && u.attempts[i].status == TimedOutAttempt
  }

  // What can become of a unit that was settled once: it is settled still, or it had timed out and a
  // restart reset it.
  predicate WasSettled(u: UnitState) {
    u.status == Succeeded || u.status == Skipped || u.status == Canceled || (u.status == Failed && Settled(u)) || TimedOutOnce(u)
  }

  // The unit ended because of an attempt.
  predicate Ended(u: UnitState) {
    u.status == Succeeded || u.status == Failed || u.status == TimedOut
  }

  predicate InputsResolve(run: Run, pu: PlanUnit) {
    ResolveInputs(run, pu, pu.declaration.inputs).Success?
  }

  // A timed-out unit has a timed-out attempt, such an attempt had its inputs, and a skipped unit's
  // dependencies were settled.
  ghost predicate Told(run: Run, u: UnitState) {
    && u.unitId in PlanIds(run.plan)
    && (Ended(u) ==> u.attempts != []) && (u.status == TimedOut ==> TimedOutOnce(u))
    && (TimedOutOnce(u) ==> InputsResolve(run, UnitWithId(run.plan, u.unitId)))
    && (u.status == Skipped ==> DependenciesWereSettled(run, UnitWithId(run.plan, u.unitId)))
  }

  ghost predicate DependenciesWereSettled(run: Run, pu: PlanUnit) {
    forall d :: d in pu.dependencies ==> FindUnit(run.units, d).Some? && WasSettled(UnitOf(run, d))
  }

  ghost predicate AllTold(run: Run) {
    Aligned(run) && forall u :: u in run.units ==> Told(run, u)
  }

  // What succeeded units produced is still there.
  ghost predicate KeepsOutputs(a: Run, b: Run) {
    && b.inputs == a.inputs
    && forall id :: FindUnit(a.units, id).Some? && UnitOf(a, id).status == Succeeded ==>
         FindUnit(b.units, id).Some? && UnitOf(b, id).status == Succeeded && UnitOf(b, id).outputs == UnitOf(a, id).outputs
  }

  // And what was settled was settled.
  ghost predicate Remembers(a: Run, b: Run) {
    && b.plan == a.plan && KeepsOutputs(a, b)
    && forall id :: FindUnit(a.units, id).Some? ==>
         FindUnit(b.units, id).Some? && (WasSettled(UnitOf(a, id)) ==> WasSettled(UnitOf(b, id)))
  }

  lemma {:induction false} ResolvedKept(a: Run, b: Run, pu: PlanUnit, inputs: seq<NamedSource>)
    requires KeepsOutputs(a, b) && ResolveInputs(a, pu, inputs).Success?
    ensures ResolveInputs(b, pu, inputs) == ResolveInputs(a, pu, inputs)
  {
    hide FindUnit, WasSettled, FindValue;
    if inputs != [] {
      assert ResolveInput(a, pu, inputs[0]).Success?;
      ResolvedKept(a, b, pu, inputs[1..]);
    }
  }

  lemma ToldKept(a: Run, b: Run, u: UnitState)
    requires Remembers(a, b) && Told(a, u)
    ensures Told(b, u)
  {
    hide FindUnit, WasSettled, TimedOutOnce, UnitWithId, ResolveInputs;
    var pu := UnitWithId(a.plan, u.unitId);
    if TimedOutOnce(u) {
      ResolvedKept(a, b, pu, pu.declaration.inputs);
    }
  }

  // ----- steps that replace one unit

  lemma ReplaceRemembers(a: Run, b: Run, next: UnitState)
    requires Replaced(a, b, next) && FindUnit(a.units, next.unitId).Some? && !Fixed(UnitOf(a, next.unitId))
    requires WasSettled(UnitOf(a, next.unitId)) ==> WasSettled(next)
    ensures Remembers(a, b)
  {
    hide FindUnit, ReplaceIn, WasSettled;
    ReplacedSameBut(a, b, next);
  }

  lemma ReplaceKeepsTold(a: Run, b: Run, next: UnitState)
    requires AllTold(a) && Replaced(a, b, next) && FindUnit(a.units, next.unitId).Some? && !Fixed(UnitOf(a, next.unitId))
    requires WasSettled(UnitOf(a, next.unitId)) ==> WasSettled(next)
    requires Told(a, next)
    ensures AllTold(b) && Remembers(a, b)
  {
    hide FindUnit, ReplaceIn, WasSettled, Told, Fixed;
    ReplaceRemembers(a, b, next);
    ReplacedSameBut(a, b, next);
    ReplaceMembers(a.units, next);
    forall u | u in b.units
      ensures Told(b, u)
    {
      ToldKept(a, b, u);
    }
  }

  lemma UnfixedWasSettled(u: UnitState)
    requires Sound(u) && !Fixed(u) && WasSettled(u)
    ensures TimedOutOnce(u)
  {
  }

  lemma SkipKeepsTold(run: Run, skip: SkipRecord)
    requires AllTold(run) && Skips(run, skip)
    ensures AllTold(ApplySkip(run, skip))
  {
    hide FindUnit, Decide, UnitWithId, ApplySkip, InputsResolve, ReplaceIn;
    var u := FindUnit(run.units, skip.unitId).value;
    var next, pu := SkippedUnit(u, skip.reason), UnitWithId(run.plan, skip.unitId);
    SkipReplaces(run, skip);
    assert Told(run, u);
    forall d | d in pu.dependencies
      ensures FindUnit(run.units, d).Some? && WasSettled(UnitOf(run, d))
    {
      DecidedOnSettled(run, pu, d);
      assert Told(run, UnitOf(run, d));
    }
    assert TimedOutOnce(next) <==> TimedOutOnce(u);
    ReplaceKeepsTold(run, ApplySkip(run, skip), next);
  }

  // The next state of a unit keeps its timed-out attempts, adds one only with its inputs at hand,
  // and is neither skipped nor canceled.
  ghost predicate Continues(run: Run, u: UnitState, next: UnitState) {
    && next.unitId == u.unitId && next.status != Skipped && (Ended(next) ==> next.attempts != [])
    && (TimedOutOnce(u) ==> TimedOutOnce(next))
    && (next.status == TimedOut ==> TimedOutOnce(next))
    && (TimedOutOnce(next) && !TimedOutOnce(u) ==> u.unitId in PlanIds(run.plan) && InputsResolve(run, UnitWithId(run.plan, u.unitId)))
  }

  lemma SameAttemptsContinue(run: Run, u: UnitState, next: UnitState)
    requires next.unitId == u.unitId && next.attempts == u.attempts && next.status != Skipped && !Ended(next)
    ensures Continues(run, u, next)
  {
    assert TimedOutOnce(next) <==> TimedOutOnce(u);
  }

  lemma DispatchContinues(run: Run, u: UnitState)
    requires Sound(u)
    ensures Continues(run, u, RunningUnit(u))
  {
    RunningUnitIs(u);
    var next := RunningUnit(u);
    if TimedOutOnce(u) {
      var i :| 0 <= i < |u.attempts| && u.attempts[i].status == TimedOutAttempt;
      assert next.attempts[i] == u.attempts[i];
    }
    if TimedOutOnce(next) {
      var i :| 0 <= i < |next.attempts| && next.attempts[i].status == TimedOutAttempt;
      assert next.attempts[i] == u.attempts[i];
    }
  }

  lemma CompleteContinues(w: World, run: Run, id: UnitId, u: UnitState, result: ExecutorResult)
    requires id in PlanIds(run.plan) && u.unitId == id && Sound(u) && u.status == Running
    requires Possible(run, UnitWithId(run.plan, id), result)
    ensures Continues(run, u, CompletedUnit(w, run.runId, UnitWithId(run.plan, id), u, |u.attempts|, result))
  {
    hide CompletedUnit, UnitWithId, ResolveInputs;
    var pu, n := UnitWithId(run.plan, id), |u.attempts|;
    var next := CompletedUnit(w, run.runId, pu, u, n, result);
    CompletedUnitIs(w, run.runId, pu, u, result);
    CompletedStatus(w, run.runId, pu, u, result);
    forall i | 0 <= i < n - 1
      ensures next.attempts[i] == u.attempts[i]
    {
      assert next.attempts[..n - 1][i] == u.attempts[..n - 1][i];
    }
    assert next.status == TimedOut ==> next.attempts[n - 1].status == TimedOutAttempt;
  }

  lemma ContinuesIsTold(run: Run, u: UnitState, next: UnitState)
    requires Told(run, u) && Sound(u) && !Fixed(u) && Continues(run, u, next)
    ensures Told(run, next) && (WasSettled(u) ==> WasSettled(next))
  {
    hide TimedOutOnce, InputsResolve, UnitWithId;
    if WasSettled(u) {
      UnfixedWasSettled(u);
    }
  }

  lemma UnitStepContinues(w: World, s: Stored, step: Step) returns (next: UnitState)
    requires UnitsFit(s.run, Restarts(s.log)) && Enabled(s, step)
    requires step.MakeReady? || step.DispatchUnit? || step.Complete? || step.WakeUnit?
    ensures FindUnit(s.run.units, step.id).Some? && !Fixed(UnitOf(s.run, step.id)) && Sound(UnitOf(s.run, step.id))
    ensures Replaced(s.run, RunAfter(w, s.run, step), next) && Continues(s.run, UnitOf(s.run, step.id), next)
  {
    hide LegalSkips, ApplySkips, RecoverRun, CancelRunState, FinalizeRun, CompletedRun, FailFast, InputsResolve,
      TimedOutOnce, FindUnit, UnitWithId, Decide, Restarts, SummarizeProgress, ResolveOutputs, ReplaceIn, RunningUnit,
      CompletedUnit, Bounded, Safe, UnitsFit, Continues;
    var id := step.id;
    FitUnit(s.run, Restarts(s.log), id);
    var u := UnitOf(s.run, id);
    match step {
      case MakeReady(_) =>
        next := ReadyUnit(u);
        SameAttemptsContinue(s.run, u, next);
      case DispatchUnit(_) =>
        next := RunningUnit(u);
        DispatchContinues(s.run, u);
      case Complete(_, result) =>
        CompleteReplaces(w, s.run, id, result);
        next := CompletedUnit(w, s.run.runId, UnitWithId(s.run.plan, id), u, |u.attempts|, result);
        CompleteContinues(w, s.run, id, u, result);
      case WakeUnit(_) =>
        next := Woken(u);
        SameAttemptsContinue(s.run, u, next);
    }
  }

  lemma UnitStepKeepsTold(w: World, s: Stored, step: Step)
    requires UnitsFit(s.run, Restarts(s.log)) && AllTold(s.run) && Enabled(s, step)
    requires step.MakeReady? || step.DispatchUnit? || step.Complete? || step.WakeUnit?
    ensures AllTold(RunAfter(w, s.run, step))
  {
    hide FindUnit, Told, Continues, WasSettled, Sound, Fixed, UnitsFit, Restarts, RunAfter, Enabled, ReplaceIn;
    EnabledUnit(s, step);
    var next := UnitStepContinues(w, s, step);
    var u := UnitOf(s.run, step.id);
    ContinuesId(s.run, u, next);
    assert Told(s.run, u);
    ContinuesIsTold(s.run, u, next);
    ReplaceKeepsTold(s.run, RunAfter(w, s.run, step), next);
  }

  lemma ContinuesId(run: Run, u: UnitState, next: UnitState)
    requires Continues(run, u, next)
    ensures next.unitId == u.unitId
  {
  }

  // ----- steps over the whole run

  lemma MappedTimeouts(u: UnitState, f: Attempt -> Attempt, next: UnitState)
    requires next.attempts == MapAttempts(u.attempts, f)
    requires forall a :: (f(a).status == TimedOutAttempt <==> a.status == TimedOutAttempt)
    ensures TimedOutOnce(next) <==> TimedOutOnce(u)
  {
    if TimedOutOnce(u) {
      var i :| 0 <= i < |u.attempts| && u.attempts[i].status == TimedOutAttempt;
      assert next.attempts[i] == f(u.attempts[i]);
    }
  }

  lemma MapKeepsTold(a: Run, b: Run, f: UnitState -> UnitState)
    requires AllTold(a) && b.plan == a.plan && b.inputs == a.inputs && b.units == MapUnits(a.units, f)
    requires forall u :: u in a.units ==>
               && f(u).unitId == u.unitId && |f(u).attempts| == |u.attempts| && (Ended(f(u)) ==> Ended(u)) && (TimedOutOnce(f(u)) <==> TimedOutOnce(u))
               && (f(u).status == TimedOut ==> u.status == TimedOut) && (f(u).status == Skipped ==> u.status == Skipped)
               && (WasSettled(u) ==> WasSettled(f(u)))
               && (u.status == Succeeded ==> f(u).status == Succeeded && f(u).outputs == u.outputs)
    ensures AllTold(b)
  {
    hide FindUnit, TimedOutOnce, WasSettled, InputsResolve, UnitWithId;
    assert UnitIds(b.units) == UnitIds(a.units);
    assert Remembers(a, b) by {
      forall id
        ensures FindUnit(b.units, id) == match FindUnit(a.units, id) case None => None case Some(u) => Some(f(u))
      {
        FindMapped(a.units, f, id);
      }
    }
    MapMembers(a.units, f);
    forall v | v in b.units
      ensures Told(b, v)
    {
      var u :| u in a.units && v == f(u);
      ToldKept(a, b, u);
    }
  }

  lemma RecoverUnitRemembers(u: UnitState)
    requires u.status == TimedOut ==> TimedOutOnce(u)
    ensures TimedOutOnce(RecoverUnit(u)) <==> TimedOutOnce(u)
    ensures WasSettled(u) ==> WasSettled(RecoverUnit(u))
  {
    MappedTimeouts(u, InterruptAttempt, RecoverUnit(u));
  }

  lemma CancelUnitRemembers(u: UnitState)
    ensures TimedOutOnce(CancelUnit(u)) <==> TimedOutOnce(u)
    ensures WasSettled(u) ==> WasSettled(CancelUnit(u))
  {
    MappedTimeouts(u, CancelAttempt, CancelUnit(u));
  }

  lemma MapsKeepTold(run: Run)
    requires AllTold(run)
    ensures AllTold(RecoverRun(run)) && AllTold(CancelRunState(run))
  {
    hide SummarizeProgress, ResolveOutputs, FindUnit, TimedOutOnce, WasSettled, InputsResolve, DependenciesWereSettled,
      UnitWithId, Aligned;
    forall u | u in run.units
      ensures TimedOutOnce(RecoverUnit(u)) <==> TimedOutOnce(u)
      ensures WasSettled(u) ==> WasSettled(RecoverUnit(u)) && WasSettled(CancelUnit(u))
      ensures TimedOutOnce(CancelUnit(u)) <==> TimedOutOnce(u)
    {
      assert Told(run, u);
      RecoverUnitRemembers(u);
      CancelUnitRemembers(u);
    }
    MapKeepsTold(run, RecoverRun(run), RecoverUnit);
    MapKeepsTold(run, CancelRunState(run), CancelUnit);
  }

  lemma {:induction false} SkipsKeepTold(run: Run, skips: seq<SkipRecord>)
    requires AllTold(run) && LegalSkips(run, skips)
    ensures AllTold(ApplySkips(run, skips))
    decreases |skips|
  {
    hide AllTold, Skips, ApplySkip;
    if skips != [] {
      SkipKeepsTold(run, skips[0]);
      SkipsKeepTold(ApplySkip(run, skips[0]), skips[1..]);
    }
  }

  lemma SameUnitsTold(a: Run, b: Run)
    requires AllTold(a) && b.plan == a.plan && b.inputs == a.inputs && b.units == a.units
    ensures AllTold(b)
  {
    hide FindUnit, TimedOutOnce, WasSettled, UnitWithId;
    forall u | u in b.units
      ensures Told(b, u)
    {
      ToldKept(a, b, u);
    }
  }

  lemma StepKeepsTold(w: World, s: Stored, step: Step)
    requires UnitsFit(s.run, Restarts(s.log)) && AllTold(s.run) && Enabled(s, step)
    ensures AllTold(Apply(w, s, step).run)
  {
    hide AllTold, UnitsFit, Restarts, FindUnit, UnitWithId, Decide, LegalSkips, ApplySkips, RecoverRun, CancelRunState,
      FinalizeRun, EventsAfter, AllSettled;
    match step
    case SkipUnits(skips) => SkipsKeepTold(s.run, skips);
    case Restart => MapsKeepTold(s.run);
    case FinishCancel => MapsKeepTold(s.run);
    case Finish =>
      FinalizeAgain(s.run);
      SameUnitsTold(s.run, FinalizeRun(s.run));
    case Activate => SameUnitsTold(s.run, WithStatus(s.run, RunningRun));
    case RequestCancel => SameUnitsTold(s.run, WithStatus(s.run, CancelingRun));
    case RegisterPayload(_) =>
    case _ => UnitStepKeepsTold(w, s, step);
  }

  lemma {:induction false} PlayedTold(w: World, a: Stored, steps: seq<Step>, b: Stored)
    requires UnitsFit(a.run, Restarts(a.log)) && AllTold(a.run) && Plays(w, a, steps, b)
    ensures AllTold(b.run)
    decreases |steps|
  {
    hide UnitsFit, AllTold, Enabled, Apply, Restarts;
    if steps != [] {
      StepKeepsTold(w, a, steps[0]);
      StepFits(w, a, steps[0]);
      PlayedTold(w, Apply(w, a, steps[0]), steps[1..], b);
    }
  }

  lemma InitialTold(plan: Plan, runId: RunId, inputs: seq<NamedValue>)
    requires Sensible(plan)
    ensures AllTold(InitialRun(plan, runId, inputs))
  {
    hide FindUnit, UnitWithId, SummarizeProgress, ResolveOutputs, ResolveInputs;
    var run := InitialRun(plan, runId, inputs);
    assert PlanIds(run.plan) == PlanIds(plan);
    assert UnitIds(run.units) == PlanIds(run.plan);
    forall u | u in run.units
      ensures Told(run, u)
    {
      var i :| 0 <= i < |run.units| && run.units[i] == u;
      assert UnitIds(run.units)[i] == u.unitId;
    }
  }

  // In every reachable state, restarts included, a skipped unit's dependencies were settled before,
  // and a unit that timed out once had its inputs and has them still.
  lemma ReachableTold(w: World, s: Stored)
    requires Reachable(w, s)
    ensures AllTold(s.run)
  {
    hide Plays, UnitsFit, AllTold, InitialRun, Restarts, Coherent;
    var plan, runId, inputs, steps :| Sensible(plan) && Plays(w, Created(plan, runId, inputs), steps, s);
    InitialFits(plan, runId, inputs);
    NoRestarts([RunCreated]);
    InitialTold(plan, runId, inputs);
    PlayedTold(w, Created(plan, runId, inputs), steps, s);
  }
}

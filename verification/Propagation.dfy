// How failures spread in plans without conditions, over whole histories, and what a restart does to it.

module Propagation {
  import opened Basics
  import opened Graphs
  import opened Plans
  import opened RunState
  import opened Decision
  import opened SkipFixpoint
  import opened Dispatch
  import opened Semantics
  import opened Preservation
  import opened History
  import opened Invariants
  import opened Lifecycle
  import opened Guarantees
  import opened Timeouts
  import opened Engine
  import opened Outcomes

  // The unit depends, directly or through others, on a unit that failed or timed out.
  ghost predicate BelowBroken(r: Run, id: UnitId) {
    exists p :: IsPath(DependencyGraph(r.plan), p) && |p| >= 2 && p[0] == id && Broke(r, p[|p| - 1])
  }

  // The skipped units are exactly the transitive dependents of failed and timed-out units.
  ghost predicate ClosedForm(r: Run) {
    forall id :: id in PlanIds(r.plan) ==> (StatusIn(r, id, Skipped) <==> BelowBroken(r, id))
  }

  predicate Ran(r: Run, id: UnitId) {
    FindUnit(r.units, id).Some? && Ended(UnitOf(r, id))
  }

  // Every unit ran or was skipped, and none ran on a dependency that did not succeed.
  ghost predicate RanSafely(r: Run) {
    && Aligned(r)
    && (forall id :: id in PlanIds(r.plan) ==> Ran(r, id) || StatusIn(r, id, Skipped))
    && (forall id, d :: id in PlanIds(r.plan) && d in UnitWithId(r.plan, id).dependencies && Ran(r, id) ==> StatusIn(r, d, Succeeded))
  }

  // Every skipped unit has a dependency that did not succeed.
  ghost predicate SkipsHaveCause(r: Run) {
    forall id :: id in PlanIds(r.plan) && StatusIn(r, id, Skipped) ==> Blocked(r, id)
  }

  ghost predicate Blocked(r: Run, id: UnitId)
    requires id in PlanIds(r.plan)
  {
    exists d :: d in UnitWithId(r.plan, id).dependencies && !StatusIn(r, d, Succeeded)
  }

  // ----- the closed form of a finished run

  lemma Linked(plan: Plan, v: UnitId, w: UnitId)
    ensures v in DependencyGraph(plan) <==> v in PlanIds(plan)
    ensures v in PlanIds(plan) ==> (w in DependencyGraph(plan)[v] <==> w in UnitWithId(plan, v).dependencies)
  {
    hide UnitWithId;
  }

  lemma PathStart(plan: Plan, p: seq<UnitId>)
    requires IsPath(DependencyGraph(plan), p) && |p| >= 2
    ensures p[0] in PlanIds(plan) && p[1] in UnitWithId(plan, p[0]).dependencies
    ensures IsPath(DependencyGraph(plan), p[1..])
  {
    hide UnitWithId, DependencyGraph;
    var g := DependencyGraph(plan);
    assert p[0] in g && p[0 + 1] in g[p[0]];
    Linked(plan, p[0], p[1]);
    PathSuffix(g, p, 1);
  }

  lemma SkippedOrSucceeded(r: Run, id: UnitId)
    requires RanSafely(r) && id in PlanIds(r.plan)
    ensures StatusIn(r, id, Skipped) || StatusIn(r, id, Succeeded) || Broke(r, id)
    ensures forall d :: d in UnitWithId(r.plan, id).dependencies && !StatusIn(r, d, Succeeded) ==> StatusIn(r, id, Skipped)
  {
    hide FindUnit, UnitWithId, Aligned;
  }

  lemma {:induction false} BrokenAncestorSkips(r: Run, p: seq<UnitId>)
    requires RanSafely(r) && IsPath(DependencyGraph(r.plan), p) && |p| >= 2 && Broke(r, p[|p| - 1])
    ensures p[0] in PlanIds(r.plan) && StatusIn(r, p[0], Skipped)
    decreases |p|
  {
    hide FindUnit, UnitWithId, RanSafely, IsPath, DependencyGraph;
    PathStart(r.plan, p);
    if |p| > 2 {
      BrokenAncestorSkips(r, p[1..]);
    }
    assert !StatusIn(r, p[1], Succeeded);
    SkippedOrSucceeded(r, p[0]);
  }

  lemma PathExtends(plan: Plan, id: UnitId, q: seq<UnitId>)
    requires id in PlanIds(plan) && IsPath(DependencyGraph(plan), q) && q[0] in UnitWithId(plan, id).dependencies
    ensures IsPath(DependencyGraph(plan), [id] + q)
  {
    hide UnitWithId, DependencyGraph;
    Linked(plan, id, q[0]);
  }

  lemma {:induction false} CausesLeadToBroken(r: Run, id: UnitId) returns (p: seq<UnitId>)
    requires RanSafely(r) && Accepted(r.plan) && SkipsHaveCause(r)
    requires id in PlanIds(r.plan) && StatusIn(r, id, Skipped)
    ensures IsPath(DependencyGraph(r.plan), p) && |p| >= 2 && p[0] == id && Broke(r, p[|p| - 1])
    decreases Rank(DependencyGraph(r.plan), id)
  {
    hide FindUnit, UnitWithId, Rank, Accepted, RanSafely, DependencyGraph, Broke, StatusIn;
    assert Blocked(r, id);
    var d :| d in UnitWithId(r.plan, id).dependencies && !StatusIn(r, d, Succeeded);
    DependenciesDescend(r.plan, id, d);
    SkippedOrSucceeded(r, d);
    var q := [d];
    if !Broke(r, d) {
      q := CausesLeadToBroken(r, d);
    }
    PathExtends(r.plan, id, q);
    p := [id] + q;
  }

  // In a run that ran safely the closed form holds exactly when every skip still has a cause.
  lemma ClosedFormIff(r: Run)
    requires RanSafely(r) && Accepted(r.plan)
    ensures ClosedForm(r) <==> SkipsHaveCause(r)
  {
    hide FindUnit, UnitWithId, Rank, Accepted, RanSafely, IsPath, Broke, StatusIn;
    if ClosedForm(r) {
      forall id | id in PlanIds(r.plan) && StatusIn(r, id, Skipped)
        ensures Blocked(r, id)
      {
        var p :| IsPath(DependencyGraph(r.plan), p) && |p| >= 2 && p[0] == id && Broke(r, p[|p| - 1]);
        BelowIsBlocked(r, p);
      }
    }
    if SkipsHaveCause(r) {
      forall id | id in PlanIds(r.plan)
        ensures StatusIn(r, id, Skipped) <==> BelowBroken(r, id)
      {
        if StatusIn(r, id, Skipped) {
          var p := CausesLeadToBroken(r, id);
        }
        if p :| IsPath(DependencyGraph(r.plan), p) && |p| >= 2 && p[0] == id && Broke(r, p[|p| - 1]) {
          BrokenAncestorSkips(r, p);
        }
      }
    }
  }

  lemma BelowIsBlocked(r: Run, p: seq<UnitId>)
    requires RanSafely(r) && IsPath(DependencyGraph(r.plan), p) && |p| >= 2 && Broke(r, p[|p| - 1])
    ensures p[0] in PlanIds(r.plan) && Blocked(r, p[0])
  {
    hide FindUnit, UnitWithId, RanSafely, IsPath, DependencyGraph;
    PathStart(r.plan, p);
    if |p| > 2 {
      BrokenAncestorSkips(r, p[1..]);
    }
    assert !StatusIn(r, p[1], Succeeded);
  }

  // ----- every finished run, whatever its history

  lemma NoConditionsAt(plan: Plan, id: UnitId)
    requires NoConditions(plan) && id in PlanIds(plan)
    ensures UnitWithId(plan, id).declaration.conditions == []
    ensures forall d :: !HasUpstreamCondition(UnitWithId(plan, id), d)
  {
  }

  // A unit that was attempted has all its dependencies succeeded.
  lemma AttemptedOnSuccess(run: Run, restarts: nat, id: UnitId, d: UnitId)
    requires UnitsFit(run, restarts) && NoConditions(run.plan) && id in PlanIds(run.plan)
    requires FindUnit(run.units, id).Some? && UnitOf(run, id).attempts != []
    requires d in UnitWithId(run.plan, id).dependencies
    ensures StatusIn(run, d, Succeeded)
  {
    hide FindUnit, UnitWithId, NoConditions;
    FitUnit(run, restarts, id);
    NoConditionsAt(run.plan, id);
    assert SucceededIn(run, d);
  }

  lemma FinishedUnit(run: Run, id: UnitId)
    requires Aligned(run) && Coherent(run) && Finished(run.status) && AllTold(run) && id in PlanIds(run.plan)
    ensures Ran(run, id) || StatusIn(run, id, Skipped)
    ensures Ran(run, id) ==> UnitOf(run, id).attempts != []
  {
    hide FindUnit, UnitWithId, TimedOutOnce, ResolveInputs, WasSettled;
    FindPlanned(run, id);
    assert Told(run, UnitOf(run, id));
    assert Allowed(run.status, UnitOf(run, id));
  }

  // Whatever its history, restarts included: in a finished run of a plan without conditions the
  // transitive dependents of failed and timed-out units are skipped, every other unit was attempted,
  // and the skipped units are exactly those dependents if and only if every skip still has a cause.
  lemma FinishedPropagation(w: World, s: Stored, id: UnitId)
    requires Reachable(w, s) && Finished(s.run.status) && NoConditions(s.run.plan) && Accepted(s.run.plan)
    requires id in PlanIds(s.run.plan)
    ensures BelowBroken(s.run, id) ==> StatusIn(s.run, id, Skipped)
    ensures !StatusIn(s.run, id, Skipped) ==> FindUnit(s.run.units, id).Some? && UnitOf(s.run, id).attempts != []
    ensures ClosedForm(s.run) <==> SkipsHaveCause(s.run)
  {
    hide Reachable, FindUnit, RanSafely, ClosedForm, SkipsHaveCause, Accepted, NoConditions, IsPath, UnitsFit,
      Restarts, Coherent, AllTold;
    FinishedRanSafely(w, s);
    ClosedFormIff(s.run);
    ReachableFits(w, s);
    ReachableTold(w, s);
    FitAligned(s.run, Restarts(s.log));
    FinishedUnit(s.run, id);
    if p :| IsPath(DependencyGraph(s.run.plan), p) && |p| >= 2 && p[0] == id && Broke(s.run, p[|p| - 1]) {
      BrokenAncestorSkips(s.run, p);
    }
  }

  lemma FinishedRanSafely(w: World, s: Stored)
    requires Reachable(w, s) && Finished(s.run.status) && NoConditions(s.run.plan)
    ensures RanSafely(s.run)
  {
    hide Reachable, FindUnit, NoConditions, UnitsFit, Restarts, Coherent, AllTold, UnitWithId, PlanIds, Ran;
    ReachableFits(w, s);
    ReachableTold(w, s);
    FitAligned(s.run, Restarts(s.log));
    forall id | id in PlanIds(s.run.plan)
      ensures Ran(s.run, id) || StatusIn(s.run, id, Skipped)
      ensures Ran(s.run, id) ==> FindUnit(s.run.units, id).Some? && UnitOf(s.run, id).attempts != []
    {
      FindPlanned(s.run, id);
      FinishedUnit(s.run, id);
    }
    forall id, d | id in PlanIds(s.run.plan) && d in UnitWithId(s.run.plan, id).dependencies && Ran(s.run, id)
      ensures StatusIn(s.run, d, Succeeded)
    {
      AttemptedOnSuccess(s.run, Restarts(s.log), id, d);
    }
  }

  // ----- what a restart does to the closed form

  ghost predicate FailedForGood(run: Run, id: UnitId) {
    StatusIn(run, id, Failed) && UnitOf(run, id).nextRetryAt.None?
  }

  // A dependency whose state will outlive a restart already justifies the skip.
  ghost predicate Justified(run: Run, id: UnitId)
    requires id in PlanIds(run.plan)
  {
    exists d :: d in UnitWithId(run.plan, id).dependencies && (StatusIn(run, d, Skipped) || FailedForGood(run, d))
  }

  // A crashed run of a plan without conditions.
  ghost predicate Crashed(w: World, s: Stored) {
    Reachable(w, s) && s.run.status == RunningRun && NoConditions(s.run.plan) && Accepted(s.run.plan)
  }

  lemma CrashFacts(w: World, s: Stored)
    requires Crashed(w, s)
    ensures UnitsFit(s.run, Restarts(s.log)) && Aligned(s.run) && AllTold(s.run) && Coherent(s.run)
    ensures Resumable(RecoverRun(s.run)) && RecoverRun(s.run).plan == s.run.plan && RecoverRun(s.run).inputs == s.run.inputs
  {
    hide Reachable, UnitsFit, AllTold, Coherent, Restarts, NoConditions, Accepted, AtRest, SummarizeProgress,
      ResolveOutputs;
    ReachableFits(w, s);
    FitAligned(s.run, Restarts(s.log));
    ReachableTold(w, s);
    RecoveredAtRest(w, s);
  }

  // A unit before and after recovery.
  lemma RecoveredState(w: World, s: Stored, id: UnitId)
    requires Crashed(w, s) && id in PlanIds(s.run.plan)
    ensures Resumable(RecoverRun(s.run)) && RecoverRun(s.run).plan == s.run.plan && FindUnit(s.run.units, id).Some?
    ensures StateOf(RecoverRun(s.run), id) == RecoverUnit(UnitOf(s.run, id))
    ensures var u := UnitOf(s.run, id);
            && Sound(u) && Told(s.run, u) && u.status != Canceled && u.unitId == id
            && (u.attempts != [] ==> forall d :: d in UnitWithId(s.run.plan, id).dependencies ==> StatusIn(s.run, d, Succeeded))
  {
    hide Reachable, UnitsFit, AllTold, Coherent, Restarts, NoConditions, Accepted, AtRest, FindUnit, UnitWithId, Told,
      RecoverUnit, Crashed;
    CrashFacts(w, s);
    FindPlanned(s.run, id);
    FindMapped(s.run.units, RecoverUnit, id) by {
      KeepsIds(s.run.units);
    }
    RecoveredUnits(s.run);
    FitUnit(s.run, Restarts(s.log), id);
    CrashedUnit(s.run, UnitOf(s.run, id));
    CrashedStatus(w, s);
    if UnitOf(s.run, id).attempts != [] {
      forall d | d in UnitWithId(s.run.plan, id).dependencies {
        AttemptedOnSuccess(s.run, Restarts(s.log), id, d);
      }
    }
  }

  lemma KeepsIds(units: seq<UnitState>)
    ensures forall u :: u in units ==> RecoverUnit(u).unitId == u.unitId
  {
  }

  lemma RecoveredUnits(run: Run)
    ensures RecoverRun(run).units == MapUnits(run.units, RecoverUnit)
  {
  }

  lemma CrashedStatus(w: World, s: Stored)
    requires Crashed(w, s)
    ensures s.run.status == RunningRun && NoConditions(s.run.plan)
  {
  }

  lemma CrashedUnit(run: Run, u: UnitState)
    requires AllTold(run) && Coherent(run) && u in run.units
    ensures Told(run, u) && (run.status == RunningRun ==> u.status != Canceled)
  {
    hide Told;
    assert Allowed(run.status, u);
  }

  // What recovery keeps settled.
  lemma KeptOrReset(u: UnitState)
    requires Sound(u) && u.status != Canceled
    ensures Settled(RecoverUnit(u)) <==> u.status == Succeeded || u.status == Skipped || (u.status == Failed && u.nextRetryAt.None?)
    ensures Settled(RecoverUnit(u)) ==> RecoverUnit(u).status == u.status && |RecoverUnit(u).attempts| == |u.attempts|
  {
  }

  // How a unit ends: as it was, or decided anew on the final states of its dependencies.
  ghost predicate EndsFrom(w: World, r: Run, id: UnitId, u: UnitState)
    requires id in PlanIds(r.plan)
  {
    && FindUnit(r.units, id).Some?
    && (Settled(u) ==> UnitOf(r, id) == u)
    && (!Settled(u) ==> if Blocked(r, id) then UnitOf(r, id).status == Skipped
                        else FollowsOracle(w, r, UnitWithId(r.plan, id), |u.attempts|, UnitOf(r, id)))
  }

  // A unit of a crashed run that was recovered and carried on.
  lemma CarriedUnit(w0: World, s: Stored, w: World, initial: Run, r: Run, id: UnitId)
    requires Crashed(w0, s) && initial == RecoverRun(s.run) && AtRest(initial) && CarriedOut(w, initial, r)
    requires id in PlanIds(s.run.plan)
    ensures r.plan == s.run.plan && Aligned(r) && FindUnit(s.run.units, id).Some?
    ensures EndsFrom(w, r, id, RecoverUnit(UnitOf(s.run, id)))
  {
    hide Reachable, NoConditions, Accepted, AtRest, FindUnit, UnitWithId, Told, RecoverUnit, Crashed, CarriedOut,
      RecoverRun, FollowsOracle, Settled, Blocked;
    RecoveredState(w0, s, id);
    CrashedStatus(w0, s);
    CarriedAt(w, initial, r, id);
    if !Settled(RecoverUnit(UnitOf(s.run, id))) {
      NoConditionsAt(initial.plan, id);
      CarriedDecision(w, initial, r, id);
    }
  }

  lemma CarriedAt(w: World, initial: Run, r: Run, id: UnitId)
    requires Resumable(initial) && CarriedOut(w, initial, r) && id in PlanIds(initial.plan)
    ensures r.plan == initial.plan && Aligned(r) && FindUnit(r.units, id) == Some(StateOf(r, id))
    ensures Settled(StateOf(initial, id)) ==> StateOf(r, id) == StateOf(initial, id)
  {
    hide Accepted, AtRest, FindUnit, UnitWithId, FinalizeRun, AllSettled, Settled, Meaning;
    FinalStateSolves(w, initial, r, id);
  }

  lemma CarriedDecision(w: World, initial: Run, r: Run, id: UnitId)
    requires Resumable(initial) && CarriedOut(w, initial, r) && id in PlanIds(initial.plan) && !Settled(StateOf(initial, id))
    requires UnitWithId(initial.plan, id).declaration.conditions == []
    ensures r.plan == initial.plan && Aligned(r)
    ensures if Blocked(r, id) then StateOf(r, id).status == Skipped
            else FollowsOracle(w, r, UnitWithId(r.plan, id), |StateOf(initial, id).attempts|, StateOf(r, id))
  {
    hide Accepted, AtRest, FindUnit, UnitWithId, FinalizeRun, AllSettled, Settled, FollowsOracle, Decide;
    FinalStateSolves(w, initial, r, id);
    forall d | d in UnitWithId(r.plan, id).dependencies
      ensures FindUnit(r.units, d).Some? && Settled(FindUnit(r.units, d).value)
    {
      DependenciesDescend(r.plan, id, d);
      assert StateOf(r, d) == Meaning(w, initial, d);
    }
    NoConditionsDecision(r, UnitWithId(r.plan, id));
  }

  // The statuses a unit may end in.
  lemma EndsRanOrSkipped(w: World, r: Run, id: UnitId, u: UnitState, restored: UnitState)
    requires id in PlanIds(r.plan) && EndsFrom(w, r, id, u)
    requires Sound(restored) && restored.status != Canceled && u == RecoverUnit(restored)
    ensures Ran(r, id) || StatusIn(r, id, Skipped)
    ensures Ran(r, id) && !Settled(u) ==> !Blocked(r, id)
    ensures Ran(r, id) && Settled(u) ==> Ended(restored)
    ensures StatusIn(r, id, Skipped) && Settled(u) ==> restored.status == Skipped
    ensures StatusIn(r, id, Skipped) && !Settled(u) ==> Blocked(r, id)
  {
    hide FindUnit, UnitWithId, OutcomeOfAttempt, Settled, RecoverUnit, Blocked;
    KeptOrReset(restored);
  }

  lemma CarriedRanSafely(w0: World, s: Stored, w: World, initial: Run, r: Run)
    requires Crashed(w0, s) && initial == RecoverRun(s.run) && AtRest(initial) && CarriedOut(w, initial, r)
    ensures r.plan == s.run.plan && Accepted(r.plan) && RanSafely(r)
  {
    hide Reachable, NoConditions, AtRest, FindUnit, UnitWithId, Told, RecoverUnit, CarriedOut, RecoverRun, Settled,
      Blocked, EndsFrom, Ran, StatusIn, Accepted;
    CarriedPlan(w, initial, r);
    CrashFacts(w0, s);
    forall id | id in PlanIds(r.plan)
      ensures Ran(r, id) || StatusIn(r, id, Skipped)
      ensures Ran(r, id) ==> forall d :: d in UnitWithId(r.plan, id).dependencies ==> StatusIn(r, d, Succeeded)
    {
      CarriedUnit(w0, s, w, initial, r, id);
      RecoveredState(w0, s, id);
      var u := UnitOf(s.run, id);
      EndsRanOrSkipped(w, r, id, RecoverUnit(u), u);
      if Ran(r, id) {
        RanOnSuccess(w0, s, w, initial, r, id);
      }
    }
  }

  lemma CarriedPlan(w: World, initial: Run, r: Run)
    requires AtRest(initial) && CarriedOut(w, initial, r)
    ensures r.plan == initial.plan && Aligned(r)
  {
  }

  lemma NotBlocked(r: Run, id: UnitId, d: UnitId)
    requires id in PlanIds(r.plan) && !Blocked(r, id) && d in UnitWithId(r.plan, id).dependencies
    ensures StatusIn(r, d, Succeeded)
  {
    hide FindUnit, UnitWithId;
  }

  lemma SuccessCarried(w0: World, s: Stored, w: World, initial: Run, r: Run, d: UnitId)
    requires Crashed(w0, s) && initial == RecoverRun(s.run) && AtRest(initial) && CarriedOut(w, initial, r)
    requires StatusIn(s.run, d, Succeeded)
    ensures StatusIn(r, d, Succeeded) && UnitOf(r, d).outputs == UnitOf(s.run, d).outputs
  {
    hide Reachable, NoConditions, AtRest, FindUnit, UnitWithId, Told, CarriedOut, RecoverRun, Blocked, Crashed,
      FollowsOracle;
    CrashFacts(w0, s);
    FindPlanned(s.run, d);
    CarriedUnit(w0, s, w, initial, r, d);
    RecoveredState(w0, s, d);
    KeptOrReset(UnitOf(s.run, d));
  }

  lemma RanOnSuccess(w0: World, s: Stored, w: World, initial: Run, r: Run, id: UnitId)
    requires Crashed(w0, s) && initial == RecoverRun(s.run) && AtRest(initial) && CarriedOut(w, initial, r)
    requires r.plan == s.run.plan && id in PlanIds(r.plan) && Ran(r, id)
    ensures forall d :: d in UnitWithId(r.plan, id).dependencies ==> StatusIn(r, d, Succeeded)
  {
    hide Reachable, NoConditions, AtRest, FindUnit, UnitWithId, RecoverUnit, CarriedOut, RecoverRun, Settled, Blocked,
      EndsFrom, Ran, StatusIn, Accepted, InputsResolve, WasSettled, TimedOutOnce;
    CarriedUnit(w0, s, w, initial, r, id);
    RecoveredState(w0, s, id);
    var u := UnitOf(s.run, id);
    EndsRanOrSkipped(w, r, id, RecoverUnit(u), u);
    forall d | d in UnitWithId(r.plan, id).dependencies
      ensures StatusIn(r, d, Succeeded)
    {
      if Settled(RecoverUnit(u)) {
        SuccessCarried(w0, s, w, initial, r, d);
      } else {
        NotBlocked(r, id, d);
      }
    }
  }

  // A skip that is justified before the restart has its cause after it.
  lemma JustifiedHasCause(w0: World, s: Stored, w: World, initial: Run, r: Run, id: UnitId)
    requires Crashed(w0, s) && initial == RecoverRun(s.run) && AtRest(initial) && CarriedOut(w, initial, r)
    requires id in PlanIds(s.run.plan) && Justified(s.run, id)
    ensures r.plan == s.run.plan && Blocked(r, id)
  {
    hide Reachable, NoConditions, AtRest, FindUnit, UnitWithId, Told, CarriedOut, RecoverRun, Crashed, FollowsOracle;
    CrashFacts(w0, s);
    CarriedPlan(w, initial, r);
    var d :| d in UnitWithId(s.run.plan, id).dependencies && (StatusIn(s.run, d, Skipped) || FailedForGood(s.run, d));
    FindPlanned(s.run, d);
    CarriedUnit(w0, s, w, initial, r, d);
    RecoveredState(w0, s, d);
    KeptOrReset(UnitOf(s.run, d));
    assert !StatusIn(r, d, Succeeded);
  }

  // ----- the run that its meaning describes

  ghost function MeantUnits(w: World, run: Run): (r: seq<UnitState>)
    requires Resumable(run)
  {
    hide FindUnit, UnitWithId, Accepted, Meaning, Sound, InFlight;
    seq(|run.plan.units|, i requires 0 <= i < |run.plan.units| =>
      assert PlanIds(run.plan)[i] == run.plan.units[i].Id();
      Meaning(w, run, run.plan.units[i].Id()))
  }

  ghost function MeantRun(w: World, run: Run): Run
    requires Resumable(run)
  {
    FinalizeRun(run.(units := MeantUnits(w, run), status := RunningRun))
  }

  lemma MeantAt(w: World, run: Run, i: nat)
    requires Resumable(run) && i < |run.plan.units|
    ensures |MeantUnits(w, run)| == |run.plan.units|
    ensures PlanIds(run.plan)[i] == run.plan.units[i].Id() && MeantUnits(w, run)[i] == Meaning(w, run, PlanIds(run.plan)[i])
    ensures MeantUnits(w, run)[i].unitId == PlanIds(run.plan)[i] && Settled(MeantUnits(w, run)[i])
  {
    hide FindUnit, UnitWithId, Accepted, Sound, InFlight, Meaning, Settled;
  }

  // The run carried on always has an end.
  lemma MeantRunIsCarriedOut(w: World, run: Run)
    requires Resumable(run)
    ensures CarriedOut(w, run, MeantRun(w, run))
  {
    hide FindUnit, UnitWithId, Accepted, Sound, InFlight, Meaning, Settled, MeantUnits, FinalizeRun, AtRest;
    var x := run.(units := MeantUnits(w, run), status := RunningRun);
    var r := MeantRun(w, run);
    forall i | 0 <= i < |run.plan.units| {
      MeantAt(w, run, i);
    }
    MeantLength(w, run);
    assert UnitIds(r.units) == PlanIds(run.plan) by {
      FinalizeAgain(x);
    }
    FinalizeAgain(x);
    OutcomeOf(x);
    MeantAligned(run, r);
    forall id | id in PlanIds(r.plan)
      ensures StateOf(r, id) == Meaning(w, run, id)
    {
      var i :| 0 <= i < |PlanIds(run.plan)| && PlanIds(run.plan)[i] == id;
      FindAt(r.units, i);
    }
  }

  lemma MeantLength(w: World, run: Run)
    requires Resumable(run)
    ensures |MeantUnits(w, run)| == |run.plan.units| == |PlanIds(run.plan)|
  {
    hide FindUnit, UnitWithId, Accepted, Sound, InFlight, Meaning, Settled;
  }

  lemma MeantAligned(run: Run, r: Run)
    requires AtRest(run) && r.plan == run.plan && UnitIds(r.units) == PlanIds(run.plan)
    ensures Aligned(r) && Distinct(UnitIds(r.units))
  {
  }

  // ----- exactly when a restart keeps the closed form

  // A world in which everything resolves and every execution succeeds.
  const ALL_SUCCEED := World(
    (_, _, _) => None,
    _ => ExecutorResult(OutcomeSucceeded, None, map[], [], []),
    (_, _, _) => 0)

  lemma OutputsCarried(w0: World, s: Stored, w: World, initial: Run, r: Run)
    requires Crashed(w0, s) && initial == RecoverRun(s.run) && AtRest(initial) && CarriedOut(w, initial, r)
    ensures KeepsOutputs(s.run, r)
  {
    hide Crashed, FindUnit, RecoverRun, AtRest, CarriedOut;
    CrashFacts(w0, s);
    CarriedInputs(w, initial, r);
    forall id | StatusIn(s.run, id, Succeeded) {
      SuccessCarried(w0, s, w, initial, r, id);
    }
  }

  lemma CarriedInputs(w: World, initial: Run, r: Run)
    requires AtRest(initial) && CarriedOut(w, initial, r)
    ensures r.inputs == initial.inputs
  {
  }

  lemma OracleSucceeds(r: Run, pu: PlanUnit, done: nat, u: UnitState)
    requires InputsResolve(r, pu) && FollowsOracle(ALL_SUCCEED, r, pu, done, u)
    ensures u.status == Succeeded
  {
    hide ResolveInputs, AllowsMore;
    assert EndsAs(OutcomeOfAttempt(ALL_SUCCEED, r, pu, |u.attempts|), pu, u);
  }

  // A unit that timed out before the restart, and is not kept as skipped or failed, succeeds after it
  // when every execution does.
  lemma ResetSucceeds(w0: World, s: Stored, initial: Run, r: Run, id: UnitId)
    requires Crashed(w0, s) && initial == RecoverRun(s.run) && AtRest(initial) && CarriedOut(ALL_SUCCEED, initial, r)
    requires id in PlanIds(s.run.plan) && FindUnit(s.run.units, id).Some? && TimedOutOnce(UnitOf(s.run, id))
    requires !StatusIn(s.run, id, Skipped) && !FailedForGood(s.run, id)
    ensures StatusIn(r, id, Succeeded)
  {
    hide Crashed, FindUnit, RecoverRun, AtRest, CarriedOut, UnitWithId, ResolveInputs, FollowsOracle, RecoverUnit;
    if StatusIn(s.run, id, Succeeded) {
      SuccessCarried(w0, s, ALL_SUCCEED, initial, r, id);
    } else {
      RecoveredState(w0, s, id);
      CarriedUnit(w0, s, ALL_SUCCEED, initial, r, id);
      var u, pu := UnitOf(s.run, id), UnitWithId(s.run.plan, id);
      KeptOrReset(u);
      forall d | d in pu.dependencies
        ensures StatusIn(r, d, Succeeded)
      {
        SuccessCarried(w0, s, ALL_SUCCEED, initial, r, d);
      }
      OutputsCarried(w0, s, ALL_SUCCEED, initial, r);
      ResolvedKept(s.run, r, pu, pu.declaration.inputs);
      OracleSucceeds(r, pu, |RecoverUnit(u).attempts|, UnitOf(r, id));
    }
  }

  // A skip that nothing lasting justifies has no cause left when every execution succeeds.
  lemma UnjustifiedLosesCause(w0: World, s: Stored, initial: Run, r: Run, id: UnitId)
    requires Crashed(w0, s) && initial == RecoverRun(s.run) && AtRest(initial) && CarriedOut(ALL_SUCCEED, initial, r)
    requires id in PlanIds(s.run.plan) && StatusIn(s.run, id, Skipped) && !Justified(s.run, id)
    ensures r.plan == s.run.plan && StatusIn(r, id, Skipped) && !Blocked(r, id)
  {
    hide Crashed, FindUnit, RecoverRun, AtRest, CarriedOut, UnitWithId, ResolveInputs, FollowsOracle, RecoverUnit,
      TimedOutOnce;
    CrashFacts(w0, s);
    CarriedPlan(ALL_SUCCEED, initial, r);
    RecoveredState(w0, s, id);
    CarriedUnit(w0, s, ALL_SUCCEED, initial, r, id);
    KeptOrReset(UnitOf(s.run, id));
    forall d | d in UnitWithId(s.run.plan, id).dependencies
      ensures StatusIn(r, d, Succeeded)
    {
      assert FindUnit(s.run.units, d).Some? && WasSettled(UnitOf(s.run, d));
      assert !StatusIn(s.run, d, Skipped) && !FailedForGood(s.run, d);
      FindPlanned(s.run, d);
      RecoveredState(w0, s, d);
      if StatusIn(s.run, d, Succeeded) {
        SuccessCarried(w0, s, ALL_SUCCEED, initial, r, d);
      } else {
        ResetSucceeds(w0, s, initial, r, d);
      }
    }
  }

  ghost predicate EverySkipJustified(run: Run) {
    forall id :: id in PlanIds(run.plan) && StatusIn(run, id, Skipped) ==> Justified(run, id)
  }

  // However the recovered run is carried on, it ends in the closed form.
  ghost predicate AlwaysClosed(initial: Run)
    requires AtRest(initial)
  {
    forall w: World, r: Run :: CarriedOut(w, initial, r) ==> ClosedForm(r)
  }

  // A restart keeps the closed form, whatever the executor answers afterwards, exactly when each
  // skipped unit of the crashed run has a dependency that was skipped or has failed for good.
  lemma RestartKeepsClosedFormIff(w0: World, s: Stored)
    requires Crashed(w0, s)
    ensures AtRest(RecoverRun(s.run))
    ensures AlwaysClosed(RecoverRun(s.run)) <==> EverySkipJustified(s.run)
  {
    hide Crashed, RecoverRun, AtRest, CarriedOut, ClosedForm, Justified, Accepted, RanSafely, StatusIn, AllTold,
      UnitsFit, Coherent, Restarts, Blocked;
    CrashFacts(w0, s);
    var initial := RecoverRun(s.run);
    if EverySkipJustified(s.run) {
      forall w: World, r: Run | CarriedOut(w, initial, r)
        ensures ClosedForm(r)
      {
        JustifiedGivesClosedForm(w0, s, w, initial, r);
      }
    } else {
      var id :| id in PlanIds(s.run.plan) && StatusIn(s.run, id, Skipped) && !Justified(s.run, id);
      var r := MeantRun(ALL_SUCCEED, initial);
      MeantRunIsCarriedOut(ALL_SUCCEED, initial);
      UnjustifiedLosesCause(w0, s, initial, r, id);
      CarriedRanSafely(w0, s, ALL_SUCCEED, initial, r);
      ClosedFormIff(r);
      assert !SkipsHaveCause(r);
    }
  }

  lemma JustifiedGivesClosedForm(w0: World, s: Stored, w: World, initial: Run, r: Run)
    requires Crashed(w0, s) && initial == RecoverRun(s.run) && AtRest(initial) && CarriedOut(w, initial, r)
    requires EverySkipJustified(s.run)
    ensures ClosedForm(r)
  {
    hide Crashed, FindUnit, RecoverRun, AtRest, CarriedOut, UnitWithId, ClosedForm, Accepted, RanSafely, FollowsOracle,
      Blocked, EndsFrom, Told, RecoverUnit;
    CarriedRanSafely(w0, s, w, initial, r);
    ClosedFormIff(r);
    forall id | id in PlanIds(r.plan) && StatusIn(r, id, Skipped)
      ensures Blocked(r, id)
    {
      CarriedUnit(w0, s, w, initial, r, id);
      RecoveredState(w0, s, id);
      var u := UnitOf(s.run, id);
      EndsRanOrSkipped(w, r, id, RecoverUnit(u), u);
      if Settled(RecoverUnit(u)) {
        JustifiedHasCause(w0, s, w, initial, r, id);
      }
    }
  }
}

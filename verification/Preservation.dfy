// Skipping, executing and waking a unit each leave the meaning of the whole run as it was.

module Preservation {
  import opened Basics
  import opened Graphs
  import opened Plans
  import opened RunState
  import opened Decision
  import opened SkipFixpoint
  import opened Dispatch
  import opened Semantics

  function ReadyRun(run: Run, u: UnitState): Run {
    ReplaceUnit(run, ReadyUnit(u))
  }

  function DispatchedRun(run: Run, u: UnitState): Run {
    ReplaceUnit(ReadyRun(run, u), RunningUnit(ReadyUnit(u)))
  }

  function CompletedRun(w: World, run: Run, pu: PlanUnit, running: UnitState, number: nat, result: ExecutorResult): Run {
    ReplaceUnit(AppendPayloads(run, result.logs, result.artifacts), CompletedUnit(w, run.runId, pu, running, number, result))
  }

  // The run after one whole attempt of unit u.
  function ExecutedRun(w: World, run: Run, pu: PlanUnit, u: UnitState): Run {
    var number := NextAttemptNumber(u.attempts);
    var dispatched := DispatchedRun(run, u);
    CompletedRun(w, dispatched, pu, RunningUnit(ReadyUnit(u)), number, AttemptResult(w, dispatched, pu, number))
  }

  // Both runs are resumable and mean the same.
  ghost predicate SameMeaning(w: World, a: Run, b: Run) {
    && Resumable(a) && Resumable(b) && a.plan == b.plan
    && forall id :: id in PlanIds(a.plan) ==> Meaning(w, a, id) == Meaning(w, b, id)
  }

  // `b` is `a` with one unit's state replaced.
  ghost predicate Replaced(a: Run, b: Run, next: UnitState) {
    a.runId == b.runId && a.plan == b.plan && a.inputs == b.inputs && b.units == ReplaceIn(a.units, next)
  }

  lemma ReplacedSameBut(a: Run, b: Run, next: UnitState)
    requires Replaced(a, b, next)
    ensures SameBut(a, b, next.unitId)
    ensures FindUnit(a.units, next.unitId).Some? ==> FindUnit(b.units, next.unitId) == Some(next)
    ensures Aligned(a) ==> Aligned(b)
  {
    hide FindUnit, ReplaceIn;
    ReplaceIds(a.units, next);
    forall id
      ensures FindUnit(b.units, id)
              == if id == next.unitId && FindUnit(a.units, id).Some? then Some(next) else FindUnit(a.units, id)
    {
      FindReplaced(a.units, next, id);
    }
  }

  lemma ReplacedAtRest(a: Run, b: Run, next: UnitState)
    requires Replaced(a, b, next) && AtRest(a) && Sound(next) && !InFlight(next)
    ensures AtRest(b)
  {
    hide FindUnit, ReplaceIn, Sound;
    ReplacedSameBut(a, b, next);
    ReplaceMembers(a.units, next);
  }

  // Replacing a unit without changing what it means does not change what any unit means.
  lemma ReplacedSameMeaning(w: World, a: Run, b: Run, next: UnitState)
    requires Resumable(a) && Resumable(b) && Replaced(a, b, next) && next.unitId in PlanIds(a.plan)
    requires Meaning(w, a, next.unitId) == Meaning(w, b, next.unitId)
    ensures SameMeaning(w, a, b)
  {
    hide FindUnit, UnitWithId, Accepted, Sound, Meaning, AtRest;
    ReplacedSameBut(a, b, next);
    forall id | id in PlanIds(a.plan)
      ensures Meaning(w, a, id) == Meaning(w, b, id)
    {
      MeaningSame(w, a, b, next.unitId, id);
    }
  }

  lemma ReplaceExtends(a: Run, b: Run, next: UnitState)
    requires Replaced(a, b, next)
    requires FindUnit(a.units, next.unitId).Some? && !Fixed(FindUnit(a.units, next.unitId).value)
    ensures Extends(a, b)
  {
    hide FindUnit, ReplaceIn, Fixed;
    ReplacedSameBut(a, b, next);
  }

  lemma SkipReplaces(run: Run, skip: SkipRecord)
    requires Skips(run, skip)
    ensures Replaced(run, ApplySkip(run, skip), SkippedUnit(FindUnit(run.units, skip.unitId).value, skip.reason))
  {
    hide FindUnit, Decide, SummarizeProgress, ResolveOutputs, ReplaceIn;
  }

  lemma SkipKeepsMeaning(w: World, run: Run, skip: SkipRecord)
    requires Resumable(run) && Skips(run, skip)
    ensures SameMeaning(w, run, ApplySkip(run, skip))
  {
    hide FindUnit, UnitWithId, Accepted, Meaning, ApplySkip, Decide, Sound, Settled, Rank;
    var id := skip.unitId;
    var u, next := StateOf(run, id), ApplySkip(run, skip);
    SkipReplaces(run, skip);
    AtRestUnit(run, id);
    SkippedIsSound(u, skip.reason);
    ReplacedAtRest(run, next, SkippedUnit(u, skip.reason));
    ReplacedSameBut(run, next, SkippedUnit(u, skip.reason));
    MeaningIs(w, run, id);
    DecidedView(w, run, id);
    MeaningIs(w, next, id);
    ReplacedSameMeaning(w, run, next, SkippedUnit(u, skip.reason));
  }

  lemma SkippedIsSound(u: UnitState, reason: SkipReason)
    requires Sound(u) && u.status == Pending
    ensures !Settled(u) && Awake(u) == u
    ensures Sound(SkippedUnit(u, reason)) && !InFlight(SkippedUnit(u, reason)) && Settled(SkippedUnit(u, reason))
  {
  }

  lemma ExecutedReplaces(w: World, run: Run, pu: PlanUnit, u: UnitState)
    requires u.unitId == pu.Id()
    ensures Replaced(run, ExecutedRun(w, run, pu, u), Attempted(w, DispatchedRun(run, u), pu, u))
    ensures Replaced(run, DispatchedRun(run, u), RunningUnit(ReadyUnit(u)))
    ensures ExecutedRun(w, run, pu, u).status == run.status
  {
    hide AttemptResult, NextAttemptNumber, SummarizeProgress, ResolveOutputs;
    var ready, running := ReadyUnit(u), RunningUnit(ReadyUnit(u));
    var after := Attempted(w, DispatchedRun(run, u), pu, u);
    ReplaceTwice(run.units, ready, running);
    ReplaceTwice(run.units, running, after);
  }

  lemma ReplaceTwice(units: seq<UnitState>, a: UnitState, b: UnitState)
    requires a.unitId == b.unitId
    ensures ReplaceIn(ReplaceIn(units, a), b) == ReplaceIn(units, b)
  {
  }

  lemma NotOwnDependency(plan: Plan, id: UnitId)
    requires Accepted(plan) && id in PlanIds(plan)
    ensures id !in UnitWithId(plan, id).dependencies
  {
    hide UnitWithId, Accepted, Rank;
    if id in UnitWithId(plan, id).dependencies {
      DependenciesDescend(plan, id, id);
    }
  }

  // Dispatching a unit does not disturb the inputs it resolves, nor does viewing only its
  // dependencies' final states.
  lemma AttemptedInView(w: World, run: Run, id: UnitId)
    requires Resumable(run) && id in PlanIds(run.plan)
    requires Decide(run, UnitWithId(run.plan, id)) == ReadyToRun
    ensures var u, pu := StateOf(run, id), UnitWithId(run.plan, id);
            Attempted(w, DispatchedRun(run, u), pu, u) == Attempted(w, DependencyView(w, run, id), pu, u)
  {
    hide FindUnit, UnitWithId, Accepted, Meaning, Decide, Sound, Settled, ReadyUnit, RunningUnit, DispatchedRun,
      CompletedUnit, ResolveInputs;
    var u, pu := StateOf(run, id), UnitWithId(run.plan, id);
    var dispatched, view := DispatchedRun(run, u), DependencyView(w, run, id);
    DecidedView(w, run, id);
    PlanUnitSelfContained(run.plan, id);
    NotOwnDependency(run.plan, id);
    ExecutedReplaces(w, run, pu, u);
    RunningKeepsId(u);
    ReplacedSameBut(run, dispatched, RunningUnit(ReadyUnit(u)));
    InputsLocal(dispatched, view, pu, pu.declaration.inputs);
  }

  lemma RunningKeepsId(u: UnitState)
    ensures RunningUnit(ReadyUnit(u)).unitId == u.unitId
  {
  }

  lemma ExecuteKeepsMeaning(w: World, run: Run, id: UnitId)
    requires Resumable(run) && id in PlanIds(run.plan) && StateOf(run, id).status == Pending
    requires Decide(run, UnitWithId(run.plan, id)) == ReadyToRun
    ensures SameMeaning(w, run, ExecutedRun(w, run, UnitWithId(run.plan, id), StateOf(run, id)))
  {
    hide FindUnit, UnitWithId, Accepted, Meaning, Decide, Sound, Settled, Attempted, DispatchedRun, ExecutedRun, Rank;
    var u, pu := StateOf(run, id), UnitWithId(run.plan, id);
    var next := ExecutedRun(w, run, pu, u);
    AtRestUnit(run, id);
    PendingIsAwake(u);
    ExecutedReplaces(w, run, pu, u);
    AttemptedInView(w, run, id);
    var view := DependencyView(w, run, id);
    var after := Attempted(w, view, pu, u);
    AttemptedIs(w, view, pu, u);
    ReplacedAtRest(run, next, after);
    ReplacedSameBut(run, next, after);
    MeaningIs(w, run, id);
    MeaningIs(w, next, id);
    DecidedView(w, run, id);
    AtRestUnit(next, id);
    ViewSame(w, run, next, id, id);
    SettledWithoutRetry(after);
    ReplacedSameMeaning(w, run, next, after);
  }

  lemma PendingIsAwake(u: UnitState)
    requires Sound(u) && u.status == Pending
    ensures !Settled(u) && Awake(u) == u
  {
  }

  lemma SettledWithoutRetry(u: UnitState)
    requires Sound(u) && !InFlight(u) && u.status != Pending
    ensures Settled(u) <==> u.nextRetryAt.None?
  {
  }

  lemma WakeKeepsMeaning(w: World, run: Run, id: UnitId)
    requires Resumable(run) && id in PlanIds(run.plan) && StateOf(run, id).nextRetryAt.Some?
    ensures SameMeaning(w, run, ReplaceUnit(run, Woken(StateOf(run, id))))
  {
    hide FindUnit, UnitWithId, Accepted, Meaning, Decide, Settled, SummarizeProgress, ResolveOutputs, ReplaceIn, Rank;
    var u := StateOf(run, id);
    var next := ReplaceUnit(run, Woken(u));
    AtRestUnit(run, id);
    assert !Settled(u) && Sound(Woken(u)) && !Settled(Woken(u)) by {
      WokenIsSound(u);
    }
    ReplacedAtRest(run, next, Woken(u));
    ReplacedSameBut(run, next, Woken(u));
    MeaningIs(w, run, id);
    MeaningIs(w, next, id);
    ViewSame(w, run, next, id, id);
    ReplacedSameMeaning(w, run, next, Woken(u));
  }

  lemma WokenIsSound(u: UnitState)
    requires Sound(u) && u.nextRetryAt.Some?
    ensures !Settled(u) && Sound(Woken(u)) && !Settled(Woken(u))
  {
  }
}

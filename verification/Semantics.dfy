// What a run means: the final state of every unit, by recursion on its dependencies.

module Semantics {
  import opened Basics
  import opened Graphs
  import opened Plans
  import opened RunState
  import opened Decision
  import opened SkipFixpoint
  import opened Dispatch

  // Between dispatches: every unit is pending, waits for a retry, or is settled.
  ghost predicate AtRest(run: Run) {
    Aligned(run) && forall u :: u in run.units ==> Sound(u) && !InFlight(u)
  }

  ghost predicate Resumable(run: Run) {
    AtRest(run) && Accepted(run.plan)
  }

  ghost function StateOf(run: Run, id: UnitId): (u: UnitState)
    requires Aligned(run) && id in PlanIds(run.plan)
    ensures FindUnit(run.units, id) == Some(u) && u in run.units && u.unitId == id
  {
    FindPlanned(run, id);
    FindUnit(run.units, id).value
  }

  // Attempts of a ready unit until one does not fail or none is left.
  ghost function AllAttempts(w: World, view: Run, pu: PlanUnit, u: UnitState): (r: UnitState)
    requires Sound(u) && u.status == Pending
    ensures r.unitId == u.unitId && Sound(r) && Settled(r)
    decreases MaxAttempts(pu) - |u.attempts|
  {
    AttemptedIs(w, view, pu, u);
    var after := Attempted(w, view, pu, u);
    if after.nextRetryAt.Some? then AllAttempts(w, view, pu, Woken(after)) else after
  }

  ghost function Resolved(w: World, view: Run, pu: PlanUnit, u: UnitState): (r: UnitState)
    requires Sound(u) && u.status == Pending
    ensures r.unitId == u.unitId && Settled(r)
  {
    match Decide(view, pu)
    case Skip(reason) => SkippedUnit(u, reason)
    case _ => AllAttempts(w, view, pu, u)
  }

  function Awake(u: UnitState): UnitState {
    if u.nextRetryAt.Some? then Woken(u) else u
  }

  // A run that shows only these unit states, under the trigger and inputs of `run`.
  function View(run: Run, units: seq<UnitState>): Run {
    Run(run.runId, run.plan, RunningRun, units, Progress(0, 0, 0, 0), None, run.inputs, [], [], [])
  }

  lemma DependenciesDescend(plan: Plan, id: UnitId, d: UnitId)
    requires Accepted(plan) && id in PlanIds(plan) && d in UnitWithId(plan, id).dependencies
    ensures d in PlanIds(plan)
    ensures Rank(DependencyGraph(plan), d) < Rank(DependencyGraph(plan), id)
  {
    hide UnitWithId, Level, Rank;
    var g := DependencyGraph(plan);
    AcyclicIsLayered(g);
    assert g[id] == Elements(UnitWithId(plan, id).dependencies);
    assert d in g;
  }

  lemma AtRestUnit(run: Run, id: UnitId)
    requires AtRest(run) && id in PlanIds(run.plan)
    ensures Sound(StateOf(run, id)) && !InFlight(StateOf(run, id))
    ensures !Settled(StateOf(run, id)) ==> Sound(Awake(StateOf(run, id))) && Awake(StateOf(run, id)).status == Pending
    ensures Fixed(StateOf(run, id)) <==> Settled(StateOf(run, id))
  {
    hide FindUnit;
  }

  // The final state of a unit when the run is carried on from `run`.
  ghost function Meaning(w: World, run: Run, id: UnitId): (r: UnitState)
    requires Resumable(run) && id in PlanIds(run.plan)
    ensures r.unitId == id && Settled(r)
    decreases Rank(DependencyGraph(run.plan), id)
  {
    hide FindUnit, UnitWithId, Rank, Resolved, Accepted, Settled, Sound;
    AtRestUnit(run, id);
    var u := StateOf(run, id);
    if Settled(u) then u
    else
      var pu := UnitWithId(run.plan, id);
      var states := seq(|pu.dependencies|, i requires 0 <= i < |pu.dependencies| =>
        DependenciesDescend(run.plan, id, pu.dependencies[i]);
        Meaning(w, run, pu.dependencies[i]));
      Resolved(w, View(run, states), pu, Awake(u))
  }

  // ----- the view of a unit's dependencies

  ghost function DependencyView(w: World, run: Run, id: UnitId): Run
    requires Resumable(run) && id in PlanIds(run.plan)
  {
    hide FindUnit, UnitWithId, Rank, Resolved, Accepted, Settled, Sound;
    var pu := UnitWithId(run.plan, id);
    View(run, seq(|pu.dependencies|, i requires 0 <= i < |pu.dependencies| =>
      DependenciesDescend(run.plan, id, pu.dependencies[i]);
      Meaning(w, run, pu.dependencies[i])))
  }

  lemma MeaningIs(w: World, run: Run, id: UnitId)
    requires Resumable(run) && id in PlanIds(run.plan)
    ensures var u := StateOf(run, id);
            && (Settled(u) ==> Meaning(w, run, id) == u)
            && (!Settled(u) ==> Sound(Awake(u)) && Awake(u).status == Pending)
            && (!Settled(u) ==>
                  Meaning(w, run, id) == Resolved(w, DependencyView(w, run, id), UnitWithId(run.plan, id), Awake(u)))
  {
    hide FindUnit, UnitWithId, Rank, Resolved, Accepted, Settled, Sound;
    AtRestUnit(run, id);
  }

  lemma FindListed(units: seq<UnitState>, ids: seq<UnitId>, d: UnitId, u: UnitState)
    requires |units| == |ids| && d in ids
    requires forall i :: 0 <= i < |ids| ==> units[i].unitId == ids[i] && (ids[i] == d ==> units[i] == u)
    ensures FindUnit(units, d) == Some(u)
  {
    hide FindUnit;
    var i :| 0 <= i < |ids| && ids[i] == d;
    assert units[i].unitId == d;
  }

  lemma ViewShows(w: World, run: Run, id: UnitId, d: UnitId)
    requires Resumable(run) && id in PlanIds(run.plan) && d in UnitWithId(run.plan, id).dependencies
    ensures d in PlanIds(run.plan)
    ensures FindUnit(DependencyView(w, run, id).units, d) == Some(Meaning(w, run, d))
  {
    hide FindUnit, UnitWithId, Rank, Resolved, Accepted, Settled, Sound;
    DependenciesDescend(run.plan, id, d);
    FindListed(DependencyView(w, run, id).units, UnitWithId(run.plan, id).dependencies, d, Meaning(w, run, d));
  }

  lemma PlanUnitSelfContained(plan: Plan, id: UnitId)
    requires Accepted(plan) && id in PlanIds(plan)
    ensures SelfContained(UnitWithId(plan, id))
  {
    hide FindPlanUnit, Closed, Cyclic;
  }

  // Where the decision is taken, the run already shows its dependencies' final states.
  lemma DecidedView(w: World, run: Run, id: UnitId)
    requires Resumable(run) && id in PlanIds(run.plan)
    requires !Decide(run, UnitWithId(run.plan, id)).Waiting?
    ensures AgreeOn(run, DependencyView(w, run, id), UnitWithId(run.plan, id).dependencies)
    ensures Decide(DependencyView(w, run, id), UnitWithId(run.plan, id)) == Decide(run, UnitWithId(run.plan, id))
  {
    hide FindUnit, UnitWithId, Rank, Resolved, Accepted, Settled, Sound, Decide, Meaning, Evaluable;
    var pu := UnitWithId(run.plan, id);
    var view := DependencyView(w, run, id);
    forall d | d in pu.dependencies
      ensures FindUnit(run.units, d) == FindUnit(view.units, d)
    {
      ViewShows(w, run, id, d);
      DecidedOnSettled(run, pu, d);
      AtRestUnit(run, d);
      EvaluableIsFixed(pu, StateOf(run, d));
      MeaningIs(w, run, d);
    }
    PlanUnitSelfContained(run.plan, id);
    DecideLocal(run, view, pu);
  }

  lemma EvaluableIsFixed(pu: PlanUnit, u: UnitState)
    requires Evaluable(pu, u)
    ensures Fixed(u)
  {
  }

  // ----- what keeps the meaning of a run

  // Two runs of one plan whose units differ at most in `changed`.
  ghost predicate SameBut(a: Run, b: Run, changed: UnitId) {
    && a.runId == b.runId && a.plan == b.plan && a.inputs == b.inputs
    && forall id :: id != changed ==> FindUnit(a.units, id) == FindUnit(b.units, id)
  }

  lemma {:induction false} MeaningSame(w: World, a: Run, b: Run, changed: UnitId, id: UnitId)
    requires Resumable(a) && Resumable(b) && SameBut(a, b, changed)
    requires changed in PlanIds(a.plan) && id in PlanIds(a.plan)
    requires Rank(DependencyGraph(a.plan), id) < Rank(DependencyGraph(a.plan), changed)
             || Meaning(w, a, changed) == Meaning(w, b, changed)
    ensures Meaning(w, a, id) == Meaning(w, b, id)
    decreases Rank(DependencyGraph(a.plan), id)
  {
    hide FindUnit, UnitWithId, Rank, Resolved, Accepted, Settled, Sound, Meaning;
    if id != changed {
      MeaningIs(w, a, id);
      MeaningIs(w, b, id);
      ViewSame(w, a, b, changed, id);
    }
  }

  lemma {:induction false} ViewSame(w: World, a: Run, b: Run, changed: UnitId, id: UnitId)
    requires Resumable(a) && Resumable(b) && SameBut(a, b, changed)
    requires changed in PlanIds(a.plan) && id in PlanIds(a.plan)
    requires Rank(DependencyGraph(a.plan), id) <= Rank(DependencyGraph(a.plan), changed)
             || Meaning(w, a, changed) == Meaning(w, b, changed)
    ensures DependencyView(w, a, id) == DependencyView(w, b, id)
    decreases Rank(DependencyGraph(a.plan), id), 0
  {
    hide FindUnit, UnitWithId, Rank, Resolved, Accepted, Settled, Sound, Meaning;
    var ds := UnitWithId(a.plan, id).dependencies;
    forall d | d in ds
      ensures d in PlanIds(a.plan) && Meaning(w, a, d) == Meaning(w, b, d)
    {
      DependenciesDescend(a.plan, id, d);
      MeaningSame(w, a, b, changed, d);
    }
    assert DependencyView(w, a, id).units == DependencyView(w, b, id).units;
  }
}

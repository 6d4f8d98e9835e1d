// Across the planner's boundary: what its checks guarantee about every run of a plan.

module Boundary {
  import opened Basics
  import opened Graphs
  import opened Plans
  import Stages
  import opened Planner
  import opened Canonical
  import opened RunState
  import opened Dispatch
  import opened Semantics
  import opened History
  import opened Invariants
  import opened Lifecycle
  import opened Progress
  import opened Replay
  import opened Engine
  import Scheduler

  lemma {:induction false} PlayedKeepsPlan(w: World, a: Stored, steps: seq<Step>, b: Stored)
    requires Plays(w, a, steps, b)
    ensures b.run.plan == a.run.plan
    decreases |steps|
  {
    hide Enabled, Apply;
    if steps != [] {
      ApplyIs(w, a, steps[0]);
      PlayedKeepsPlan(w, Apply(w, a, steps[0]), steps[1..], b);
    }
  }

  lemma TriggerKeepsAccepted(plan: Plan)
    requires Accepted(plan)
    ensures Accepted(EnsureTrigger(plan))
  {
    hide UnitWithId;
    SameGraph(plan);
  }

  lemma SameGraph(plan: Plan)
    ensures PlanIds(EnsureTrigger(plan)) == PlanIds(plan)
    ensures DependencyGraph(EnsureTrigger(plan)) == DependencyGraph(plan)
  {
  }

  // No run of an accepted definition whose keys do not collide ever gets stuck: whatever its history,
  // restarts and cancellation included, between dispatches it is settled or something is left to do.
  lemma PlannedRunNeverStuck(def: Definition, plan: Plan, w: World, runId: RunId, inputs: seq<NamedValue>, steps: seq<Step>, s: Stored)
    requires StructuredByKey(def) && !KeysCollide(Elements(Ids(def))) && PlanOf(def, plan)
    requires Plays(w, Created(plan, runId, inputs), steps, s) && NoneInFlight(s.run)
    ensures Resumable(s.run) && !Stuck(s.run)
  {
    hide Plays, Structured, StructuredByKey, KeysCollide, PlanOf, Accepted, UnitsFit, Coherent, AtRest, Stuck,
      InitialRun, Restarts;
    KeysAreExact(def);
    PlanIsAccepted(def, plan);
    AcceptedIsSensible(plan);
    InitialFits(plan, runId, inputs);
    NoRestarts([RunCreated]);
    PlayedFits(w, Created(plan, runId, inputs), steps, s);
    FitsAtRest(s.run, Restarts(s.log));
    PlayedKeepsPlan(w, Created(plan, runId, inputs), steps, s);
    InitialHasId(plan, runId, inputs);
    TriggerKeepsAccepted(plan);
    NeverStuck(s.run);
  }

  lemma AcceptedIsSensible(plan: Plan)
    requires Accepted(plan)
    ensures Sensible(plan)
  {
  }

  // ----- the stages the dashboard shows for an accepted plan

  // The dashboard lists each unit of the plan once, in whatever order.
  ghost predicate ListsPlan(plan: Plan, units: seq<Stages.StageUnit>) {
    && Sensible(plan)
    && (forall i, j :: 0 <= i < j < |units| ==> units[i].unitId != units[j].unitId)
    && (forall id :: id in PlanIds(plan) ==> Stages.StageUnit(id, UnitWithId(plan, id).dependencies) in units)
    && (forall u :: u in units ==> u.unitId in PlanIds(plan) && u.dependencies == UnitWithId(plan, u.unitId).dependencies)
  }

  lemma {:induction false} ByIdFinds(units: seq<Stages.StageUnit>)
    requires forall i, j :: 0 <= i < j < |units| ==> units[i].unitId != units[j].unitId
    ensures forall v :: v in Stages.ById(units) ==> Stages.ById(units)[v] in units && Stages.ById(units)[v].unitId == v
    ensures forall u :: u in units ==> u.unitId in Stages.ById(units) && Stages.ById(units)[u.unitId] == u
  {
    if units != [] {
      var front, last := units[..|units| - 1], units[|units| - 1];
      ByIdFinds(front);
      forall u | u in units
        ensures u.unitId in Stages.ById(units) && Stages.ById(units)[u.unitId] == u
      {
        var i :| 0 <= i < |units| && units[i] == u;
        assert i < |units| - 1 ==> front[i] == u;
      }
    }
  }

  lemma StagesSeePlan(plan: Plan, units: seq<Stages.StageUnit>)
    requires ListsPlan(plan, units)
    ensures Stages.DependencyGraph(units) == DependencyGraph(plan)
  {
    hide UnitWithId, PlanIds;
    ByIdFinds(units);
    var byId := Stages.ById(units);
    forall id
      ensures id in byId <==> id in PlanIds(plan)
      ensures id in byId ==> byId[id].dependencies == UnitWithId(plan, id).dependencies
    {
      if id in PlanIds(plan) {
        assert Stages.StageUnit(id, UnitWithId(plan, id).dependencies).unitId in byId;
      }
    }
  }

  // Without cycles and unknown ids, the stages are the depths and hold every unit.
  lemma StagesAreDepths(g: Graph, stages: seq<Stages.Stage>)
    requires Closed(g) && !Cyclic(g) && Stages.FullyStaged(g, stages)
    ensures Stages.DoomedUnits(g) == {} && Stages.Layered(g, stages)
    ensures forall v :: v in g ==> !Doomed(g, v) && 1 <= Rank(g, v) <= |stages|
  {
    hide Rank, Level, Doomed, Cyclic, Stages.Layered;
    AcyclicIsLayered(g);
    forall v | v in g
      ensures !Doomed(g, v)
    {
      LayeredNotDoomed(g, v);
    }
    assert Stages.DoomedUnits(g) == {};
    assert stages[..|stages|] == stages;
  }

  lemma StageHolds(g: Graph, stages: seq<Stages.Stage>, i: nat, id: UnitId)
    requires Stages.Layered(g, stages) && i < |stages| && forall v :: v in g ==> !Doomed(g, v)
    ensures id in stages[i].units <==> id in g && Rank(g, id) == i + 1
  {
    hide Rank, Doomed;
    assert stages[i] == Stages.Stage(i, Stages.AtDepth(g, i + 1));
  }

  ghost predicate InStage(stages: seq<Stages.Stage>, i: int, id: UnitId) {
    0 <= i < |stages| && id in stages[i].units
  }

  // Every unit of an accepted plan is shown in exactly one stage, after all units it depends on;
  // no stage is needed for units in a cycle.
  lemma StagesFollowDependencies(plan: Plan, units: seq<Stages.StageUnit>, stages: seq<Stages.Stage>)
    requires Accepted(plan) && ListsPlan(plan, units) && Stages.FullyStaged(Stages.DependencyGraph(units), stages)
    ensures Stages.DoomedUnits(Stages.DependencyGraph(units)) == {}
    ensures forall id :: id in PlanIds(plan) <==> exists i :: InStage(stages, i, id)
    ensures forall i, j, id :: InStage(stages, i, id) && InStage(stages, j, id) ==> i == j
    ensures forall i, j, id, d ::
              InStage(stages, i, id) && InStage(stages, j, d) && id in PlanIds(plan) && d in UnitWithId(plan, id).dependencies ==> j < i
  {
    hide UnitWithId, PlanIds, Rank, Level, Doomed, Stages.ById, Accepted, ListsPlan, Stages.FullyStaged,
      Stages.Layered, Stages.DoomedUnits, Cyclic, Closed;
    var g := DependencyGraph(plan);
    StagesSeePlan(plan, units);
    AcceptedGraph(plan);
    StagesAreDepths(g, stages);
    forall i, id | 0 <= i < |stages|
      ensures InStage(stages, i, id) <==> id in g && Rank(g, id) == i + 1
    {
      StageHolds(g, stages, i, id);
    }
    forall id
      ensures id in PlanIds(plan) <==> exists i :: InStage(stages, i, id)
    {
      if id in PlanIds(plan) {
        assert id in g && InStage(stages, Rank(g, id) - 1, id);
      }
    }
    forall i, j, id, d | InStage(stages, i, id) && InStage(stages, j, d) && id in PlanIds(plan) && d in UnitWithId(plan, id).dependencies
      ensures j < i
    {
      DependenciesDescend(plan, id, d);
    }
  }

  lemma AcceptedGraph(plan: Plan)
    requires Accepted(plan)
    ensures Closed(DependencyGraph(plan)) && !Cyclic(DependencyGraph(plan))
  {
  }

  // ----- what the controller may assume of a background run

  // Advancing a running run of an accepted plan ends it with a status the controller expects of its
  // background run, and it expects no status but those of a finished run.
  lemma BackgroundRunEnds(w: World, initial: Run, r: Run)
    requires Resumable(initial) && CarriedOut(w, initial, r)
    ensures Scheduler.FiberEnd(RunningRun, r.status)
    ensures Scheduler.FiberEnd(CancelingRun, CancelRunState(initial).status)
    ensures forall status :: Scheduler.FiberEnd(RunningRun, status) <==> Finished(status)
  {
    hide Accepted, AtRest, AllSettled, FinalizeRun, Meaning, SummarizeProgress, ResolveOutputs, CancelUnit;
  }
}

// Workflow definitions as the planner receives them, and the execution plans it produces.

module Plans {
  import opened Basics
  import opened Graphs

  // Values are opaque; the engine compares them only by identity.
  datatype Value = Value(repr: string)

  datatype UnitStatus =
    | Pending | Ready | Running | Succeeded | Failed | TimedOut | Skipped | Canceling | Canceled | Interrupted

  datatype Condition =
    | TriggerEvent(event: string)
    | TriggerBranch(branch: string)
    | TriggerRef(ref: string)
    | TriggerTag(tag: string)
    | InputEquals(inputName: string, value: Value)
    | UpstreamStatus(unitId: UnitId, status: UnitStatus)

  datatype Policy =
    | RetryPolicy(maxAttempts: nat)
    | TimeoutPolicy(seconds: real)
    | CancellationPolicy(failFast: bool)

  datatype Source =
    | WorkflowInput(inputName: string)
    | UnitOutput(unitId: UnitId, outputName: string)

  datatype NamedSource = NamedSource(name: string, from: Source)

  // The trigger record of a run's metadata; an absent field equals no text.
  datatype Trigger = Trigger(event: Option<string>, branch: Option<string>, ref: Option<string>, tag: Option<string>)

  datatype UnitDeclaration = UnitDeclaration(
    unitId: UnitId,
    inputs: seq<NamedSource>,
    outputs: seq<string>,
    conditions: seq<Condition>,
    policies: seq<Policy>)

  datatype Definition = Definition(
    units: seq<UnitDeclaration>,
    dependencies: seq<Edge>,
    inputs: seq<string>,
    outputs: seq<NamedSource>,
    trigger: Option<Trigger>)

  datatype PlanUnit = PlanUnit(declaration: UnitDeclaration, dependencies: seq<UnitId>)
  {
    function Id(): UnitId {
      declaration.unitId
    }
  }

  datatype Plan = Plan(
    units: seq<PlanUnit>,
    dependencies: seq<Edge>,
    inputs: seq<string>,
    outputs: seq<NamedSource>,
    trigger: Option<Trigger>)

  function DeclaredIds(units: seq<UnitDeclaration>): seq<UnitId> {
    seq(|units|, i requires 0 <= i < |units| => units[i].unitId)
  }

  function PlanIds(plan: Plan): seq<UnitId> {
    seq(|plan.units|, i requires 0 <= i < |plan.units| => plan.units[i].Id())
  }

  // The first plan unit with this id.
  function FindFrom(units: seq<PlanUnit>, id: UnitId): (r: Option<PlanUnit>)
    ensures r.None? <==> forall i :: 0 <= i < |units| ==> units[i].Id() != id
    ensures r.Some? ==> r.value in units && r.value.Id() == id
  {
    if units == [] then None
    else if units[0].Id() == id then Some(units[0])
    else FindFrom(units[1..], id)
  }

  function FindPlanUnit(plan: Plan, id: UnitId): Option<PlanUnit> {
    FindFrom(plan.units, id)
  }

  ghost predicate Sensible(plan: Plan) {
    Distinct(PlanIds(plan))
  }

  function UnitWithId(plan: Plan, id: UnitId): (r: PlanUnit)
    requires id in PlanIds(plan)
    ensures r in plan.units && r.Id() == id
  {
    assert exists i :: 0 <= i < |plan.units| && PlanIds(plan)[i] == plan.units[i].Id() == id;
    FindPlanUnit(plan, id).value
  }

  lemma UnitWithIdAt(plan: Plan, i: nat)
    requires Sensible(plan) && i < |plan.units|
    ensures plan.units[i].Id() in PlanIds(plan)
    ensures UnitWithId(plan, plan.units[i].Id()) == plan.units[i]
  {
    assert PlanIds(plan)[i] == plan.units[i].Id();
    var u := UnitWithId(plan, plan.units[i].Id());
    var j :| 0 <= j < |plan.units| && plan.units[j] == u;
    assert PlanIds(plan)[j] == PlanIds(plan)[i];
  }

  ghost function DependencyGraph(plan: Plan): Graph {
    map id | id in PlanIds(plan) :: Elements(UnitWithId(plan, id).dependencies)
  }

  // What the orchestrator may rely on in a plan the planner accepted.
  ghost predicate Accepted(plan: Plan) {
    && Sensible(plan)
    && Closed(DependencyGraph(plan))
    && !Cyclic(DependencyGraph(plan))
    && (forall u, c :: u in plan.units && c in u.declaration.conditions && c.UpstreamStatus? ==> c.unitId in u.dependencies)
    && (forall u, s :: u in plan.units && s in u.declaration.inputs && s.from.UnitOutput? ==> s.from.unitId in u.dependencies)
  }
}

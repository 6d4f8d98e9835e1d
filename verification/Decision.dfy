// What the orchestrator decides about a pending unit, and which states that decision looks at.

module Decision {
  import opened Basics
  import opened Plans
  import opened RunState

  datatype Decision = Waiting | ReadyToRun | Skip(reason: SkipReason)

  predicate HasUpstreamCondition(pu: PlanUnit, id: UnitId) {
    exists c :: c in pu.declaration.conditions && c.UpstreamStatus? && c.unitId == id
  }

  predicate Evaluable(pu: PlanUnit, dependency: UnitState) {
    if HasUpstreamCondition(pu, dependency.unitId) then Settled(dependency)
    else dependency.status == Succeeded || Settled(dependency)
  }

  predicate AllowsProceeding(pu: PlanUnit, dependency: UnitState) {
    if HasUpstreamCondition(pu, dependency.unitId) then Settled(dependency)
    else dependency.status == Succeeded
  }

  function FirstBlocking(units: seq<UnitState>, pu: PlanUnit, dependencies: seq<UnitId>): Option<UnitId>
    requires forall d :: d in dependencies ==> FindUnit(units, d).Some?
  {
    if dependencies == [] then None
    else if !AllowsProceeding(pu, FindUnit(units, dependencies[0]).value) then Some(dependencies[0])
    else FirstBlocking(units, pu, dependencies[1..])
  }

  lemma {:induction false} FirstBlockingMeans(units: seq<UnitState>, pu: PlanUnit, ds: seq<UnitId>)
    requires forall d :: d in ds ==> FindUnit(units, d).Some?
    ensures var r := FirstBlocking(units, pu, ds);
            && (r.None? <==> forall d :: d in ds ==> AllowsProceeding(pu, FindUnit(units, d).value))
            && (r.Some? ==> r.value in ds && !AllowsProceeding(pu, FindUnit(units, r.value).value))
  {
    hide FindUnit, AllowsProceeding;
    if ds != [] {
      FirstBlockingMeans(units, pu, ds[1..]);
      assert ds[0] in ds;
      forall d | d in ds
        ensures d == ds[0] || d in ds[1..]
      {
        var i :| 0 <= i < |ds| && ds[i] == d;
        assert i > 0 ==> ds[1..][i - 1] == d;
      }
      assert forall d :: d in ds[1..] ==> d in ds;
    }
  }

  function TriggerField(run: Run, condition: Condition): Option<string> {
    match run.plan.trigger
    case None => None
    case Some(t) =>
      match condition
      case TriggerEvent(_) => t.event
      case TriggerBranch(_) => t.branch
      case TriggerRef(_) => t.ref
      case TriggerTag(_) => t.tag
      case _ => None
  }

  function Require(holds: bool, condition: Condition, observed: Option<UnitStatus>): Decision {
    if holds then ReadyToRun else Skip(ConditionFalse(condition, observed))
  }

  function EvaluateCondition(run: Run, condition: Condition): Decision {
    match condition
    case TriggerEvent(event) => Require(TriggerField(run, condition) == Some(event), condition, None)
    case TriggerBranch(branch) => Require(TriggerField(run, condition) == Some(branch), condition, None)
    case TriggerRef(ref) => Require(TriggerField(run, condition) == Some(ref), condition, None)
    case TriggerTag(tag) => Require(TriggerField(run, condition) == Some(tag), condition, None)
    case InputEquals(name, value) => Require(FindValue(run.inputs, name) == Some(value), condition, None)
    case UpstreamStatus(id, status) =>
      match FindUnit(run.units, id)
      case None => Waiting
      case Some(u) => if !Settled(u) then Waiting else Require(u.status == status, condition, Some(u.status))
  }

  function EvaluateConditions(run: Run, conditions: seq<Condition>): Decision {
    if conditions == [] then ReadyToRun
    else
      var first := EvaluateCondition(run, conditions[0]);
      if first != ReadyToRun then first else EvaluateConditions(run, conditions[1..])
  }

  function Decide(run: Run, pu: PlanUnit): Decision {
    if exists d :: d in pu.dependencies && FindUnit(run.units, d).None? then Waiting
    else if exists d :: d in pu.dependencies && !Evaluable(pu, FindUnit(run.units, d).value) then Waiting
    else
      match FirstBlocking(run.units, pu, pu.dependencies)
      case Some(d) => Skip(BlockedBy(d))
      case None => EvaluateConditions(run, pu.declaration.conditions)
  }

  // The values a unit's declared inputs resolve to, or the message of the failed attempt.
  function ResolveInput(run: Run, pu: PlanUnit, input: NamedSource): Result<NamedValue, string> {
    match input.from
    case WorkflowInput(name) =>
      (match FindValue(run.inputs, name)
       case Some(v) => Success(NamedValue(input.name, v))
       case None => Failure("Unit " + pu.Id() + " input " + input.name + " could not resolve workflow input " + name))
    case UnitOutput(id, output) =>
      var value := match FindUnit(run.units, id)
        case None => None
        case Some(u) => if u.status != Succeeded then None else FindValue(u.outputs, output);
      match value
      case Some(v) => Success(NamedValue(input.name, v))
      case None => Failure("Unit " + pu.Id() + " input " + input.name + " could not resolve output " + output + " from " + id)
  }

  function ResolveInputs(run: Run, pu: PlanUnit, inputs: seq<NamedSource>): Result<seq<NamedValue>, string> {
    if inputs == [] then Success([])
    else
      match ResolveInput(run, pu, inputs[0])
      case Failure(message) => Failure(message)
      case Success(v) =>
        match ResolveInputs(run, pu, inputs[1..])
        case Failure(message) => Failure(message)
        case Success(vs) => Success([v] + vs)
  }

  // ----- locality

  // Both runs show the same state of these units, under the same trigger and inputs.
  ghost predicate AgreeOn(a: Run, b: Run, ids: seq<UnitId>) {
    && a.plan.trigger == b.plan.trigger && a.inputs == b.inputs
    && forall d :: d in ids ==> FindUnit(a.units, d) == FindUnit(b.units, d)
  }

  // Everything the unit reads about other units is covered by its dependency list.
  ghost predicate SelfContained(pu: PlanUnit) {
    && (forall c :: c in pu.declaration.conditions && c.UpstreamStatus? ==> c.unitId in pu.dependencies)
    && (forall s :: s in pu.declaration.inputs && s.from.UnitOutput? ==> s.from.unitId in pu.dependencies)
  }

  lemma {:induction false} ConditionsLocal(a: Run, b: Run, ds: seq<UnitId>, cs: seq<Condition>)
    requires AgreeOn(a, b, ds)
    requires forall c :: c in cs && c.UpstreamStatus? ==> c.unitId in ds
    ensures EvaluateConditions(a, cs) == EvaluateConditions(b, cs)
  {
    if cs != [] {
      assert cs[0] in cs;
      ConditionsLocal(a, b, ds, cs[1..]);
    }
  }

  lemma DecideLocal(a: Run, b: Run, pu: PlanUnit)
    requires SelfContained(pu) && AgreeOn(a, b, pu.dependencies)
    ensures Decide(a, pu) == Decide(b, pu)
  {
    ConditionsLocal(a, b, pu.dependencies, pu.declaration.conditions);
    if forall d :: d in pu.dependencies ==> FindUnit(a.units, d).Some? {
      FirstBlockingStable(a, b, pu, pu.dependencies);
    }
  }

  lemma {:induction false} InputsLocal(a: Run, b: Run, pu: PlanUnit, inputs: seq<NamedSource>)
    requires AgreeOn(a, b, pu.dependencies)
    requires forall s :: s in inputs && s.from.UnitOutput? ==> s.from.unitId in pu.dependencies
    ensures ResolveInputs(a, pu, inputs) == ResolveInputs(b, pu, inputs)
  {
    if inputs != [] {
      assert inputs[0] in inputs;
      InputsLocal(a, b, pu, inputs[1..]);
    }
  }

  // ----- stability

  // No later step of a run without restarts changes such a unit.
  predicate Fixed(u: UnitState) {
    Settled(u) || u.status == Succeeded
  }

  // `b` comes after `a`: what was fixed in `a` is still there.
  ghost predicate Extends(a: Run, b: Run) {
    && a.plan == b.plan && a.inputs == b.inputs
    && forall id :: FindUnit(a.units, id).Some? && Fixed(FindUnit(a.units, id).value) ==>
                      FindUnit(b.units, id) == FindUnit(a.units, id)
  }

  lemma {:induction false} ConditionsStable(a: Run, b: Run, cs: seq<Condition>)
    requires Extends(a, b) && !EvaluateConditions(a, cs).Waiting?
    ensures EvaluateConditions(b, cs) == EvaluateConditions(a, cs)
  {
    if cs != [] && EvaluateCondition(a, cs[0]) == ReadyToRun {
      ConditionsStable(a, b, cs[1..]);
    }
  }

  // Once a decision is not to wait, it never changes, whatever happens to other unsettled units.
  lemma DecisionStable(a: Run, b: Run, pu: PlanUnit)
    requires Extends(a, b) && !Decide(a, pu).Waiting?
    ensures Decide(b, pu) == Decide(a, pu)
  {
    forall d | d in pu.dependencies
      ensures FindUnit(a.units, d).Some? && FindUnit(b.units, d) == FindUnit(a.units, d)
    {
      DecidedOnSettled(a, pu, d);
    }
    FirstBlockingStable(a, b, pu, pu.dependencies);
    if FirstBlocking(a.units, pu, pu.dependencies).None? {
      ConditionsStable(a, b, pu.declaration.conditions);
    }
  }

  lemma {:induction false} FirstBlockingStable(a: Run, b: Run, pu: PlanUnit, ds: seq<UnitId>)
    requires forall d :: d in ds ==> FindUnit(a.units, d).Some? && FindUnit(b.units, d) == FindUnit(a.units, d)
    ensures FirstBlocking(a.units, pu, ds) == FirstBlocking(b.units, pu, ds)
  {
    if ds != [] {
      assert ds[0] in ds;
      FirstBlockingStable(a, b, pu, ds[1..]);
    }
  }

  // ----- what a decision says

  lemma {:induction false} ConditionsDecided(run: Run, cs: seq<Condition>)
    ensures EvaluateConditions(run, cs) == ReadyToRun <==> forall c :: c in cs ==> EvaluateCondition(run, c) == ReadyToRun
    ensures EvaluateConditions(run, cs).Waiting? ==> exists c :: c in cs && EvaluateCondition(run, c).Waiting?
    ensures EvaluateConditions(run, cs).Skip? ==> exists c :: c in cs && EvaluateCondition(run, c) == EvaluateConditions(run, cs)
  {
    if cs != [] {
      ConditionsDecided(run, cs[1..]);
      assert cs == [cs[0]] + cs[1..];
      assert forall c :: c in cs <==> c == cs[0] || c in cs[1..];
    }
  }

  // A decision other than waiting is taken only on settled or succeeded dependencies.
  lemma DecidedOnSettled(run: Run, pu: PlanUnit, d: UnitId)
    requires !Decide(run, pu).Waiting? && d in pu.dependencies
    ensures FindUnit(run.units, d).Some? && Evaluable(pu, FindUnit(run.units, d).value)
  {
  }

  // Ready exactly when no part of the decision holds the unit back.
  lemma ReadyParts(run: Run, pu: PlanUnit)
    requires forall d :: d in pu.dependencies ==> FindUnit(run.units, d).Some?
    ensures Decide(run, pu) == ReadyToRun <==>
            && (forall d :: d in pu.dependencies ==> AllowsProceeding(pu, FindUnit(run.units, d).value))
            && (forall c :: c in pu.declaration.conditions ==> EvaluateCondition(run, c) == ReadyToRun)
  {
    FirstBlockingMeans(run.units, pu, pu.dependencies);
    ConditionsDecided(run, pu.declaration.conditions);
    if forall d :: d in pu.dependencies ==> AllowsProceeding(pu, FindUnit(run.units, d).value) {
      forall d | d in pu.dependencies
        ensures Evaluable(pu, FindUnit(run.units, d).value)
      {
      }
    }
  }

  // With every dependency settled, the decision is never to wait.
  lemma SettledNeverWaits(run: Run, pu: PlanUnit)
    requires SelfContained(pu)
    requires forall d :: d in pu.dependencies ==> FindUnit(run.units, d).Some? && Settled(FindUnit(run.units, d).value)
    ensures !Decide(run, pu).Waiting?
  {
    ConditionsDecided(run, pu.declaration.conditions);
  }
}

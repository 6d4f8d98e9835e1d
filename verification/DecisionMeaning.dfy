// What decisions and resolved inputs mean, apart from how they are computed.

module DecisionMeaning {
  import opened Basics
  import opened Plans
  import opened RunState
  import opened Decision

  // The first value of this name.
  ghost predicate FirstNamed(values: seq<NamedValue>, name: string, value: Value) {
    exists i :: 0 <= i < |values| && values[i] == NamedValue(name, value) && forall j :: 0 <= j < i ==> values[j].name != name
  }

  lemma {:induction false} FindValueIs(values: seq<NamedValue>, name: string)
    ensures forall v :: FindValue(values, name) == Some(v) <==> FirstNamed(values, name, v)
    ensures FindValue(values, name).None? <==> forall i :: 0 <= i < |values| ==> values[i].name != name
  {
    if values != [] && values[0].name != name {
      FindValueIs(values[1..], name);
      forall v
        ensures FirstNamed(values, name, v) <==> FirstNamed(values[1..], name, v)
      {
        FirstNamedLater(values, name, v);
      }
      assert values == [values[0]] + values[1..];
    } else if values != [] {
      assert FirstNamed(values, name, values[0].value);
    }
  }

  lemma FirstNamedLater(values: seq<NamedValue>, name: string, v: Value)
    requires values != [] && values[0].name != name
    ensures FirstNamed(values, name, v) <==> FirstNamed(values[1..], name, v)
  {
    var rest := values[1..];
    if i :| 0 <= i < |values| && values[i] == NamedValue(name, v) && forall j :: 0 <= j < i ==> values[j].name != name {
      assert rest[i - 1] == NamedValue(name, v);
      assert forall j :: 0 <= j < i - 1 ==> rest[j] == values[j + 1];
    }
    if i :| 0 <= i < |rest| && rest[i] == NamedValue(name, v) && forall j :: 0 <= j < i ==> rest[j].name != name {
      assert values[i + 1] == NamedValue(name, v);
      assert forall j :: 0 < j < i + 1 ==> values[j] == rest[j - 1];
    }
  }

  // What the run has to show for a condition to hold.
  ghost predicate ConditionHolds(run: Run, condition: Condition) {
    match condition
    case TriggerEvent(event) => run.plan.trigger.Some? && run.plan.trigger.value.event == Some(event)
    case TriggerBranch(branch) => run.plan.trigger.Some? && run.plan.trigger.value.branch == Some(branch)
    case TriggerRef(ref) => run.plan.trigger.Some? && run.plan.trigger.value.ref == Some(ref)
    case TriggerTag(tag) => run.plan.trigger.Some? && run.plan.trigger.value.tag == Some(tag)
    case InputEquals(name, value) => FirstNamed(run.inputs, name, value)
    case UpstreamStatus(id, status) =>
      exists u :: FindUnit(run.units, id) == Some(u) && Settled(u) && u.status == status
  }

  // The condition is on a unit that is missing or not settled.
  ghost predicate ConditionOpen(run: Run, condition: Condition) {
    condition.UpstreamStatus? &&
    (FindUnit(run.units, condition.unitId).None? || !Settled(FindUnit(run.units, condition.unitId).value))
  }

  // The status a condition on another unit was answered with.
  ghost predicate Observes(run: Run, condition: Condition, observed: Option<UnitStatus>) {
    match condition
    case UpstreamStatus(id, _) => FindUnit(run.units, id).Some? && observed == Some(FindUnit(run.units, id).value.status)
    case _ => observed == None
  }

  // Each condition is answered one way: it holds, it is open, or it is false with what was observed.
  lemma ConditionMeans(run: Run, condition: Condition)
    ensures EvaluateCondition(run, condition) == ReadyToRun <==> ConditionHolds(run, condition)
    ensures EvaluateCondition(run, condition) == Waiting <==> ConditionOpen(run, condition)
    ensures forall reason :: EvaluateCondition(run, condition) == Skip(reason) <==>
              && !ConditionHolds(run, condition) && !ConditionOpen(run, condition)
              && reason.ConditionFalse? && reason.condition == condition && Observes(run, condition, reason.observed)
  {
    if condition.InputEquals? {
      FindValueIs(run.inputs, condition.inputName);
    }
  }

  // The unit has a condition on the status of this dependency.
  ghost predicate Conditioned(pu: PlanUnit, d: UnitId) {
    exists status :: UpstreamStatus(d, status) in pu.declaration.conditions
  }

  // A dependency lets the unit proceed: with a condition on it once it is settled, otherwise by success.
  ghost predicate Proceeds(run: Run, pu: PlanUnit, d: UnitId) {
    exists u :: FindUnit(run.units, d) == Some(u) && if Conditioned(pu, d) then Settled(u) else u.status == Succeeded
  }

  // A decision can be taken on the dependency as it is.
  ghost predicate Decided(run: Run, pu: PlanUnit, d: UnitId) {
    exists u :: FindUnit(run.units, d) == Some(u) && (Settled(u) || (!Conditioned(pu, d) && u.status == Succeeded))
  }

  lemma ConditionedIff(pu: PlanUnit, d: UnitId)
    ensures HasUpstreamCondition(pu, d) <==> Conditioned(pu, d)
  {
    if c :| c in pu.declaration.conditions && c.UpstreamStatus? && c.unitId == d {
      assert c == UpstreamStatus(d, c.status);
    }
  }

  // The position of the first element that fails a test; all of them pass it when there is none.
  ghost predicate FirstAt<T(!new)>(s: seq<T>, fails: T -> bool, i: nat) {
    i < |s| && fails(s[i]) && forall j :: 0 <= j < i ==> !fails(s[j])
  }

  ghost function Stops(run: Run, pu: PlanUnit): UnitId -> bool {
    d => !Proceeds(run, pu, d)
  }

  ghost function Unmet(run: Run): Condition -> bool {
    c => !ConditionHolds(run, c)
  }

  lemma {:induction false} FirstBlockingAt(run: Run, pu: PlanUnit, ds: seq<UnitId>)
    requires forall d :: d in ds ==> FindUnit(run.units, d).Some?
    ensures FirstBlocking(run.units, pu, ds).None? <==> forall d :: d in ds ==> Proceeds(run, pu, d)
    ensures forall d :: FirstBlocking(run.units, pu, ds) == Some(d) <==>
              exists i: nat :: FirstAt(ds, Stops(run, pu), i) && ds[i] == d
  {
    hide FindUnit, Conditioned, HasUpstreamCondition;
    if ds != [] {
      ConditionedIff(pu, ds[0]);
      ConditionedIff(pu, FindUnit(run.units, ds[0]).value.unitId);
      assert ds == [ds[0]] + ds[1..];
      FirstBlockingAt(run, pu, ds[1..]);
      FirstAtStep(ds, Stops(run, pu));
    }
  }

  lemma FirstAtStep<T(!new)>(s: seq<T>, fails: T -> bool)
    requires s != []
    ensures fails(s[0]) ==> forall i: nat :: FirstAt(s, fails, i) <==> i == 0
    ensures !fails(s[0]) ==> !FirstAt(s, fails, 0) && forall i: nat :: FirstAt(s[1..], fails, i) <==> FirstAt(s, fails, i + 1)
  {
    if !fails(s[0]) {
      forall i: nat
        ensures FirstAt(s[1..], fails, i) <==> FirstAt(s, fails, i + 1)
      {
        assert forall j :: 0 < j <= i + 1 && j < |s| ==> s[j] == s[1..][j - 1];
        assert FirstAt(s[1..], fails, i) ==> forall j :: 0 < j < i + 1 ==> s[j] == s[1..][j - 1];
        if FirstAt(s, fails, i + 1) {
          assert forall j :: 0 <= j < i ==> s[1..][j] == s[j + 1];
        }
      }
    }
  }

  lemma {:induction false} FirstFailingAt(run: Run, cs: seq<Condition>)
    ensures EvaluateConditions(run, cs) == ReadyToRun <==> forall c :: c in cs ==> ConditionHolds(run, c)
    ensures EvaluateConditions(run, cs) == Waiting <==>
              exists i: nat :: FirstAt(cs, Unmet(run), i) && ConditionOpen(run, cs[i])
    ensures forall reason :: EvaluateConditions(run, cs) == Skip(reason) <==>
              exists i: nat :: FirstAt(cs, Unmet(run), i) && EvaluateCondition(run, cs[i]) == Skip(reason)
  {
    hide ConditionHolds, ConditionOpen, EvaluateCondition;
    if cs != [] {
      ConditionMeans(run, cs[0]);
      assert cs == [cs[0]] + cs[1..];
      FirstFailingAt(run, cs[1..]);
      FirstAtStep(cs, Unmet(run));
    }
  }

  // The first dependency, in plan order, that does not let the unit proceed.
  ghost predicate FirstBlocker(run: Run, pu: PlanUnit, d: UnitId) {
    exists i: nat :: FirstAt(pu.dependencies, Stops(run, pu), i) && pu.dependencies[i] == d
  }

  // The first condition, in declaration order, that does not hold.
  ghost predicate FirstUnmet(run: Run, pu: PlanUnit, condition: Condition) {
    exists i: nat ::
      FirstAt(pu.declaration.conditions, Unmet(run), i) && pu.declaration.conditions[i] == condition
  }

  ghost predicate AllProceed(run: Run, pu: PlanUnit) {
    forall d :: d in pu.dependencies ==> Proceeds(run, pu, d)
  }

  ghost predicate AllDecided(run: Run, pu: PlanUnit) {
    forall d :: d in pu.dependencies ==> Decided(run, pu, d)
  }

  lemma DecidedIff(run: Run, pu: PlanUnit, d: UnitId)
    ensures Decided(run, pu, d) <==> FindUnit(run.units, d).Some? && Evaluable(pu, FindUnit(run.units, d).value)
    ensures Proceeds(run, pu, d) ==> Decided(run, pu, d)
  {
    hide FindUnit;
    ConditionedIff(pu, d);
  }

  // A decision in terms of the run alone: ready, waiting, or skipped, with the reason.
  lemma DecisionMeans(run: Run, pu: PlanUnit)
    ensures Decide(run, pu) == ReadyToRun <==>
              AllProceed(run, pu) && forall c :: c in pu.declaration.conditions ==> ConditionHolds(run, c)
    ensures Decide(run, pu) == Waiting <==>
              !AllDecided(run, pu) || (AllProceed(run, pu) && exists c :: FirstUnmet(run, pu, c) && ConditionOpen(run, c))
    ensures forall d :: Decide(run, pu) == Skip(BlockedBy(d)) <==> AllDecided(run, pu) && FirstBlocker(run, pu, d)
    ensures forall c, observed :: Decide(run, pu) == Skip(ConditionFalse(c, observed)) <==>
              && AllProceed(run, pu) && FirstUnmet(run, pu, c) && !ConditionOpen(run, c) && Observes(run, c, observed)
  {
    hide FindUnit, Evaluable, FirstAt, EvaluateCondition, ConditionHolds, ConditionOpen, Proceeds, Decided, Observes;
    var cs := pu.declaration.conditions;
    forall d | d in pu.dependencies
      ensures Decided(run, pu, d) <==> FindUnit(run.units, d).Some? && Evaluable(pu, FindUnit(run.units, d).value)
      ensures Proceeds(run, pu, d) ==> Decided(run, pu, d)
    {
      DecidedIff(run, pu, d);
    }
    if AllDecided(run, pu) {
      FirstBlockingAt(run, pu, pu.dependencies);
      assert forall d :: FirstBlocker(run, pu, d) <==> FirstBlocking(run.units, pu, pu.dependencies) == Some(d);
      FirstFailingAt(run, cs);
      UnmetAgree(run, pu);
    }
  }

  // Conditions are answered for the first one that does not hold.
  lemma UnmetAgree(run: Run, pu: PlanUnit)
    ensures var cs := pu.declaration.conditions;
            && (EvaluateConditions(run, cs) == Waiting <==> exists c :: FirstUnmet(run, pu, c) && ConditionOpen(run, c))
            && (EvaluateConditions(run, cs).Skip? ==> EvaluateConditions(run, cs).reason.ConditionFalse?)
            && (forall c, observed :: EvaluateConditions(run, cs) == Skip(ConditionFalse(c, observed)) <==>
                  FirstUnmet(run, pu, c) && !ConditionOpen(run, c) && Observes(run, c, observed))
  {
    hide FirstAt, EvaluateCondition, EvaluateConditions, ConditionHolds, ConditionOpen, Observes;
    var cs := pu.declaration.conditions;
    FirstFailingAt(run, cs);
    forall i: nat, k: nat | FirstAt(cs, Unmet(run), i) && FirstAt(cs, Unmet(run), k)
      ensures i == k && i < |cs| && !ConditionHolds(run, cs[i])
    {
      FirstAtOnce(cs, Unmet(run), i, k);
    }
    forall i | 0 <= i < |cs| {
      ConditionMeans(run, cs[i]);
    }
  }

  lemma FirstAtOnce<T(!new)>(s: seq<T>, fails: T -> bool, i: nat, k: nat)
    requires FirstAt(s, fails, i) && FirstAt(s, fails, k)
    ensures i == k && i < |s| && fails(s[i])
  {
  }

  // ----- the values inputs resolve to

  // The value a declared source stands for: a run input, or an output of a unit that succeeded.
  ghost predicate SourceValue(run: Run, from: Source, value: Value) {
    match from
    case WorkflowInput(name) => FirstNamed(run.inputs, name, value)
    case UnitOutput(id, output) =>
      exists u :: FindUnit(run.units, id) == Some(u) && u.status == Succeeded && FirstNamed(u.outputs, output, value)
  }

  ghost predicate HasValue(run: Run, from: Source) {
    exists value :: SourceValue(run, from, value)
  }

  lemma InputMeans(run: Run, pu: PlanUnit, input: NamedSource)
    ensures ResolveInput(run, pu, input).Success? <==> HasValue(run, input.from)
    ensures forall v :: SourceValue(run, input.from, v) <==> ResolveInput(run, pu, input) == Success(NamedValue(input.name, v))
    ensures var r := ResolveInput(run, pu, input);
            r.Success? ==> r.value.name == input.name && SourceValue(run, input.from, r.value.value)
    ensures ResolveInput(run, pu, input).Failure? ==>
              "Unit " + pu.Id() + " input " + input.name <= ResolveInput(run, pu, input).error
  {
    hide FirstNamed;
    match input.from {
      case WorkflowInput(name) =>
        FindValueIs(run.inputs, name);
      case UnitOutput(id, output) =>
        if FindUnit(run.units, id).Some? {
          FindValueIs(FindUnit(run.units, id).value.outputs, output);
        }
    }
    var r := ResolveInput(run, pu, input);
    if r.Success? {
      assert r == Success(NamedValue(input.name, r.value.value));
      assert SourceValue(run, input.from, r.value.value);
    }
  }

  // The values of all declared inputs, in declaration order.
  ghost predicate Carries(run: Run, inputs: seq<NamedSource>, values: seq<NamedValue>) {
    |values| == |inputs|
    && forall i :: 0 <= i < |inputs| ==> values[i].name == inputs[i].name && SourceValue(run, inputs[i].from, values[i].value)
  }

  // The first input, in declaration order, whose source has no value.
  ghost predicate FirstMissing(run: Run, inputs: seq<NamedSource>, i: nat) {
    i < |inputs| && !HasValue(run, inputs[i].from) && forall j :: 0 <= j < i ==> HasValue(run, inputs[j].from)
  }

  lemma MissingLater(run: Run, inputs: seq<NamedSource>, i: nat)
    requires inputs != [] && HasValue(run, inputs[0].from) && FirstMissing(run, inputs[1..], i)
    ensures FirstMissing(run, inputs, i + 1) && inputs[i + 1] == inputs[1..][i]
  {
    hide HasValue;
    forall j | 0 <= j < i + 1
      ensures HasValue(run, inputs[j].from)
    {
      assert j > 0 ==> inputs[j] == inputs[1..][j - 1];
    }
  }

  lemma {:induction false} InputsCarried(run: Run, pu: PlanUnit, inputs: seq<NamedSource>) returns (i: nat)
    ensures var r := ResolveInputs(run, pu, inputs);
            && (r.Success? ==> Carries(run, inputs, r.value))
            && (r.Failure? ==> FirstMissing(run, inputs, i) && "Unit " + pu.Id() + " input " + inputs[i].name <= r.error)
  {
    hide HasValue, SourceValue, ResolveInput;
    i := 0;
    if inputs != [] {
      InputMeans(run, pu, inputs[0]);
      var k := InputsCarried(run, pu, inputs[1..]);
      if ResolveInput(run, pu, inputs[0]).Success? {
        i := k + 1;
        assert forall j :: 0 < j < |inputs| ==> inputs[j] == inputs[1..][j - 1];
        if ResolveInputs(run, pu, inputs[1..]).Failure? {
          MissingLater(run, inputs, k);
        }
      }
    }
  }

  // Inputs resolve exactly when every source has a value, and then to these values under the declared
  // names; otherwise the message names the first input without one.
  lemma InputsMean(run: Run, pu: PlanUnit, inputs: seq<NamedSource>)
    ensures var r := ResolveInputs(run, pu, inputs);
            && (r.Success? <==> forall i :: 0 <= i < |inputs| ==> HasValue(run, inputs[i].from))
            && (forall values: seq<NamedValue> :: Carries(run, inputs, values) <==> r == Success(values))
            && (r.Failure? ==>
                  exists i: nat :: FirstMissing(run, inputs, i) && "Unit " + pu.Id() + " input " + inputs[i].name <= r.error)
  {
    hide ResolveInput, ResolveInputs, SourceValue;
    var r := ResolveInputs(run, pu, inputs);
    var missing := InputsCarried(run, pu, inputs);
    if r.Success? {
      forall values: seq<NamedValue> | Carries(run, inputs, values)
        ensures values == r.value
      {
        CarriesOne(run, pu, inputs, values, r.value);
      }
    }
  }

  lemma CarriesOne(run: Run, pu: PlanUnit, inputs: seq<NamedSource>, a: seq<NamedValue>, b: seq<NamedValue>)
    requires Carries(run, inputs, a) && Carries(run, inputs, b)
    ensures a == b
  {
    hide SourceValue;
    forall i | 0 <= i < |inputs|
      ensures a[i] == b[i]
    {
      InputMeans(run, pu, inputs[i]);
    }
  }
}

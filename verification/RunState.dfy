// The persisted state of a run and the pure functions that rebuild it.

module RunState {
  import opened Basics
  import opened Plans

  type RunId = string

  datatype RunStatus =
    | QueuedRun | RunningRun | SucceededRun | FailedRun | TimedOutRun | CancelingRun | CanceledRun | InterruptedRun

  datatype AttemptStatus =
    | CreatedAttempt | RunningAttempt | SucceededAttempt | FailedAttempt | TimedOutAttempt | CanceledAttempt | InterruptedAttempt

  datatype FailureSummary = FailureSummary(message: string, code: Option<string>)

  datatype Availability = ExpectedPayload | AvailablePayload | MissingPayload | FailedPayload

  // Metadata of a registered log or artifact; `ref` is its reference in the payload store.
  datatype Payload = Payload(ref: string, name: string, status: Availability)

  datatype NamedValue = NamedValue(name: string, value: Value)

  datatype SkipReason =
    | BlockedBy(unitId: UnitId)
    | ConditionFalse(condition: Condition, observed: Option<UnitStatus>)

  // An attempt id joins run, unit and number, so inside one unit the number identifies the attempt.
  datatype Attempt = Attempt(
    number: nat,
    status: AttemptStatus,
    failure: Option<FailureSummary>,
    outputs: seq<NamedValue>,
    logs: seq<Payload>,
    artifacts: seq<Payload>)

  datatype UnitState = UnitState(
    unitId: UnitId,
    status: UnitStatus,
    attempts: seq<Attempt>,
    nextRetryAt: Option<int>,
    failure: Option<FailureSummary>,
    skipReason: Option<SkipReason>,
    outputs: seq<NamedValue>,
    logs: seq<Payload>,
    artifacts: seq<Payload>)

  datatype Progress = Progress(total: nat, completed: nat, failed: nat, skipped: nat)

  datatype Run = Run(
    runId: RunId,
    plan: Plan,
    status: RunStatus,
    units: seq<UnitState>,
    progress: Progress,
    failure: Option<FailureSummary>,
    inputs: seq<NamedValue>,
    outputs: seq<NamedValue>,
    logs: seq<Payload>,
    artifacts: seq<Payload>)

  predicate TerminalRunStatus(s: RunStatus) {
    s == SucceededRun || s == FailedRun || s == TimedOutRun || s == CanceledRun || s == InterruptedRun
  }

  predicate TerminalUnitStatus(s: UnitStatus) {
    s == Succeeded || s == Failed || s == TimedOut || s == Skipped || s == Canceled
  }

  predicate IsTerminalRun(run: Run) {
    TerminalRunStatus(run.status)
  }

  // Settled: in a terminal status with no retry scheduled.
  predicate Settled(u: UnitState) {
    TerminalUnitStatus(u.status) && u.nextRetryAt.None?
  }

  predicate AllSettled(run: Run) {
    forall u :: u in run.units ==> Settled(u)
  }

  // The first unit with this id.
  function FindUnit(units: seq<UnitState>, id: UnitId): (r: Option<UnitState>)
    ensures r.None? <==> forall i :: 0 <= i < |units| ==> units[i].unitId != id
    ensures r.Some? ==> r.value in units && r.value.unitId == id
  {
    if units == [] then None
    else if units[0].unitId == id then Some(units[0])
    else FindUnit(units[1..], id)
  }

  function UnitIds(units: seq<UnitState>): seq<UnitId> {
    seq(|units|, i requires 0 <= i < |units| => units[i].unitId)
  }

  // The run holds one state per plan unit, in plan order.
  ghost predicate Aligned(run: Run) {
    Sensible(run.plan) && UnitIds(run.units) == PlanIds(run.plan)
  }

  function CountStatus(units: seq<UnitState>, holds: UnitStatus -> bool): nat {
    if units == [] then 0
    else CountStatus(units[..|units| - 1], holds) + if holds(units[|units| - 1].status) then 1 else 0
  }

  function SummarizeProgress(units: seq<UnitState>): Progress {
    Progress(
      |units|,
      CountStatus(units, s => s == Succeeded),
      CountStatus(units, s => s == Failed || s == TimedOut),
      CountStatus(units, s => s == Skipped))
  }

  function FindValue(values: seq<NamedValue>, name: string): Option<Value> {
    if values == [] then None
    else if values[0].name == name then Some(values[0].value)
    else FindValue(values[1..], name)
  }

  function ResolveOutput(output: NamedSource, inputs: seq<NamedValue>, units: seq<UnitState>): seq<NamedValue> {
    var value := match output.from
      case WorkflowInput(name) => FindValue(inputs, name)
      case UnitOutput(id, name) =>
        match FindUnit(units, id)
        case None => None
        case Some(u) => FindValue(u.outputs, name);
    match value
    case None => []
    case Some(v) => [NamedValue(output.name, v)]
  }

  function ResolveOutputs(outputs: seq<NamedSource>, inputs: seq<NamedValue>, units: seq<UnitState>): seq<NamedValue> {
    if outputs == [] then []
    else ResolveOutput(outputs[0], inputs, units) + ResolveOutputs(outputs[1..], inputs, units)
  }

  function WithResolvedOutputs(run: Run): Run {
    run.(outputs := ResolveOutputs(run.plan.outputs, run.inputs, run.units))
  }

  function WithUnits(run: Run, units: seq<UnitState>): Run {
    WithResolvedOutputs(run.(units := units, progress := SummarizeProgress(units)))
  }

  function ReplaceIn(units: seq<UnitState>, next: UnitState): seq<UnitState> {
    seq(|units|, i requires 0 <= i < |units| => if units[i].unitId == next.unitId then next else units[i])
  }

  function ReplaceUnit(run: Run, next: UnitState): Run {
    WithUnits(run, ReplaceIn(run.units, next))
  }

  function AttemptIndex(attempts: seq<Attempt>, number: nat): (r: nat)
    ensures r <= |attempts|
    ensures r < |attempts| ==> attempts[r].number == number
    ensures forall i :: 0 <= i < r ==> attempts[i].number != number
  {
    if attempts == [] then 0
    else if attempts[0].number == number then 0
    else AttemptIndex(attempts[1..], number) + 1
  }

  function ReplaceAttempt(u: UnitState, next: Attempt): UnitState {
    var i := AttemptIndex(u.attempts, next.number);
    u.(attempts := if i == |u.attempts| then u.attempts + [next] else u.attempts[i := next])
  }

  function NextAttemptNumber(attempts: seq<Attempt>): nat {
    if attempts == [] then 1
    else
      var front := NextAttemptNumber(attempts[..|attempts| - 1]);
      Max(front - 1, attempts[|attempts| - 1].number) + 1
  }

  function AppendPayloads(run: Run, logs: seq<Payload>, artifacts: seq<Payload>): Run {
    WithResolvedOutputs(run.(logs := run.logs + logs, artifacts := run.artifacts + artifacts))
  }

  function InitialUnit(id: UnitId): UnitState {
    UnitState(id, Pending, [], None, None, None, [], [], [])
  }

  const MANUAL_TRIGGER := Trigger(Some("manual"), None, None, None)

  function EnsureTrigger(plan: Plan): Plan {
    if plan.trigger.Some? then plan else plan.(trigger := Some(MANUAL_TRIGGER))
  }

  function InitialRun(plan: Plan, runId: RunId, inputs: seq<NamedValue>): Run {
    var units := seq(|plan.units|, i requires 0 <= i < |plan.units| => InitialUnit(plan.units[i].Id()));
    WithUnits(Run(runId, EnsureTrigger(plan), QueuedRun, [], Progress(0, 0, 0, 0), None, inputs, [], [], []), units)
  }

  function InterruptAttempt(a: Attempt): Attempt {
    if a.status == RunningAttempt then a.(status := InterruptedAttempt) else a
  }

  function CancelAttempt(a: Attempt): Attempt {
    if a.status == RunningAttempt then a.(status := CanceledAttempt) else a
  }

  function MapAttempts(attempts: seq<Attempt>, f: Attempt -> Attempt): seq<Attempt> {
    seq(|attempts|, i requires 0 <= i < |attempts| => f(attempts[i]))
  }

  // A restart keeps these statuses; a timed-out unit is run again.
  predicate KeptByRecovery(s: UnitStatus) {
    s == Succeeded || s == Failed || s == Skipped || s == Canceled
  }

  function RecoverUnit(u: UnitState): UnitState {
    var attempts := MapAttempts(u.attempts, InterruptAttempt);
    if KeptByRecovery(u.status) then u.(attempts := attempts)
    else u.(status := Pending, failure := None, skipReason := None, outputs := [], attempts := attempts)
  }

  function CancelUnit(u: UnitState): UnitState {
    var attempts := MapAttempts(u.attempts, CancelAttempt);
    if TerminalUnitStatus(u.status) then u.(attempts := attempts)
    else u.(status := Canceled, failure := None, skipReason := None, attempts := attempts)
  }

  function MapUnits(units: seq<UnitState>, f: UnitState -> UnitState): (r: seq<UnitState>)
    ensures |r| == |units|
  {
    seq(|units|, i requires 0 <= i < |units| => f(units[i]))
  }

  function RecoverRun(run: Run): Run {
    WithUnits(run, MapUnits(run.units, RecoverUnit)).(status := RunningRun, failure := None)
  }

  function CancelRunState(run: Run): Run {
    WithUnits(run, MapUnits(run.units, CancelUnit)).(status := CanceledRun, failure := None)
  }

  function FirstWithStatus(units: seq<UnitState>, status: UnitStatus): (r: Option<UnitState>)
    ensures r.Some? <==> exists u :: u in units && u.status == status
    ensures r.Some? ==> r.value in units && r.value.status == status
  {
    if units == [] then None
    else if units[0].status == status then Some(units[0])
    else FirstWithStatus(units[1..], status)
  }

  function FinalizeRun(run: Run): Run {
    var (status, failure) := match FirstWithStatus(run.units, TimedOut)
      case Some(u) => (TimedOutRun, u.failure)
      case None =>
        match FirstWithStatus(run.units, Failed)
        case Some(u) => (FailedRun, u.failure)
        case None => (SucceededRun, None);
    WithUnits(run, run.units).(status := status, failure := failure)
  }

  // ----- how lookups see these updates

  lemma {:induction false} FindReplaced(units: seq<UnitState>, next: UnitState, id: UnitId)
    ensures FindUnit(ReplaceIn(units, next), id)
            == if id == next.unitId && FindUnit(units, id).Some? then Some(next) else FindUnit(units, id)
  {
    if units != [] {
      assert ReplaceIn(units, next)[1..] == ReplaceIn(units[1..], next);
      FindReplaced(units[1..], next, id);
    }
  }

  lemma ReplaceIds(units: seq<UnitState>, next: UnitState)
    ensures UnitIds(ReplaceIn(units, next)) == UnitIds(units)
  {
  }

  lemma {:induction false} FindAt(units: seq<UnitState>, i: nat)
    requires Distinct(UnitIds(units)) && i < |units|
    ensures FindUnit(units, units[i].unitId) == Some(units[i])
  {
    var u := FindUnit(units, units[i].unitId).value;
    var j :| 0 <= j < |units| && units[j] == u;
    assert UnitIds(units)[i] == UnitIds(units)[j];
  }

  lemma FindMember(run: Run, u: UnitState)
    requires Aligned(run) && u in run.units
    ensures u.unitId in PlanIds(run.plan)
    ensures FindUnit(run.units, u.unitId) == Some(u)
  {
    var i :| 0 <= i < |run.units| && run.units[i] == u;
    assert UnitIds(run.units)[i] == u.unitId;
    FindAt(run.units, i);
  }

  lemma FindPlanned(run: Run, id: UnitId)
    requires Aligned(run)
    ensures id in PlanIds(run.plan) <==> FindUnit(run.units, id).Some?
  {
    if id in PlanIds(run.plan) {
      var i :| 0 <= i < |run.units| && UnitIds(run.units)[i] == id;
      assert run.units[i].unitId == id;
    } else if FindUnit(run.units, id).Some? {
      FindMember(run, FindUnit(run.units, id).value);
    }
  }

  lemma ReplaceMembers(units: seq<UnitState>, next: UnitState)
    ensures forall u :: u in ReplaceIn(units, next) ==> u == next || (u in units && u.unitId != next.unitId)
    ensures forall u :: u in units && u.unitId != next.unitId ==> u in ReplaceIn(units, next)
  {
    var r := ReplaceIn(units, next);
    forall u | u in r
      ensures u == next || (u in units && u.unitId != next.unitId)
    {
      var i :| 0 <= i < |r| && r[i] == u;
    }
    forall u | u in units && u.unitId != next.unitId
      ensures u in r
    {
      var i :| 0 <= i < |units| && units[i] == u;
      assert r[i] == u;
    }
  }

  lemma MapMembers(units: seq<UnitState>, f: UnitState -> UnitState)
    ensures forall v :: v in MapUnits(units, f) <==> exists u :: u in units && v == f(u)
  {
    forall v
      ensures v in MapUnits(units, f) <==> exists u :: u in units && v == f(u)
    {
      if v in MapUnits(units, f) {
        var i :| 0 <= i < |units| && MapUnits(units, f)[i] == v;
        assert units[i] in units && v == f(units[i]);
      }
      if u :| u in units && v == f(u) {
        var i :| 0 <= i < |units| && units[i] == u;
        assert MapUnits(units, f)[i] == v;
      }
    }
  }

  lemma {:induction false} FindMapped(units: seq<UnitState>, f: UnitState -> UnitState, id: UnitId)
    requires forall u :: u in units ==> f(u).unitId == u.unitId
    ensures FindUnit(MapUnits(units, f), id)
            == match FindUnit(units, id) case None => None case Some(u) => Some(f(u))
  {
    if units != [] {
      assert MapUnits(units, f)[1..] == MapUnits(units[1..], f);
      FindMapped(units[1..], f, id);
    }
  }
}

// Everything that can happen to a stored run: each commit of the engine, and a restart between
// any two of them, as steps over the run and its event log.

module History {
  import opened Basics
  import opened Plans
  import opened RunState
  import opened Decision
  import opened SkipFixpoint
  import opened Dispatch
  import opened Preservation

  datatype Event =
    | RunCreated
    | RunStarted
    | RunResumed
    | RunCancellationRequested
    | UnitReady(unitId: UnitId)
    | UnitDispatched(unitId: UnitId, number: nat)
    | AttemptStarted(unitId: UnitId, number: nat)
    | AttemptSucceeded(unitId: UnitId, number: nat)
    | AttemptFailed(unitId: UnitId, number: nat, failure: FailureSummary)
    | AttemptTimedOut(unitId: UnitId, number: nat, failure: FailureSummary)
    | AttemptCanceled(unitId: UnitId, number: nat)
    | RetryScheduled(unitId: UnitId, number: nat, nextNumber: nat, scheduledAt: int)
    | UnitSucceeded(unitId: UnitId)
    | UnitFailed(unitId: UnitId, failure: FailureSummary)
    | UnitTimedOut(unitId: UnitId, failure: FailureSummary)
    | UnitSkipped(unitId: UnitId, reason: SkipReason)
    | UnitCanceled(unitId: UnitId)
    | LogRegistered(unitId: UnitId, number: nat, payload: Payload)
    | ArtifactRegistered(unitId: UnitId, number: nat, payload: Payload)
    | RunSucceeded
    | RunFailed(cause: Option<FailureSummary>)
    | RunTimedOut(cause: Option<FailureSummary>)
    | RunCanceled

  // A run as persisted, with the events logged for it so far.
  datatype Stored = Stored(run: Run, log: seq<Event>)

  datatype Step =
    | Activate
    | SkipUnits(skips: seq<SkipRecord>)
    | MakeReady(id: UnitId)
    | DispatchUnit(id: UnitId)
    | RegisterPayload(event: Event)
    | Complete(id: UnitId, result: ExecutorResult)
    | WakeUnit(id: UnitId)
    | Finish
    | RequestCancel
    | FinishCancel
    | Restart

  function Created(plan: Plan, runId: RunId, inputs: seq<NamedValue>): Stored {
    Stored(InitialRun(plan, runId, inputs), [RunCreated])
  }

  function WithStatus(run: Run, status: RunStatus): Run {
    run.(status := status)
  }

  function SkipEvents(skips: seq<SkipRecord>): seq<Event> {
    if skips == [] then []
    else SkipEvents(skips[..|skips| - 1]) + [UnitSkipped(skips[|skips| - 1].unitId, skips[|skips| - 1].reason)]
  }

  // What ends an attempt is logged as one event for the attempt and one for the unit.
  function CompletionEvents(pu: PlanUnit, id: UnitId, number: nat, result: ExecutorResult, retryAt: int): seq<Event> {
    var failure := ToFailure(id, result);
    match result.outcome
    case OutcomeSucceeded => [AttemptSucceeded(id, number), UnitSucceeded(id)]
    case OutcomeTimedOut => [AttemptTimedOut(id, number, failure), UnitTimedOut(id, failure)]
    case _ =>
      if RetriesAfter(pu, number) then [AttemptFailed(id, number, failure), RetryScheduled(id, number, number + 1, retryAt)]
      else [AttemptFailed(id, number, failure), UnitFailed(id, failure)]
  }

  function FinishEvent(run: Run): Event {
    match run.status
    case TimedOutRun => RunTimedOut(run.failure)
    case FailedRun => RunFailed(run.failure)
    case _ => RunSucceeded
  }

  function LastAttempt(u: UnitState): Option<Attempt> {
    if u.attempts == [] then None else Some(u.attempts[|u.attempts| - 1])
  }

  function AttemptCancelEvent(before: UnitState, after: UnitState): seq<Event> {
    match (LastAttempt(before), LastAttempt(after))
    case (Some(b), Some(a)) =>
      if a.status == CanceledAttempt && b.status == RunningAttempt then [AttemptCanceled(after.unitId, a.number)] else []
    case _ => []
  }

  function UnitCancelEvent(before: UnitState, after: UnitState): seq<Event> {
    if before.status != after.status && after.status == Canceled then [UnitCanceled(after.unitId)] else []
  }

  function AttemptCancelEvents(before: seq<UnitState>, after: seq<UnitState>): seq<Event>
    requires |before| == |after|
  {
    if before == [] then []
    else
      var n := |before| - 1;
      AttemptCancelEvents(before[..n], after[..n]) + AttemptCancelEvent(before[n], after[n])
  }

  function UnitCancelEvents(before: seq<UnitState>, after: seq<UnitState>): seq<Event>
    requires |before| == |after|
  {
    if before == [] then []
    else
      var n := |before| - 1;
      UnitCancelEvents(before[..n], after[..n]) + UnitCancelEvent(before[n], after[n])
  }

  function CancelEvents(run: Run): seq<Event> {
    var after := CancelRunState(run);
    AttemptCancelEvents(run.units, after.units) + UnitCancelEvents(run.units, after.units) + [RunCanceled]
  }

  predicate FailFast(plan: Plan) {
    exists pu :: pu in plan.units && CancellationPolicy(true) in pu.declaration.policies
  }

  predicate NoneInFlight(run: Run) {
    forall u :: u in run.units ==> !InFlight(u)
  }

  predicate IsReady(run: Run, id: UnitId) {
    id in PlanIds(run.plan) && IsPending(run, id) && Decide(run, UnitWithId(run.plan, id)) == ReadyToRun
  }

  predicate HasStatus(run: Run, id: UnitId, status: UnitStatus) {
    id in PlanIds(run.plan) && FindUnit(run.units, id).Some? && FindUnit(run.units, id).value.status == status
  }

  ghost predicate Enabled(s: Stored, step: Step) {
    match step
    case Activate => s.run.status == QueuedRun
    case SkipUnits(skips) => s.run.status == RunningRun && LegalSkips(s.run, skips)
    case MakeReady(id) => s.run.status == RunningRun && NoneInFlight(s.run) && IsReady(s.run, id)
    case DispatchUnit(id) => s.run.status == RunningRun && HasStatus(s.run, id, Ready)
    case RegisterPayload(event) => s.run.status == RunningRun && (event.LogRegistered? || event.ArtifactRegistered?)
    case Complete(id, result) =>
      s.run.status == RunningRun && HasStatus(s.run, id, Running) && Possible(s.run, UnitWithId(s.run.plan, id), result)
    case WakeUnit(id) =>
      && s.run.status == RunningRun && id in PlanIds(s.run.plan)
      && FindUnit(s.run.units, id).Some? && FindUnit(s.run.units, id).value.nextRetryAt.Some?
    case Finish => s.run.status == RunningRun && AllSettled(s.run)
    case RequestCancel => !IsTerminalRun(s.run) && !FailFast(s.run.plan)
    case FinishCancel => !IsTerminalRun(s.run)
    case Restart => s.run.status == RunningRun
  }

  function UnitOf(run: Run, id: UnitId): (u: UnitState)
    requires FindUnit(run.units, id).Some?
    ensures u in run.units && u.unitId == id
  {
    FindUnit(run.units, id).value
  }

  function RunAfter(w: World, run: Run, step: Step): Run
    requires step.MakeReady? || step.DispatchUnit? || step.Complete? || step.WakeUnit? ==>
               step.id in PlanIds(run.plan) && FindUnit(run.units, step.id).Some?
  {
    match step
    case Activate => WithStatus(run, RunningRun)
    case SkipUnits(skips) => ApplySkips(run, skips)
    case MakeReady(id) => ReadyRun(run, UnitOf(run, id))
    case DispatchUnit(id) => ReplaceUnit(run, RunningUnit(UnitOf(run, id)))
    case RegisterPayload(_) => run
    case Complete(id, result) =>
      CompletedRun(w, run, UnitWithId(run.plan, id), UnitOf(run, id), |UnitOf(run, id).attempts|, result)
    case WakeUnit(id) => ReplaceUnit(run, Woken(UnitOf(run, id)))
    case Finish => FinalizeRun(run)
    case RequestCancel => WithStatus(run, CancelingRun)
    case FinishCancel => CancelRunState(run)
    case Restart => RecoverRun(run)
  }

  function EventsAfter(w: World, run: Run, step: Step): seq<Event>
    requires step.DispatchUnit? || step.Complete? ==>
               step.id in PlanIds(run.plan) && FindUnit(run.units, step.id).Some?
  {
    match step
    case Activate => [RunStarted]
    case SkipUnits(skips) => SkipEvents(skips)
    case MakeReady(id) => [UnitReady(id)]
    case DispatchUnit(id) =>
      var number := NextAttemptNumber(UnitOf(run, id).attempts);
      [UnitDispatched(id, number), AttemptStarted(id, number)]
    case RegisterPayload(event) => [event]
    case Complete(id, result) =>
      var number := |UnitOf(run, id).attempts|;
      CompletionEvents(UnitWithId(run.plan, id), id, number, result, w.retryAt(run.runId, id, number))
    case WakeUnit(_) => []
    case Finish => [FinishEvent(FinalizeRun(run))]
    case RequestCancel => [RunCancellationRequested]
    case FinishCancel => CancelEvents(run)
    case Restart => [RunResumed]
  }

  ghost function Apply(w: World, s: Stored, step: Step): Stored
    requires Enabled(s, step)
  {
    Stored(RunAfter(w, s.run, step), s.log + EventsAfter(w, s.run, step))
  }

  lemma EnabledUnit(s: Stored, step: Step)
    requires Enabled(s, step)
    ensures step.MakeReady? || step.DispatchUnit? || step.Complete? || step.WakeUnit? ==>
              step.id in PlanIds(s.run.plan) && FindUnit(s.run.units, step.id).Some?
  {
    hide FindUnit, UnitWithId, Decide, LegalSkips;
  }

  // `b` is reached from `a` by these steps.
  ghost predicate Plays(w: World, a: Stored, steps: seq<Step>, b: Stored)
    decreases |steps|
  {
    if steps == [] then a == b
    else Enabled(a, steps[0]) && Plays(w, Apply(w, a, steps[0]), steps[1..], b)
  }

  // Some engine history, restarts included, leads from the creation of a run to this state.
  ghost predicate Reachable(w: World, s: Stored) {
    exists plan, runId, inputs, steps :: Sensible(plan) && Plays(w, Created(plan, runId, inputs), steps, s)
  }

  lemma {:induction false} PlaysAppend(w: World, a: Stored, steps: seq<Step>, b: Stored, more: seq<Step>, c: Stored)
    requires Plays(w, a, steps, b) && Plays(w, b, more, c)
    ensures Plays(w, a, steps + more, c)
    decreases |steps|
  {
    hide Enabled, Apply;
    if steps == [] {
      assert steps + more == more;
    } else {
      PlaysAppend(w, Apply(w, a, steps[0]), steps[1..], b, more, c);
      assert (steps + more)[0] == steps[0] && (steps + more)[1..] == steps[1..] + more;
    }
  }

  lemma PlaysOne(w: World, a: Stored, step: Step)
    requires Enabled(a, step)
    ensures Plays(w, a, [step], Apply(w, a, step))
  {
    hide Enabled, Apply;
  }
}

// Executing one attempt of one unit: the states it passes through and how it ends.

module Dispatch {
  import opened Basics
  import opened Plans
  import opened RunState
  import opened Decision

  datatype Outcome = OutcomeSucceeded | OutcomeFailed | OutcomeTimedOut | OutcomeCanceled | OutcomeInterrupted

  datatype Request = Request(runId: RunId, unitId: UnitId, attemptNumber: nat, inputs: seq<NamedValue>)

  datatype ExecutorResult = ExecutorResult(
    outcome: Outcome,
    failure: Option<FailureSummary>,
    outputs: map<string, Value>,
    logs: seq<Payload>,
    artifacts: seq<Payload>)

  // What the engine does not control: secret resolution, execution (timeouts included) and the
  // time chosen for a retry. Each may answer differently for every attempt.
  datatype World = World(
    secretFailure: (RunId, UnitId, nat) -> Option<string>,
    execute: Request -> ExecutorResult,
    retryAt: (RunId, UnitId, nat) -> int)

  function FailedResult(message: string): ExecutorResult {
    ExecutorResult(OutcomeFailed, Some(FailureSummary(message, None)), map[], [], [])
  }

  // The result of an attempt: executed only when its secrets and inputs resolve.
  function AttemptResult(w: World, run: Run, pu: PlanUnit, number: nat): ExecutorResult {
    match w.secretFailure(run.runId, pu.Id(), number)
    case Some(message) => FailedResult(message)
    case None =>
      match ResolveInputs(run, pu, pu.declaration.inputs)
      case Failure(message) => FailedResult(message)
      case Success(inputs) => w.execute(Request(run.runId, pu.Id(), number, inputs))
  }

  // The results an attempt of the unit may have: without its inputs it fails.
  predicate Possible(run: Run, pu: PlanUnit, result: ExecutorResult) {
    ResolveInputs(run, pu, pu.declaration.inputs).Failure? ==> result.outcome == OutcomeFailed
  }

  lemma AttemptIsPossible(w: World, run: Run, pu: PlanUnit, number: nat)
    ensures Possible(run, pu, AttemptResult(w, run, pu, number))
  {
  }

  function OutcomeName(outcome: Outcome): string {
    match outcome
    case OutcomeSucceeded => "succeeded"
    case OutcomeFailed => "failed"
    case OutcomeTimedOut => "timed_out"
    case OutcomeCanceled => "canceled"
    case OutcomeInterrupted => "interrupted"
  }

  function ToFailure(id: UnitId, result: ExecutorResult): FailureSummary {
    match result.failure
    case Some(f) => f
    case None => FailureSummary("Execution " + OutcomeName(result.outcome) + " for " + id, None)
  }

  // The retry policy with the most attempts, if any.
  function RetryLimit(policies: seq<Policy>): Option<nat> {
    if policies == [] then None
    else
      var selected, last := RetryLimit(policies[..|policies| - 1]), policies[|policies| - 1];
      if last.RetryPolicy? && (selected.None? || last.maxAttempts > selected.value) then Some(last.maxAttempts) else selected
  }

  predicate RetriesAfter(pu: PlanUnit, number: nat) {
    match RetryLimit(pu.declaration.policies)
    case None => false
    case Some(limit) => number < limit
  }

  function MaxAttempts(pu: PlanUnit): nat {
    match RetryLimit(pu.declaration.policies)
    case None => 1
    case Some(limit) => Max(1, limit)
  }

  // Some retry policy of the unit allows a further attempt.
  ghost predicate AllowsMore(pu: PlanUnit, number: nat) {
    exists limit: nat :: RetryPolicy(limit) in pu.declaration.policies && number < limit
  }

  // The largest number of attempts a retry policy of the unit asks for, and at least one.
  ghost predicate LargestLimit(pu: PlanUnit, limit: nat) {
    && limit >= 1 && (limit == 1 || RetryPolicy(limit) in pu.declaration.policies)
    && forall m: nat :: RetryPolicy(m) in pu.declaration.policies ==> m <= limit
  }

  lemma {:induction false} RetryLimitIs(policies: seq<Policy>)
    ensures RetryLimit(policies).None? ==> forall m: nat :: RetryPolicy(m) !in policies
    ensures RetryLimit(policies).Some? ==>
              RetryPolicy(RetryLimit(policies).value) in policies
              && forall m: nat :: RetryPolicy(m) in policies ==> m <= RetryLimit(policies).value
  {
    if policies != [] {
      RetryLimitIs(policies[..|policies| - 1]);
      assert policies == policies[..|policies| - 1] + [policies[|policies| - 1]];
    }
  }

  // The policy with the most attempts decides: a retry is allowed exactly when some policy allows it.
  lemma RetriesAfterMeans(pu: PlanUnit, number: nat)
    ensures RetriesAfter(pu, number) <==> AllowsMore(pu, number)
    ensures LargestLimit(pu, MaxAttempts(pu))
  {
    RetryLimitIs(pu.declaration.policies);
  }

  lemma RetriesWithinLimit(pu: PlanUnit, number: nat)
    requires AllowsMore(pu, number)
    ensures number < MaxAttempts(pu)
  {
    RetriesAfterMeans(pu, number);
  }

  function DeclaredOutputs(names: seq<string>, outputs: map<string, Value>): seq<NamedValue> {
    if names == [] then []
    else (if names[0] in outputs then [NamedValue(names[0], outputs[names[0]])] else []) + DeclaredOutputs(names[1..], outputs)
  }

  function ReadyUnit(u: UnitState): UnitState {
    u.(status := Ready, failure := None)
  }

  function StartedAttempt(number: nat): Attempt {
    Attempt(number, RunningAttempt, None, [], [], [])
  }

  function RunningUnit(u: UnitState): UnitState {
    ReplaceAttempt(u.(status := Running), StartedAttempt(NextAttemptNumber(u.attempts)))
  }

  // `running` after its attempt with this number ended with `result`.
  function CompletedUnit(w: World, runId: RunId, pu: PlanUnit, running: UnitState, number: nat, result: ExecutorResult): UnitState {
    var outputs := DeclaredOutputs(pu.declaration.outputs, result.outputs);
    var failure := ToFailure(running.unitId, result);
    var ended := StartedAttempt(number).(outputs := outputs, logs := result.logs, artifacts := result.artifacts);
    var unit := running.(outputs := outputs, logs := running.logs + result.logs, artifacts := running.artifacts + result.artifacts);
    match result.outcome
    case OutcomeSucceeded =>
      ReplaceAttempt(unit.(status := Succeeded, skipReason := None), ended.(status := SucceededAttempt))
    case OutcomeTimedOut =>
      ReplaceAttempt(
        unit.(status := TimedOut, failure := Some(failure), skipReason := None),
        ended.(status := TimedOutAttempt, failure := Some(failure)))
    case _ =>
      var failed := ReplaceAttempt(unit, ended.(status := FailedAttempt, failure := Some(failure)));
      if RetriesAfter(pu, number) then
        failed.(status := Failed, failure := Some(failure), nextRetryAt := Some(w.retryAt(runId, running.unitId, number)))
      else
        failed.(status := Failed, failure := Some(failure), skipReason := None)
  }

  // The unit after one whole attempt, with inputs resolved in `run`.
  function Attempted(w: World, run: Run, pu: PlanUnit, u: UnitState): UnitState {
    var number := NextAttemptNumber(u.attempts);
    CompletedUnit(w, run.runId, pu, RunningUnit(ReadyUnit(u)), number, AttemptResult(w, run, pu, number))
  }

  // Waking a unit whose retry time has come.
  function Woken(u: UnitState): UnitState {
    u.(status := Pending, failure := None, nextRetryAt := None)
  }

  // Attempts are numbered 1, 2, ... in list order.
  ghost predicate Numbered(attempts: seq<Attempt>) {
    forall i :: 0 <= i < |attempts| ==> attempts[i].number == i + 1
  }

  ghost predicate LastIs(u: UnitState, status: AttemptStatus) {
    u.attempts != [] && u.attempts[|u.attempts| - 1].status == status
  }

  // A running unit's last attempt is the one attempt of the unit that is running, and a scheduled
  // retry follows a failed attempt.
  ghost predicate Sound(u: UnitState) {
    && Numbered(u.attempts)
    && (u.nextRetryAt.Some? ==> u.status == Failed && LastIs(u, FailedAttempt))
    && (u.status == Running ==> LastIs(u, RunningAttempt))
    && (forall i :: 0 <= i < |u.attempts| && u.attempts[i].status == RunningAttempt ==> i == |u.attempts| - 1 && u.status == Running)
    && u.status != Canceling && u.status != Interrupted
  }

  predicate InFlight(u: UnitState) {
    u.status == Ready || u.status == Running
  }

  lemma {:induction false} NumberedNext(attempts: seq<Attempt>)
    requires Numbered(attempts)
    ensures NextAttemptNumber(attempts) == |attempts| + 1
  {
    if attempts != [] {
      NumberedNext(attempts[..|attempts| - 1]);
    }
  }

  lemma {:induction false} NumberedIndex(attempts: seq<Attempt>, number: nat)
    requires Numbered(attempts) && 1 <= number <= |attempts| + 1
    ensures AttemptIndex(attempts, number) == number - 1
  {
    var r := AttemptIndex(attempts, number);
    assert number <= |attempts| ==> attempts[number - 1].number == number;
    assert r < |attempts| ==> attempts[r].number == r + 1;
  }

  lemma RunningUnitIs(u: UnitState)
    requires Numbered(u.attempts)
    ensures RunningUnit(u) == u.(status := Running, attempts := u.attempts + [StartedAttempt(|u.attempts| + 1)])
  {
    NumberedNext(u.attempts);
    NumberedIndex(u.attempts, |u.attempts| + 1);
  }

  ghost predicate EndedAs(before: UnitState, after: UnitState, pu: PlanUnit) {
    var n := |before.attempts|;
    && after.unitId == before.unitId
    && |after.attempts| == n && n > 0 && after.attempts[..n - 1] == before.attempts[..n - 1]
    && after.attempts[n - 1].number == before.attempts[n - 1].number
    && match after.status
       case Succeeded => after.attempts[n - 1].status == SucceededAttempt && after.nextRetryAt == before.nextRetryAt
       case TimedOut => after.attempts[n - 1].status == TimedOutAttempt && after.nextRetryAt == before.nextRetryAt
       case Failed =>
         && after.attempts[n - 1].status == FailedAttempt
         && (if AllowsMore(pu, n) then after.nextRetryAt.Some? else after.nextRetryAt == before.nextRetryAt)
       case _ => false
  }

  // A completed attempt replaces the running one; a failure schedules a retry exactly when some retry
  // policy of the unit allows another attempt.
  lemma CompletedUnitIs(w: World, runId: RunId, pu: PlanUnit, running: UnitState, result: ExecutorResult)
    requires Numbered(running.attempts) && running.attempts != []
    ensures EndedAs(running, CompletedUnit(w, runId, pu, running, |running.attempts|, result), pu)
  {
    hide RetriesAfter, AllowsMore, LargestLimit;
    NumberedIndex(running.attempts, |running.attempts|);
    RetriesAfterMeans(pu, |running.attempts|);
  }

  lemma AttemptedIs(w: World, run: Run, pu: PlanUnit, u: UnitState)
    requires Sound(u) && u.status == Pending
    ensures var after := Attempted(w, run, pu, u);
            && Sound(after) && after.unitId == u.unitId && !InFlight(after) && after.status != Pending
            && |after.attempts| == |u.attempts| + 1 && after.attempts[..|u.attempts|] == u.attempts
            && (after.nextRetryAt.Some? <==> after.status == Failed && AllowsMore(pu, |u.attempts| + 1))
  {
    hide AttemptResult, CompletedUnit, NextAttemptNumber, AttemptIndex;
    NumberedNext(u.attempts);
    RunningUnitIs(ReadyUnit(u));
    var running := RunningUnit(ReadyUnit(u));
    var after := Attempted(w, run, pu, u);
    CompletedUnitIs(w, run.runId, pu, running, AttemptResult(w, run, pu, |u.attempts| + 1));
    assert after.attempts[..|u.attempts|] == running.attempts[..|u.attempts|] == u.attempts;
    forall i | 0 <= i < |u.attempts|
      ensures after.attempts[i] == u.attempts[i]
    {
      assert after.attempts[..|u.attempts|][i] == u.attempts[i];
    }
  }
}

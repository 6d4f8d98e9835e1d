// What one attempt of a unit is asked, and what it leaves behind in the run and in the log.

module AttemptRecord {
  import opened Basics
  import opened Plans
  import opened RunState
  import opened Decision
  import opened DecisionMeaning
  import opened Dispatch
  import opened SkipFixpoint
  import opened Semantics
  import opened Preservation
  import opened History

  // ----- the result of an attempt

  // A result that fails before anything was executed.
  ghost predicate FailsEarly(result: ExecutorResult, message: string) {
    && result.outcome == OutcomeFailed && result.failure == Some(FailureSummary(message, None))
    && result.outputs == map[] && result.logs == [] && result.artifacts == []
  }

  // The result an attempt has: unresolved secrets or inputs fail it, and otherwise it is what the
  // executor answers to a request with the declared inputs and the values of their sources.
  ghost predicate Answers(w: World, run: Run, pu: PlanUnit, number: nat, result: ExecutorResult) {
    var inputs := pu.declaration.inputs;
    match w.secretFailure(run.runId, pu.Id(), number)
    case Some(message) => FailsEarly(result, message)
    case None =>
      if forall i :: 0 <= i < |inputs| ==> HasValue(run, inputs[i].from) then
        exists values: seq<NamedValue> ::
          Carries(run, inputs, values) && result == w.execute(Request(run.runId, pu.Id(), number, values))
      else
        exists i: nat, message :: && FirstMissing(run, inputs, i) && FailsEarly(result, message)
                                  && "Unit " + pu.Id() + " input " + inputs[i].name <= message
  }

  lemma ResultAnswers(w: World, run: Run, pu: PlanUnit, number: nat)
    ensures Answers(w, run, pu, number, AttemptResult(w, run, pu, number))
  {
    hide ResolveInputs, HasValue, Carries;
    var inputs := pu.declaration.inputs;
    InputsMean(run, pu, inputs);
    var r := ResolveInputs(run, pu, inputs);
    if w.secretFailure(run.runId, pu.Id(), number).None? {
      if r.Success? {
        assert Carries(run, inputs, r.value);
      } else {
        var i: nat :| FirstMissing(run, inputs, i) && "Unit " + pu.Id() + " input " + inputs[i].name <= r.error;
        assert FailsEarly(AttemptResult(w, run, pu, number), r.error);
      }
    }
  }

  // Runs that show the same inputs and the same outputs of succeeded units.
  ghost predicate SameSources(a: Run, b: Run) {
    && a.inputs == b.inputs && a.runId == b.runId
    && forall id, u: UnitState :: u.status == Succeeded ==> (FindUnit(a.units, id) == Some(u) <==> FindUnit(b.units, id) == Some(u))
  }

  lemma SameValues(a: Run, b: Run, from: Source)
    requires SameSources(a, b)
    ensures forall v :: SourceValue(a, from, v) <==> SourceValue(b, from, v)
    ensures HasValue(a, from) <==> HasValue(b, from)
  {
    hide FindUnit, FirstNamed;
    forall v
      ensures SourceValue(a, from, v) <==> SourceValue(b, from, v)
    {
    }
    assert HasValue(a, from) ==> exists v :: SourceValue(a, from, v);
  }

  lemma SameAnswers(w: World, a: Run, b: Run, pu: PlanUnit, number: nat, result: ExecutorResult)
    requires SameSources(a, b) && Answers(w, a, pu, number, result)
    ensures Answers(w, b, pu, number, result)
  {
    hide FailsEarly, SameSources, SourceValue, HasValue;
    var inputs := pu.declaration.inputs;
    assert a.runId == b.runId by {
      SameRunId(a, b);
    }
    forall i | 0 <= i < |inputs|
      ensures HasValue(a, inputs[i].from) <==> HasValue(b, inputs[i].from)
    {
      SameValues(a, b, inputs[i].from);
    }
    forall values: seq<NamedValue>
      ensures Carries(a, inputs, values) <==> Carries(b, inputs, values)
    {
      SameCarried(a, b, inputs, values);
    }
    forall i: nat
      ensures FirstMissing(a, inputs, i) <==> FirstMissing(b, inputs, i)
    {
    }
  }

  lemma SameRunId(a: Run, b: Run)
    requires SameSources(a, b)
    ensures a.runId == b.runId
  {
  }

  lemma SameCarried(a: Run, b: Run, inputs: seq<NamedSource>, values: seq<NamedValue>)
    requires SameSources(a, b)
    ensures Carries(a, inputs, values) <==> Carries(b, inputs, values)
  {
    hide SameSources, SourceValue;
    forall i | 0 <= i < |inputs| {
      SameValues(a, b, inputs[i].from);
    }
  }

  // ----- what is recorded

  // The failure recorded for a result: its own, or one that names the outcome and the unit.
  ghost predicate RecordedFailure(id: UnitId, result: ExecutorResult, f: FailureSummary) {
    match result.failure
    case Some(own) => f == own
    case None =>
      f.code == None &&
      match result.outcome
      case OutcomeTimedOut => f.message == "Execution timed_out for " + id
      case OutcomeFailed => f.message == "Execution failed for " + id
      case OutcomeCanceled => f.message == "Execution canceled for " + id
      case OutcomeInterrupted => f.message == "Execution interrupted for " + id
      case OutcomeSucceeded => true
  }

  // An output recorded under a declared name carries the value the executor gave for that name.
  ghost function Produced(result: ExecutorResult): (string, NamedValue) -> bool {
    (name: string, out: NamedValue) => out.name == name && name in result.outputs && out.value == result.outputs[name]
  }

  lemma {:induction false} DeclaredOutputsMean(names: seq<string>, result: ExecutorResult)
    ensures SelectedFrom(names, DeclaredOutputs(names, result.outputs), Produced(result))
  {
    hide SelectedFrom;
    if names == [] {
      SelectNone(Produced(result));
    } else {
      var part := if names[0] in result.outputs then [NamedValue(names[0], result.outputs[names[0]])] else [];
      DeclaredOutputsMean(names[1..], result);
      assert IsPart(names[0], part, Produced(result));
      SelectMore(names[1..], DeclaredOutputs(names[1..], result.outputs), Produced(result), names[0], part);
      assert [names[0]] + names[1..] == names;
    }
  }

  // How a unit and its attempt stand after the attempt ended with this result.
  ghost predicate Ends(w: World, runId: RunId, pu: PlanUnit, result: ExecutorResult, after: UnitState, a: Attempt) {
    match result.outcome
    case OutcomeSucceeded =>
      && after.status == Succeeded && after.failure == None && after.skipReason == None && after.nextRetryAt == None
      && a.status == SucceededAttempt && a.failure == None
    case OutcomeTimedOut =>
      && after.status == TimedOut && after.skipReason == None && after.nextRetryAt == None
      && after.failure.Some? && RecordedFailure(after.unitId, result, after.failure.value)
      && a.status == TimedOutAttempt && a.failure == after.failure
    case _ =>
      && after.status == Failed && a.status == FailedAttempt && a.failure == after.failure
      && after.failure.Some? && RecordedFailure(after.unitId, result, after.failure.value)
      && after.nextRetryAt == (if AllowsMore(pu, a.number) then Some(w.retryAt(runId, after.unitId, a.number)) else None)
      && (after.nextRetryAt == None ==> after.skipReason == None)
  }

  // What one more attempt with this result makes of a pending unit.
  ghost predicate Records(w: World, runId: RunId, pu: PlanUnit, before: UnitState, after: UnitState, result: ExecutorResult) {
    var n := |before.attempts|;
    && after.unitId == before.unitId
    && |after.attempts| == n + 1 && after.attempts[..n] == before.attempts
    && var a := after.attempts[n];
       && a.number == n + 1 && a.logs == result.logs && a.artifacts == result.artifacts && a.outputs == after.outputs
       && SelectedFrom(pu.declaration.outputs, after.outputs, Produced(result))
       && after.logs == before.logs + result.logs && after.artifacts == before.artifacts + result.artifacts
       && Ends(w, runId, pu, result, after, a)
  }

  lemma FailureRecorded(id: UnitId, result: ExecutorResult)
    ensures RecordedFailure(id, result, ToFailure(id, result))
  {
  }

  // A completed attempt in full: the earlier attempts, the new one, and the unit's own fields.
  lemma CompletedRecord(w: World, runId: RunId, pu: PlanUnit, running: UnitState, result: ExecutorResult)
    requires Numbered(running.attempts) && running.attempts != [] && running.failure == None && running.nextRetryAt == None
    ensures var n := |running.attempts| - 1;
            Records(w, runId, pu, running.(attempts := running.attempts[..n]),
                    CompletedUnit(w, runId, pu, running, n + 1, result), result)
  {
    hide ToFailure, RecordedFailure, SelectedFrom, Produced, DeclaredOutputs, RetriesAfter, AllowsMore, LargestLimit,
      AttemptIndex;
    var n := |running.attempts|;
    NumberedIndex(running.attempts, n);
    RetriesAfterMeans(pu, n);
    FailureRecorded(running.unitId, result);
    DeclaredOutputsMean(pu.declaration.outputs, result);
  }

  lemma RunningStart(u: UnitState)
    requires Sound(u) && u.status == Pending
    ensures var running := RunningUnit(ReadyUnit(u));
            && running == u.(status := Running, failure := None, attempts := u.attempts + [StartedAttempt(|u.attempts| + 1)])
            && Numbered(running.attempts) && running.nextRetryAt == None
            && running.attempts[..|u.attempts|] == u.attempts && NextAttemptNumber(u.attempts) == |u.attempts| + 1
  {
    hide RunningUnit, NextAttemptNumber;
    NumberedNext(u.attempts);
    RunningUnitIs(ReadyUnit(u));
  }

  // The unit before the attempt, with whatever failure an earlier attempt left.
  lemma RecordsFrom(w: World, runId: RunId, pu: PlanUnit, a: UnitState, b: UnitState, after: UnitState, result: ExecutorResult)
    requires Records(w, runId, pu, a, after, result)
    requires a.unitId == b.unitId && a.attempts == b.attempts && a.logs == b.logs && a.artifacts == b.artifacts
    ensures Records(w, runId, pu, b, after, result)
  {
    hide SelectedFrom, Ends;
  }

  // The one attempt the engine made: what it was asked, what it answered, and what was recorded.
  ghost predicate AttemptMade(w: World, run: Run, id: UnitId, r: Run, result: ExecutorResult)
    requires FindUnit(run.units, id).Some? && id in PlanIds(run.plan)
  {
    var u, pu := UnitOf(run, id), UnitWithId(run.plan, id);
    && Answers(w, run, pu, |u.attempts| + 1, result)
    && FindUnit(r.units, id).Some? && Records(w, run.runId, pu, u, UnitOf(r, id), result)
    && (forall other :: other != id ==> FindUnit(r.units, other) == FindUnit(run.units, other))
    && r.logs == run.logs + result.logs && r.artifacts == run.artifacts + result.artifacts
    && r.plan == run.plan && r.inputs == run.inputs && r.runId == run.runId && r.status == run.status
  }

  lemma DispatchedSources(run: Run, id: UnitId)
    requires id in PlanIds(run.plan) && FindUnit(run.units, id).Some? && UnitOf(run, id).status == Pending && Sound(UnitOf(run, id))
    ensures SameSources(run, DispatchedRun(run, UnitOf(run, id))) && DispatchedRun(run, UnitOf(run, id)).runId == run.runId
  {
    hide FindUnit, ReplaceIn, SummarizeProgress, ResolveOutputs, Sound, NextAttemptNumber, RunningUnit;
    var u := UnitOf(run, id);
    RunningStart(u);
    ReplaceTwice(run.units, ReadyUnit(u), RunningUnit(ReadyUnit(u)));
    forall other
      ensures FindUnit(DispatchedRun(run, u).units, other)
              == if other == id then Some(RunningUnit(ReadyUnit(u))) else FindUnit(run.units, other)
    {
      FindReplaced(run.units, RunningUnit(ReadyUnit(u)), other);
    }
  }

  lemma ExecutedAppends(w: World, run: Run, pu: PlanUnit, u: UnitState)
    ensures var r, n := ExecutedRun(w, run, pu, u), NextAttemptNumber(u.attempts);
            var result := AttemptResult(w, DispatchedRun(run, u), pu, n);
            && r.logs == run.logs + result.logs && r.artifacts == run.artifacts + result.artifacts
            && r.plan == run.plan && r.inputs == run.inputs && r.runId == run.runId && r.status == run.status
  {
    hide AttemptResult, NextAttemptNumber, ReplaceIn, SummarizeProgress, ResolveOutputs, CompletedUnit;
  }

  // Executing a ready unit makes one attempt: it is asked the values of the declared sources, and its
  // result is recorded on the attempt, the unit and the run.
  lemma ExecutedIsMade(w: World, run: Run, id: UnitId)
    requires AtRest(run) && IsReady(run, id)
    ensures id in PlanIds(run.plan) && FindUnit(run.units, id).Some?
    ensures var u, pu := UnitOf(run, id), UnitWithId(run.plan, id);
            var result := AttemptResult(w, DispatchedRun(run, u), pu, |u.attempts| + 1);
            AttemptMade(w, run, id, ExecutedRun(w, run, pu, u), result)
  {
    hide FindUnit, UnitWithId, Decide, Answers, AttemptResult, Records, DispatchedRun, CompletedUnit, RunningUnit,
      NextAttemptNumber, ExecutedRun, SameSources, ReplaceIn;
    var u, pu := UnitOf(run, id), UnitWithId(run.plan, id);
    assert u in run.units && Sound(u) && u.status == Pending;
    var dispatched, n := DispatchedRun(run, u), |u.attempts| + 1;
    var result := AttemptResult(w, dispatched, pu, n);
    RunningStart(u);
    DispatchedSources(run, id);
    ResultAnswers(w, dispatched, pu, n);
    SameSourcesBack(run, dispatched);
    SameAnswers(w, dispatched, run, pu, n, result);
    ExecutedAppends(w, run, pu, u);
    var running := RunningUnit(ReadyUnit(u));
    CompletedRecord(w, run.runId, pu, running, result);
    var after := CompletedUnit(w, run.runId, pu, running, n, result);
    RecordsFrom(w, run.runId, pu, running.(attempts := running.attempts[..n - 1]), u, after, result);
    ExecutedReplaces(w, run, pu, u);
    AttemptedKeepsId(w, dispatched, pu, u, after);
    ReplacedSameBut(run, ExecutedRun(w, run, pu, u), after);
  }

  lemma SameSourcesBack(a: Run, b: Run)
    requires SameSources(a, b)
    ensures SameSources(b, a)
  {
    hide FindUnit;
  }

  lemma AttemptedKeepsId(w: World, run: Run, pu: PlanUnit, u: UnitState, after: UnitState)
    requires Sound(u) && u.status == Pending
    requires after == CompletedUnit(w, run.runId, pu, RunningUnit(ReadyUnit(u)), |u.attempts| + 1, AttemptResult(w, run, pu, |u.attempts| + 1))
    ensures Attempted(w, run, pu, u) == after && after.unitId == u.unitId
  {
    hide CompletedUnit, AttemptResult, NextAttemptNumber, RunningUnit;
    NumberedNext(u.attempts);
    AttemptedIs(w, run, pu, u);
  }

  // ----- what the log says of it

  // The two events that end an attempt say what is stored: its status, its failure, and the retry.
  ghost predicate TellsEnd(first: Event, second: Event, after: UnitState, n: nat) {
    match after.status
    case Succeeded => first == AttemptSucceeded(after.unitId, n) && second == UnitSucceeded(after.unitId)
    case TimedOut =>
      && after.failure.Some?
      && first == AttemptTimedOut(after.unitId, n, after.failure.value) && second == UnitTimedOut(after.unitId, after.failure.value)
    case _ =>
      && after.failure.Some? && first == AttemptFailed(after.unitId, n, after.failure.value)
      && second == match after.nextRetryAt
         case Some(at) => RetryScheduled(after.unitId, n, n + 1, at)
         case None => UnitFailed(after.unitId, after.failure.value)
  }

  lemma CompletionTells(w: World, runId: RunId, pu: PlanUnit, running: UnitState, result: ExecutorResult)
    requires running.nextRetryAt == None
    ensures var n := |running.attempts|;
            var es := CompletionEvents(pu, running.unitId, n, result, w.retryAt(runId, running.unitId, n));
            |es| == 2 && TellsEnd(es[0], es[1], CompletedUnit(w, runId, pu, running, n, result), n)
  {
    hide ToFailure, DeclaredOutputs, RetriesAfter, AttemptIndex;
  }

  // The log of one attempt: made ready, dispatched, started, each payload of the result, the end.
  ghost predicate Tells(es: seq<Event>, after: UnitState, n: nat, result: ExecutorResult) {
    var id, l, a := after.unitId, |result.logs|, |result.artifacts|;
    && |es| == l + a + 5
    && es[0] == UnitReady(id) && es[1] == UnitDispatched(id, n) && es[2] == AttemptStarted(id, n)
    && (forall i :: 0 <= i < l ==> es[3 + i] == LogRegistered(id, n, result.logs[i]))
    && (forall i :: 0 <= i < a ==> es[3 + l + i] == ArtifactRegistered(id, n, result.artifacts[i]))
    && TellsEnd(es[3 + l + a], es[4 + l + a], after, n)
  }

  lemma SkipEventsTell(skips: seq<SkipRecord>)
    ensures |SkipEvents(skips)| == |skips|
    ensures forall i :: 0 <= i < |skips| ==> SkipEvents(skips)[i] == UnitSkipped(skips[i].unitId, skips[i].reason)
  {
    if skips != [] {
      SkipEventsTell(skips[..|skips| - 1]);
    }
  }
}

// The orchestrator: commits to the state store and the event log, and the loop that advances a run.

module Engine {
  import opened Basics
  import opened Plans
  import opened RunState
  import opened Decision
  import opened SkipFixpoint
  import opened Dispatch
  import opened AttemptRecord
  import opened Semantics
  import opened Preservation
  import opened History
  import opened Invariants
  import opened Lifecycle
  import opened Progress
  import opened EventLog

  lemma {:induction false} PlaysStep(w: World, a: Stored, steps: seq<Step>, b: Stored, step: Step)
    requires Plays(w, a, steps, b) && Enabled(b, step)
    ensures Plays(w, a, steps + [step], Apply(w, b, step))
  {
    hide Enabled, Apply, Plays;
    PlaysOne(w, b, step);
    PlaysAppend(w, a, steps, b, [step], Apply(w, b, step));
  }

  lemma ReachableStep(w: World, s: Stored, step: Step)
    requires Reachable(w, s) && Enabled(s, step)
    ensures Reachable(w, Apply(w, s, step))
  {
    hide Enabled, Apply, Plays, Created, Sensible;
    var plan, runId, inputs, steps :| Sensible(plan) && Plays(w, Created(plan, runId, inputs), steps, s);
    PlaysStep(w, Created(plan, runId, inputs), steps, s, step);
  }

  lemma ReachableCreated(w: World, plan: Plan, runId: RunId, inputs: seq<NamedValue>)
    requires Sensible(plan)
    ensures Reachable(w, Created(plan, runId, inputs))
  {
    hide Created, Sensible;
    assert Plays(w, Created(plan, runId, inputs), [], Created(plan, runId, inputs));
  }

  // The three commits of one attempt add up to executing the unit.
  lemma ReadyThenDispatch(run: Run, id: UnitId)
    requires AtRest(run) && IsReady(run, id) && run.status == RunningRun
    ensures var u := UnitOf(run, id);
            var ready := ReadyRun(run, u);
            && ready.status == RunningRun && ready.plan == run.plan && ready.runId == run.runId
            && HasStatus(ready, id, Ready) && UnitOf(ready, id) == ReadyUnit(u)
            && ReplaceUnit(ready, RunningUnit(UnitOf(ready, id))) == DispatchedRun(run, u)
  {
    hide FindUnit, UnitWithId, Decide, SummarizeProgress, ResolveOutputs, ReplaceIn, RunningUnit;
    var u := UnitOf(run, id);
    FindReplaced(run.units, ReadyUnit(u), id);
  }

  lemma DispatchThenComplete(w: World, run: Run, id: UnitId)
    requires AtRest(run) && IsReady(run, id) && run.status == RunningRun
    ensures var u, pu := UnitOf(run, id), UnitWithId(run.plan, id);
            var dispatched, number := DispatchedRun(run, u), NextAttemptNumber(u.attempts);
            && dispatched.status == RunningRun && dispatched.plan == run.plan && dispatched.runId == run.runId
            && HasStatus(dispatched, id, Running) && UnitOf(dispatched, id) == RunningUnit(ReadyUnit(u))
            && number == |UnitOf(dispatched, id).attempts|
            && RunAfter(w, dispatched, Complete(id, AttemptResult(w, dispatched, pu, number))) == ExecutedRun(w, run, pu, u)
            && ExecutedRun(w, run, pu, u).status == RunningRun && ExecutedRun(w, run, pu, u).runId == run.runId
  {
    hide FindUnit, UnitWithId, Decide, SummarizeProgress, ResolveOutputs, ReplaceIn, RunningUnit, NextAttemptNumber,
      CompletedUnit, AttemptResult, Sound, ReadyRun;
    var u, pu := UnitOf(run, id), UnitWithId(run.plan, id);
    assert Sound(u);
    SoundIsNumbered(u);
    NumberedNext(u.attempts);
    RunningUnitIs(ReadyUnit(u));
    ReadyThenDispatch(run, id);
    FindReplaced(ReadyRun(run, u).units, RunningUnit(ReadyUnit(u)), id);
    ExecutedReplaces(w, run, pu, u);
  }

  lemma SoundIsNumbered(u: UnitState)
    requires Sound(u)
    ensures Numbered(u.attempts)
  {
  }

  // Executing a ready unit changes nothing another decision was made on.
  lemma ExecuteExtends(w: World, run: Run, id: UnitId, other: UnitId)
    requires AtRest(run) && IsReady(run, id)
    ensures var next := ExecutedRun(w, run, UnitWithId(run.plan, id), UnitOf(run, id));
            Extends(run, next) && (other != id ==> FindUnit(next.units, other) == FindUnit(run.units, other))
  {
    hide FindUnit, UnitWithId, Decide, ExecutedRun, Attempted, DispatchedRun, Extends, ReplaceIn;
    var u, pu := UnitOf(run, id), UnitWithId(run.plan, id);
    var after := Attempted(w, DispatchedRun(run, u), pu, u);
    ExecutedReplaces(w, run, pu, u);
    AttemptedIs(w, DispatchedRun(run, u), pu, u);
    ReplaceExtends(run, ExecutedRun(w, run, pu, u), after);
    ReplacedSameBut(run, ExecutedRun(w, run, pu, u), after);
  }

  // A batch member stays ready while an earlier member of the batch is executed.
  lemma ExecuteKeepsReady(w: World, run: Run, id: UnitId, other: UnitId)
    requires AtRest(run) && IsReady(run, id) && IsReady(run, other) && id != other
    ensures IsReady(ExecutedRun(w, run, UnitWithId(run.plan, id), UnitOf(run, id)), other)
  {
    hide FindUnit, UnitWithId, Decide, ExecutedRun, AtRest;
    ExecuteExtends(w, run, id, other);
    DecisionStable(run, ExecutedRun(w, run, UnitWithId(run.plan, id), UnitOf(run, id)), UnitWithId(run.plan, other));
  }

  // These units have one attempt more than before, and no other unit has changed.
  ghost predicate AttemptedOnce(a: Run, b: Run, ids: seq<UnitId>) {
    forall id ::
      if id in ids then
        && FindUnit(a.units, id).Some? && FindUnit(b.units, id).Some?
        && |UnitOf(b, id).attempts| == |UnitOf(a, id).attempts| + 1
        && UnitOf(b, id).attempts[..|UnitOf(a, id).attempts|] == UnitOf(a, id).attempts
      else FindUnit(b.units, id) == FindUnit(a.units, id)
  }

  lemma ExecuteAttemptsOnce(w: World, run: Run, id: UnitId)
    requires AtRest(run) && IsReady(run, id)
    ensures AttemptedOnce(run, ExecutedRun(w, run, UnitWithId(run.plan, id), UnitOf(run, id)), [id])
  {
    hide FindUnit, UnitWithId, Decide, ExecutedRun, Attempted, DispatchedRun, ReplaceIn;
    var u, pu := UnitOf(run, id), UnitWithId(run.plan, id);
    var after := Attempted(w, DispatchedRun(run, u), pu, u);
    ExecutedReplaces(w, run, pu, u);
    AttemptedIs(w, DispatchedRun(run, u), pu, u);
    ReplacedSameBut(run, ExecutedRun(w, run, pu, u), after);
  }

  lemma AttemptedNone(run: Run)
    ensures AttemptedOnce(run, run, [])
  {
  }

  lemma AttemptedNext(a: Run, b: Run, c: Run, ids: seq<UnitId>, id: UnitId)
    requires AttemptedOnce(a, b, ids) && AttemptedOnce(b, c, [id]) && id !in ids
    ensures AttemptedOnce(a, c, ids + [id])
  {
    hide FindUnit;
    assert forall x :: x in ids + [id] <==> x in ids || x in [id];
  }

  lemma ReadyStep(w: World, s: Stored, id: UnitId)
    requires AtRest(s.run) && IsReady(s.run, id) && s.run.status == RunningRun
    ensures Enabled(s, MakeReady(id))
    ensures Apply(w, s, MakeReady(id)) == Stored(ReadyRun(s.run, UnitOf(s.run, id)), s.log + [UnitReady(id)])
  {
    hide FindUnit, UnitWithId, Decide, AtRest, ReadyRun;
    RestIsNoneInFlight(s.run);
  }

  lemma DispatchStep(w: World, s: Stored, id: UnitId)
    requires HasStatus(s.run, id, Ready) && s.run.status == RunningRun
    ensures Enabled(s, DispatchUnit(id))
    ensures var u := UnitOf(s.run, id);
            var number := NextAttemptNumber(u.attempts);
            Apply(w, s, DispatchUnit(id))
            == Stored(ReplaceUnit(s.run, RunningUnit(u)), s.log + [UnitDispatched(id, number), AttemptStarted(id, number)])
  {
    hide FindUnit, RunningUnit, NextAttemptNumber, ReplaceUnit;
  }

  lemma CompleteStep(w: World, s: Stored, id: UnitId, result: ExecutorResult)
    requires HasStatus(s.run, id, Running) && s.run.status == RunningRun && Possible(s.run, UnitWithId(s.run.plan, id), result)
    ensures Enabled(s, Complete(id, result))
    ensures var u, pu := UnitOf(s.run, id), UnitWithId(s.run.plan, id);
            var number := |u.attempts|;
            Apply(w, s, Complete(id, result))
            == Stored(CompletedRun(w, s.run, pu, u, number, result),
                      s.log + CompletionEvents(pu, id, number, result, w.retryAt(s.run.runId, id, number)))
  {
    hide FindUnit, UnitWithId, CompletedRun, CompletionEvents, Possible;
  }

  lemma NothingSkipped()
    ensures SkipEvents([]) == []
  {
  }

  // One event per registered log, then one per registered artifact.
  function PayloadEvents(id: UnitId, number: nat, result: ExecutorResult): seq<Event> {
    seq(|result.logs|, i requires 0 <= i < |result.logs| => LogRegistered(id, number, result.logs[i]))
    + seq(|result.artifacts|, i requires 0 <= i < |result.artifacts| => ArtifactRegistered(id, number, result.artifacts[i]))
  }

  function DispatchEvents(run: Run, id: UnitId): seq<Event>
    requires FindUnit(run.units, id).Some?
  {
    var number := NextAttemptNumber(UnitOf(run, id).attempts);
    [UnitReady(id)] + [UnitDispatched(id, number), AttemptStarted(id, number)]
  }

  // What one attempt of a ready unit logs, in order.
  ghost function AttemptEvents(w: World, run: Run, id: UnitId): seq<Event>
    requires AtRest(run) && IsReady(run, id)
  {
    var u, pu := UnitOf(run, id), UnitWithId(run.plan, id);
    var number := NextAttemptNumber(u.attempts);
    var result := AttemptResult(w, DispatchedRun(run, u), pu, number);
    DispatchEvents(run, id) + PayloadEvents(id, number, result)
    + CompletionEvents(pu, id, number, result, w.retryAt(run.runId, id, number))
  }

  lemma AttemptEventsAre(w: World, run: Run, id: UnitId)
    requires AtRest(run) && IsReady(run, id)
    ensures var u, pu := UnitOf(run, id), UnitWithId(run.plan, id);
            var number := NextAttemptNumber(u.attempts);
            var result := AttemptResult(w, DispatchedRun(run, u), pu, number);
            AttemptEvents(w, run, id)
            == DispatchEvents(run, id) + PayloadEvents(id, number, result)
               + CompletionEvents(pu, id, number, result, w.retryAt(run.runId, id, number))
  {
  }

  lemma PartsTell(opening: seq<Event>, ending: seq<Event>, after: UnitState, n: nat, result: ExecutorResult)
    requires opening == [UnitReady(after.unitId), UnitDispatched(after.unitId, n), AttemptStarted(after.unitId, n)]
    requires |ending| == 2 && TellsEnd(ending[0], ending[1], after, n)
    ensures Tells(opening + PayloadEvents(after.unitId, n, result) + ending, after, n, result)
  {
    hide TellsEnd;
  }

  // The events of an attempt tell what it stored.
  lemma AttemptEventsTell(w: World, run: Run, id: UnitId)
    requires AtRest(run) && IsReady(run, id)
    ensures id in PlanIds(run.plan) && FindUnit(run.units, id).Some?
    ensures var u, pu := UnitOf(run, id), UnitWithId(run.plan, id);
            var n := |u.attempts| + 1;
            var result := AttemptResult(w, DispatchedRun(run, u), pu, n);
            Tells(AttemptEvents(w, run, id), Attempted(w, DispatchedRun(run, u), pu, u), n, result)
  {
    hide FindUnit, UnitWithId, Decide, AttemptResult, CompletedUnit, CompletionEvents, NextAttemptNumber, RunningUnit,
      TellsEnd, DispatchedRun, AttemptEvents, PayloadEvents, Tells, ReadyUnit;
    var u, pu := UnitOf(run, id), UnitWithId(run.plan, id);
    assert u in run.units && Sound(u);
    AttemptEventsAre(w, run, id);
    RunningStart(u);
    DispatchedSources(run, id);
    AttemptedIs(w, DispatchedRun(run, u), pu, u);
    var result := AttemptResult(w, DispatchedRun(run, u), pu, |u.attempts| + 1);
    var n, running := |u.attempts| + 1, RunningUnit(ReadyUnit(u));
    CompletionTells(w, run.runId, pu, running, result);
    PartsTell(DispatchEvents(run, id), CompletionEvents(pu, id, n, result, w.retryAt(run.runId, id, n)),
      Attempted(w, DispatchedRun(run, u), pu, u), n, result);
  }

  // What one attempt does to the stored run, and what it logs.
  ghost predicate MadeAndTold(w: World, run: Run, id: UnitId, r: Run, es: seq<Event>)
    requires FindUnit(run.units, id).Some? && id in PlanIds(run.plan)
  {
    exists result :: AttemptMade(w, run, id, r, result) && Tells(es, UnitOf(r, id), |UnitOf(run, id).attempts| + 1, result)
  }

  lemma ExecutionIsTold(w: World, run: Run, id: UnitId)
    requires AtRest(run) && IsReady(run, id)
    ensures id in PlanIds(run.plan) && FindUnit(run.units, id).Some?
    ensures MadeAndTold(w, run, id, ExecutedRun(w, run, UnitWithId(run.plan, id), UnitOf(run, id)), AttemptEvents(w, run, id))
  {
    hide FindUnit, UnitWithId, Decide, AttemptResult, Attempted, Tells, Answers, Records, DispatchedRun, AttemptEvents,
      ExecutedRun, ReplaceIn;
    var u, pu := UnitOf(run, id), UnitWithId(run.plan, id);
    ExecutedIsMade(w, run, id);
    AttemptEventsTell(w, run, id);
    AttemptedIs(w, DispatchedRun(run, u), pu, u);
    ExecutedReplaces(w, run, pu, u);
    ReplacedSameBut(run, ExecutedRun(w, run, pu, u), Attempted(w, DispatchedRun(run, u), pu, u));
  }

  // The log went on with one part for each of these units, in this order, each opened by the unit
  // being made ready.
  ghost predicate ToldInOrder(before: seq<Event>, after: seq<Event>, ids: seq<UnitId>) {
    exists parts :: |parts| == |ids| && after == before + Concat(parts) && forall k :: 0 <= k < |ids| ==> Opens(parts[k], ids[k])
  }

  ghost predicate Opens(part: seq<Event>, id: UnitId) {
    part != [] && part[0] == UnitReady(id) && forall k :: 0 < k < |part| ==> !part[k].UnitReady?
  }

  lemma ToldNone(log: seq<Event>)
    ensures ToldInOrder(log, log, [])
  {
    var parts: seq<seq<Event>> := [];
    assert log == log + Concat(parts);
  }

  lemma ToldNext(before: seq<Event>, log: seq<Event>, ids: seq<UnitId>, part: seq<Event>, id: UnitId)
    requires ToldInOrder(before, log, ids) && Opens(part, id)
    ensures ToldInOrder(before, log + part, ids + [id])
  {
    hide Opens;
    var parts :| |parts| == |ids| && log == before + Concat(parts) && forall k :: 0 <= k < |ids| ==> Opens(parts[k], ids[k]);
    ConcatMore(parts, part);
    assert log + part == before + Concat(parts + [part]);
  }

  lemma TellsOpens(es: seq<Event>, after: UnitState, n: nat, result: ExecutorResult)
    requires Tells(es, after, n, result)
    ensures Opens(es, after.unitId)
  {
    hide TellsEnd;
    EndIsNoReady(es[|es| - 2], es[|es| - 1], after, n);
    var l, a := |result.logs|, |result.artifacts|;
    forall k | 3 <= k < 3 + l + a
      ensures !es[k].UnitReady?
    {
      if k < 3 + l {
        assert es[3 + (k - 3)] == LogRegistered(after.unitId, n, result.logs[k - 3]);
      } else {
        assert es[3 + l + (k - 3 - l)] == ArtifactRegistered(after.unitId, n, result.artifacts[k - 3 - l]);
      }
    }
  }

  lemma EndIsNoReady(first: Event, second: Event, after: UnitState, n: nat)
    requires TellsEnd(first, second, after, n)
    ensures !first.UnitReady? && !second.UnitReady?
  {
  }

  lemma AttemptOpens(w: World, run: Run, id: UnitId, r: Run, es: seq<Event>)
    requires FindUnit(run.units, id).Some? && id in PlanIds(run.plan) && MadeAndTold(w, run, id, r, es)
    ensures Opens(es, id)
  {
    hide FindUnit, Answers, UnitWithId, Records, Tells, Opens;
    var n := |UnitOf(run, id).attempts| + 1;
    var result :| AttemptMade(w, run, id, r, result) && Tells(es, UnitOf(r, id), n, result);
    TellsOpens(es, UnitOf(r, id), n, result);
  }

  // ----- the rounds of the loop

  // Everything that can be skipped is skipped, one justified skip after another, each with its event.
  ghost predicate SkippedTo(a: Stored, mid: Stored) {
    exists skips ::
      && LegalSkips(a.run, skips) && NothingToSkip(mid.run)
      && mid.run == ApplySkips(a.run, skips) && mid.log == a.log + SkipEvents(skips)
  }

  // All units that are ready are executed, in the order of their ids, once each.
  ghost predicate RanReady(mid: Stored, b: Stored) {
    exists batch ::
      && batch != [] && Sorting.InOrder(batch) && (forall id :: id in batch <==> IsReady(mid.run, id))
      && AttemptedOnce(mid.run, b.run, batch) && ToldInOrder(mid.log, b.log, batch)
  }

  // With no unit ready, the earliest scheduled retry is woken, and nothing is logged.
  ghost predicate WokeEarliest(mid: Stored, b: Stored) {
    && (forall id :: !IsReady(mid.run, id)) && NextRetry(mid.run.units).Some?
    && b == Stored(ReplaceUnit(mid.run, Woken(NextRetry(mid.run.units).value)), mid.log)
  }

  // One round of the loop: skips first, then one batch or, if nothing is ready, one retry.
  ghost predicate Round(a: Stored, b: Stored) {
    exists mid :: SkippedTo(a, mid) && !AllSettled(mid.run) && (RanReady(mid, b) || WokeEarliest(mid, b))
  }

  // The last round: skips, then the outcome of a settled run, or no more to do.
  ghost predicate LastRound(a: Stored, b: Stored) {
    exists mid ::
      && SkippedTo(a, mid)
      && if AllSettled(mid.run) then b == Stored(FinalizeRun(mid.run), mid.log + [FinishEvent(FinalizeRun(mid.run))])
         else b == mid && (forall id :: !IsReady(mid.run, id)) && NextRetry(mid.run.units).None?
  }

  // A number of rounds, one after another.
  ghost predicate Rounds(a: Stored, b: Stored) {
    exists states: seq<Stored> ::
      && states != [] && states[0] == a && states[|states| - 1] == b
      && forall i :: 0 <= i < |states| - 1 ==> Round(states[i], states[i + 1])
  }

  // From one stored state to another by rounds, the last one closing.
  ghost predicate InRounds(a: Stored, b: Stored) {
    exists last :: Rounds(a, last) && LastRound(last, b)
  }

  lemma NoRounds(a: Stored)
    ensures Rounds(a, a)
  {
    var states := [a];
    assert states[0] == a && states[|states| - 1] == a;
  }

  lemma OneMoreRound(a: Stored, b: Stored, c: Stored)
    requires Rounds(a, b) && Round(b, c)
    ensures Rounds(a, c)
  {
    hide Round;
    var states: seq<Stored> :|
      && states != [] && states[0] == a && states[|states| - 1] == b
      && forall i :: 0 <= i < |states| - 1 ==> Round(states[i], states[i + 1]);
    var next := states + [c];
    assert next[0] == a && next[|next| - 1] == c;
  }

  lemma RoundRuns(a: Stored, mid: Stored, b: Stored, batch: seq<UnitId>)
    requires SkippedTo(a, mid) && !AllSettled(mid.run) && batch != [] && Sorting.InOrder(batch)
    requires forall id :: id in batch <==> IsReady(mid.run, id)
    requires AttemptedOnce(mid.run, b.run, batch) && ToldInOrder(mid.log, b.log, batch)
    ensures Round(a, b)
  {
    hide SkippedTo, AllSettled, IsReady, AttemptedOnce, ToldInOrder, Sorting.InOrder, WokeEarliest;
    assert RanReady(mid, b);
  }

  lemma RoundWakes(a: Stored, mid: Stored, b: Stored)
    requires SkippedTo(a, mid) && !AllSettled(mid.run) && (forall id :: !IsReady(mid.run, id)) && NextRetry(mid.run.units).Some?
    requires b.run == ReplaceUnit(mid.run, Woken(NextRetry(mid.run.units).value)) && b.log == mid.log
    ensures Round(a, b)
  {
    hide SkippedTo, AllSettled, IsReady, NextRetry, ReplaceUnit, Woken, RanReady;
    assert WokeEarliest(mid, b);
  }

  lemma RoundCloses(a: Stored, mid: Stored, b: Stored)
    requires SkippedTo(a, mid)
    requires if AllSettled(mid.run) then
               b.run == FinalizeRun(mid.run) && b.log == mid.log + [FinishEvent(b.run)]
             else b == mid && (forall id :: !IsReady(mid.run, id)) && NextRetry(mid.run.units).None?
    ensures LastRound(a, b)
  {
    hide SkippedTo, AllSettled, IsReady, NextRetry, FinalizeRun, FinishEvent;
  }

  datatype InputsInvalid = UnknownInput(name: string) | MissingInput(name: string)

  function NameValues(names: seq<string>, provided: map<string, Value>): Result<seq<NamedValue>, InputsInvalid> {
    if names == [] then Success([])
    else if names[0] !in provided then Failure(MissingInput(names[0]))
    else
      match NameValues(names[1..], provided)
      case Failure(e) => Failure(e)
      case Success(values) => Success([NamedValue(names[0], provided[names[0]])] + values)
  }

  // Each declared input, in order, with the value provided for it.
  ghost predicate Provides(names: seq<string>, provided: map<string, Value>, inputs: seq<NamedValue>) {
    |inputs| == |names|
    && forall i :: 0 <= i < |names| ==> names[i] in provided && inputs[i] == NamedValue(names[i], provided[names[i]])
  }

  ghost predicate IsInvalid(names: seq<string>, provided: map<string, Value>, error: InputsInvalid) {
    match error
    case UnknownInput(name) => name in provided && name !in names
    case MissingInput(name) => name in names && name !in provided
  }

  // The store and the log survive a restart; the sequence cache does not.
  class Orchestrator {
    const world: World
    var runs: map<RunId, Run>
    var events: seq<EventRecord>
    var eventSequences: map<RunId, nat>

    ghost function StoredOf(id: RunId): Stored
      reads this
      requires id in runs
    {
      Stored(runs[id], EventsOf(events, id))
    }

    ghost predicate LogValid()
      reads this
    {
      && (forall id :: Sequenced(events, id))
      && (forall id :: id in eventSequences ==> eventSequences[id] == |RecordsOf(events, id)|)
    }

    // Every stored run is in a state some engine history leads to, and its log is numbered 1..n.
    ghost predicate Valid()
      reads this
    {
      && LogValid()
      && forall id :: id in runs ==> runs[id].runId == id && Reachable(world, StoredOf(id))
    }

    constructor (world: World)
      ensures Valid() && this.world == world && runs == map[] && events == []
    {
      this.world := world;
      runs, events, eventSequences := map[], [], map[];
    }

    // The number of the last event of the run: cached, or read back from the log.
    method LastSequence(runId: RunId) returns (sequence: nat)
      requires LogValid()
      modifies this`eventSequences
      ensures LogValid() && sequence == |RecordsOf(events, runId)|
      ensures eventSequences == old(eventSequences)[runId := sequence]
    {
      if runId in eventSequences {
        sequence := eventSequences[runId];
      } else {
        var records := RecordsOf(events, runId);
        assert Sequenced(events, runId);
        sequence := if records == [] then 0 else records[|records| - 1].sequence;
      }
      assert sequence == |RecordsOf(events, runId)|;
      eventSequences := eventSequences[runId := sequence];
    }

    method AppendEvent(runId: RunId, event: Event)
      requires LogValid()
      modifies this`events, this`eventSequences
      ensures LogValid()
      ensures EventsOf(events, runId) == old(EventsOf(events, runId)) + [event]
      ensures forall id :: id != runId ==> EventsOf(events, id) == old(EventsOf(events, id))
    {
      hide RecordsOf, Payloads;
      var last := LastSequence(runId);
      var sequence := last + 1;
      var record := EventRecord(runId, sequence, event);
      forall id
        ensures Sequenced(events + [record], id)
        ensures EventsOf(events + [record], id) == EventsOf(events, id) + if runId == id then [event] else []
        ensures |RecordsOf(events + [record], id)| == |RecordsOf(events, id)| + if runId == id then 1 else 0
      {
        AppendedRecords(events, record, id);
      }
      eventSequences := eventSequences[runId := sequence];
      events := events + [record];
    }

    method AppendEvents(runId: RunId, es: seq<Event>)
      requires LogValid()
      modifies this`events, this`eventSequences
      ensures LogValid()
      ensures EventsOf(events, runId) == old(EventsOf(events, runId)) + es
      ensures forall id :: id != runId ==> EventsOf(events, id) == old(EventsOf(events, id))
    {
      hide EventsOf, Sequenced;
      for i := 0 to |es|
        invariant LogValid()
        invariant EventsOf(events, runId) == old(EventsOf(events, runId)) + es[..i]
        invariant forall id :: id != runId ==> EventsOf(events, id) == old(EventsOf(events, id))
      {
        assert es[..i + 1] == es[..i] + [es[i]];
        AppendEvent(runId, es[i]);
      }
      assert es[..|es|] == es;
    }

    // One transaction: the run's next state is persisted together with its events.
    method Commit(run: Run, es: seq<Event>, ghost step: Step)
      requires Valid() && run.runId in runs && Enabled(StoredOf(run.runId), step)
      requires Stored(run, StoredOf(run.runId).log + es) == Apply(world, StoredOf(run.runId), step)
      modifies this
      ensures Valid()
      ensures runs == old(runs)[run.runId := run]
      ensures StoredOf(run.runId) == Apply(world, old(StoredOf(run.runId)), step)
      ensures StoredOf(run.runId).log == old(StoredOf(run.runId).log) + es
      ensures forall id :: id != run.runId ==> EventsOf(events, id) == old(EventsOf(events, id))
    {
      hide Enabled, Apply, Reachable, EventsOf, Sequenced;
      ReachableStep(world, StoredOf(run.runId), step);
      runs := runs[run.runId := run];
      AppendEvents(run.runId, es);
    }

    // A crash and a new process over the same storage.
    method Restart()
      requires Valid()
      modifies this`eventSequences
      ensures Valid() && eventSequences == map[]
    {
      hide Reachable, EventsOf, Sequenced;
      eventSequences := map[];
    }

    ghost predicate Holds(run: Run)
      reads this
    {
      Valid() && run.runId in runs && runs[run.runId] == run
    }

    method ActivateRun(queued: Run) returns (r: Run, ghost steps: seq<Step>)
      requires Holds(queued)
      modifies this
      ensures Holds(r) && Plays(world, old(StoredOf(queued.runId)), steps, StoredOf(r.runId))
      ensures r == if queued.status == QueuedRun then WithStatus(queued, RunningRun) else queued
      ensures StoredOf(r.runId).log == old(StoredOf(queued.runId).log) + if queued.status == QueuedRun then [RunStarted] else []
      ensures runs == old(runs)[queued.runId := r]
      ensures forall id :: id != queued.runId ==> EventsOf(events, id) == old(EventsOf(events, id))
    {
      hide Reachable, EventsOf, Sequenced;
      steps := [];
      r := queued;
      if queued.status == QueuedRun {
        r := WithStatus(queued, RunningRun);
        Commit(r, [RunStarted], Activate);
        steps := [Activate];
        PlaysOne(world, old(StoredOf(queued.runId)), Activate);
      }
    }

    method EvaluatePending(run: Run) returns (r: Run, ghost skips: seq<SkipRecord>, ghost steps: seq<Step>)
      requires Holds(run) && Aligned(run) && run.status == RunningRun
      modifies this
      ensures Holds(r) && Plays(world, old(StoredOf(run.runId)), steps, StoredOf(r.runId))
      ensures LegalSkips(run, skips) && r == ApplySkips(run, skips) && NothingToSkip(r)
      ensures StoredOf(r.runId).log == old(StoredOf(run.runId).log) + SkipEvents(skips)
      ensures runs == old(runs)[run.runId := r]
      ensures forall id :: id != run.runId ==> EventsOf(events, id) == old(EventsOf(events, id))
    {
      hide Reachable, EventsOf, Sequenced, Aligned, NothingToSkip, LegalSkips, Skips, ApplySkip, SkipEvents, Plays;
      steps := [];
      var next, skipped := EvaluatePendingUnits(run);
      r, skips := next, skipped;
      SkipsKeepRun(run, skipped);
      if skipped == [] {
        assert r == run && SkipEvents([]) == [] by {
          NothingSkipped();
        }
        NoSteps(world, StoredOf(run.runId));
      } else {
        Commit(r, SkipEvents(skipped), SkipUnits(skipped));
        steps := [SkipUnits(skipped)];
        PlaysOne(world, old(StoredOf(run.runId)), SkipUnits(skipped));
      }
    }

    method RegisterPayloads(run: Run, id: UnitId, number: nat, result: ExecutorResult, ghost before: Stored, ghost steps0: seq<Step>)
      returns (ghost steps: seq<Step>)
      requires Holds(run) && run.status == RunningRun && Plays(world, before, steps0, StoredOf(run.runId))
      modifies this
      ensures Holds(run) && Plays(world, before, steps, StoredOf(run.runId))
      ensures StoredOf(run.runId).log == old(StoredOf(run.runId).log) + PayloadEvents(id, number, result)
      ensures runs == old(runs)
      ensures forall other :: other != run.runId ==> EventsOf(events, other) == old(EventsOf(events, other))
    {
      hide Reachable, EventsOf, Sequenced, Plays;
      steps := steps0;
      var toLog := PayloadEvents(id, number, result);
      for i := 0 to |toLog|
        invariant Holds(run) && Plays(world, before, steps, StoredOf(run.runId))
        invariant StoredOf(run.runId).log == old(StoredOf(run.runId).log) + toLog[..i]
        invariant runs == old(runs)
        invariant forall other :: other != run.runId ==> EventsOf(events, other) == old(EventsOf(events, other))
      {
        ghost var stored := StoredOf(run.runId);
        assert toLog[i].LogRegistered? || toLog[i].ArtifactRegistered?;
        PlaysStep(world, before, steps, stored, RegisterPayload(toLog[i]));
        Commit(run, [toLog[i]], RegisterPayload(toLog[i]));
        steps := steps + [RegisterPayload(toLog[i])];
        assert toLog[..i + 1] == toLog[..i] + [toLog[i]];
      }
      assert toLog[..|toLog|] == toLog;
    }

    // The first two commits of an attempt: the unit is ready, then running with a new attempt.
    method DispatchReadyUnit(run: Run, id: UnitId) returns (r: Run, ghost steps: seq<Step>)
      requires Holds(run) && AtRest(run) && run.status == RunningRun && IsReady(run, id)
      modifies this
      ensures Holds(r) && Plays(world, old(StoredOf(run.runId)), steps, StoredOf(r.runId))
      ensures r == DispatchedRun(run, UnitOf(run, id)) && r.runId == run.runId
      ensures StoredOf(r.runId).log == old(StoredOf(run.runId).log) + DispatchEvents(run, id)
      ensures runs == old(runs)[run.runId := r]
      ensures forall other :: other != run.runId ==> EventsOf(events, other) == old(EventsOf(events, other))
    {
      hide Enabled, Apply, Reachable, EventsOf, Sequenced, Plays, FindUnit, UnitWithId, Decide, AtRest, IsReady,
        ReadyRun, RunningUnit, NextAttemptNumber, DispatchedRun, SummarizeProgress, ResolveOutputs, ReplaceIn, PlanIds,
        Sound;
      ghost var before := StoredOf(run.runId);
      ReadyUnitIs(run, id);
      var u := UnitOf(run, id);
      ReadyThenDispatch(run, id);
      ReadyStep(world, before, id);

      var ready := ReadyRun(run, u);
      NoSteps(world, before);
      PlaysStep(world, before, [], before, MakeReady(id));
      Commit(ready, [UnitReady(id)], MakeReady(id));
      steps := [] + [MakeReady(id)];

      DispatchStep(world, StoredOf(run.runId), id);
      var number := NextAttemptNumber(u.attempts);
      r := ReplaceUnit(ready, RunningUnit(UnitOf(ready, id)));
      PlaysStep(world, before, steps, StoredOf(run.runId), DispatchUnit(id));
      Commit(r, [UnitDispatched(id, number), AttemptStarted(id, number)], DispatchUnit(id));
      steps := steps + [DispatchUnit(id)];
    }

    // One attempt of a ready unit: made ready, dispatched, executed, and its outcome committed.
    method ExecuteReadyUnit(run: Run, id: UnitId) returns (r: Run, ghost steps: seq<Step>)
      requires Holds(run) && AtRest(run) && run.status == RunningRun && IsReady(run, id)
      modifies this
      ensures Holds(r) && Plays(world, old(StoredOf(run.runId)), steps, StoredOf(r.runId))
      ensures r == ExecutedRun(world, run, UnitWithId(run.plan, id), UnitOf(run, id))
      ensures StoredOf(r.runId).log == old(StoredOf(run.runId).log) + AttemptEvents(world, run, id)
      ensures MadeAndTold(world, run, id, r, AttemptEvents(world, run, id))
      ensures runs == old(runs)[run.runId := r]
      ensures forall other :: other != run.runId ==> EventsOf(events, other) == old(EventsOf(events, other))
    {
      hide Possible, Enabled, Apply, Reachable, EventsOf, Sequenced, Plays, FindUnit, UnitWithId, Decide, AtRest,
        IsReady, PayloadEvents, AttemptEvents, DispatchEvents, ReadyRun, RunningUnit, CompletedRun, AttemptResult,
        NextAttemptNumber, CompletionEvents, Settled, DispatchedRun, ExecutedRun, SummarizeProgress, ResolveOutputs,
        ReplaceIn, PlanIds, Sound, InFlight, UnitIds, Aligned, ReadyUnit, RecordsOf, EventsAfter, IsPending, Elements,
        MadeAndTold;
      ghost var before := StoredOf(run.runId);
      ReadyUnitIs(run, id);
      var u, pu := UnitOf(run, id), UnitWithId(run.plan, id);
      var number := NextAttemptNumber(u.attempts);
      DispatchThenComplete(world, run, id);
      AttemptEventsAre(world, run, id);
      ExecutionIsTold(world, run, id);
      r, steps := DispatchReadyUnit(run, id);

      var result := AttemptResult(world, r, pu, number);
      AttemptIsPossible(world, r, pu, number);
      steps := RegisterPayloads(r, id, number, result, before, steps);

      ghost var stored := StoredOf(run.runId);
      ghost var complete := Complete(id, result);
      CompleteStep(world, stored, id, result);
      PlaysStep(world, before, steps, stored, complete);
      var es := CompletionEvents(pu, id, number, result, world.retryAt(r.runId, id, number));
      var done := CompletedRun(world, r, pu, UnitOf(r, id), number, result);
      Commit(done, es, complete);
      steps := steps + [complete];
      r := done;
    }

    method FinalizeTerminalRun(run: Run) returns (r: Run, ghost steps: seq<Step>)
      requires Holds(run) && run.status == RunningRun && AllSettled(run)
      modifies this
      ensures Holds(r) && Plays(world, old(StoredOf(run.runId)), steps, StoredOf(r.runId))
      ensures r == FinalizeRun(run) && StoredOf(r.runId).log == old(StoredOf(run.runId).log) + [FinishEvent(r)]
      ensures FinishEvent(r) == match r.status
                                case TimedOutRun => RunTimedOut(r.failure)
                                case FailedRun => RunFailed(r.failure)
                                case _ => RunSucceeded
      ensures runs == old(runs)[run.runId := r]
      ensures forall id :: id != run.runId ==> EventsOf(events, id) == old(EventsOf(events, id))
    {
      hide Reachable, EventsOf, Sequenced, Plays, AllSettled, SummarizeProgress, ResolveOutputs, FirstWithStatus;
      r := FinalizeRun(run);
      Commit(r, [FinishEvent(r)], Finish);
      steps := [Finish];
      PlaysOne(world, old(StoredOf(run.runId)), Finish);
    }

    // Cancels the stored run, whatever copy the caller holds; a terminal run is left alone.
    method FinalizeCancellationState(runId: RunId) returns (r: Run, ghost steps: seq<Step>)
      requires Valid() && runId in runs
      modifies this
      ensures Holds(r) && Plays(world, old(StoredOf(runId)), steps, StoredOf(r.runId))
      ensures r == if IsTerminalRun(old(runs)[runId]) then old(runs)[runId] else CancelRunState(old(runs)[runId])
      ensures StoredOf(runId).log == old(StoredOf(runId).log) + if IsTerminalRun(old(runs)[runId]) then [] else CancelEvents(old(runs)[runId])
      ensures runs == old(runs)[runId := r]
      ensures forall id :: id != runId ==> EventsOf(events, id) == old(EventsOf(events, id))
    {
      hide Reachable, EventsOf, Sequenced, Plays, SummarizeProgress, ResolveOutputs, CancelEvents;
      var run := runs[runId];
      steps := [];
      r := run;
      if IsTerminalRun(run) {
        NoSteps(world, StoredOf(runId));
      } else {
        r := CancelRunState(run);
        Commit(r, CancelEvents(run), FinishCancel);
        steps := [FinishCancel];
        PlaysOne(world, old(StoredOf(runId)), FinishCancel);
      }
    }

    // Best-effort plans only record the request; a fail-fast plan is canceled at once.
    method CancelRun(runId: RunId) returns (r: Run, ghost steps: seq<Step>)
      requires Valid() && runId in runs
      modifies this
      ensures Holds(r) && Plays(world, old(StoredOf(runId)), steps, StoredOf(r.runId))
      ensures FailFast(old(runs)[runId].plan) <==>
                exists pu :: pu in old(runs)[runId].plan.units && CancellationPolicy(true) in pu.declaration.policies
      ensures var run := old(runs)[runId];
              r == if IsTerminalRun(run) then run
                   else if FailFast(run.plan) then CancelRunState(run)
                   else WithStatus(run, CancelingRun)
      ensures var run := old(runs)[runId];
              StoredOf(runId).log == old(StoredOf(runId).log) + if IsTerminalRun(run) then []
                                                                else if FailFast(run.plan) then CancelEvents(run)
                                                                else [RunCancellationRequested]
      ensures runs == old(runs)[runId := r]
      ensures forall id :: id != runId ==> EventsOf(events, id) == old(EventsOf(events, id))
    {
      hide Reachable, EventsOf, Sequenced, Plays, CancelEvents, CancelRunState;
      var run := runs[runId];
      steps := [];
      r := run;
      if IsTerminalRun(run) {
        NoSteps(world, StoredOf(runId));
      } else if FailFast(run.plan) {
        r, steps := FinalizeCancellationState(runId);
      } else {
        r := WithStatus(run, CancelingRun);
        Commit(r, [RunCancellationRequested], RequestCancel);
        steps := [RequestCancel];
        PlaysOne(world, old(StoredOf(runId)), RequestCancel);
      }
    }

    // When a retry falls due: the unit is pending again, unless the run ended or the retry is gone.
    method ActivateScheduledRetry(runId: RunId, unitId: UnitId, scheduledAt: int) returns (ghost steps: seq<Step>)
      requires Valid() && runId in runs && Aligned(runs[runId])
      modifies this
      ensures Valid() && runId in runs && Plays(world, old(StoredOf(runId)), steps, StoredOf(runId))
      ensures var run := old(runs)[runId];
              var due := run.status == RunningRun && FindUnit(run.units, unitId).Some?
                         && UnitOf(run, unitId).nextRetryAt == Some(scheduledAt);
              runs[runId] == if due then
                               ReplaceUnit(run, UnitOf(run, unitId).(status := Pending, failure := None, nextRetryAt := None))
                             else run
      ensures EventsOf(events, runId) == old(EventsOf(events, runId))
      ensures runs == old(runs)[runId := runs[runId]]
      ensures forall id :: id != runId ==> EventsOf(events, id) == old(EventsOf(events, id))
    {
      hide Reachable, EventsOf, Sequenced, Plays, FindUnit, SummarizeProgress, ResolveOutputs, ReplaceIn, Aligned;
      var run := runs[runId];
      steps := [];
      NoSteps(world, StoredOf(runId));
      if IsTerminalRun(run) || run.status == CancelingRun || FindUnit(run.units, unitId).None? {
        return;
      }
      var u := UnitOf(run, unitId);
      if u.nextRetryAt != Some(scheduledAt) {
        return;
      }
      FindPlanned(run, unitId);
      RetryMeansRunning(world, StoredOf(runId), unitId);
      Commit(ReplaceUnit(run, Woken(u)), [], WakeUnit(unitId));
      steps := [WakeUnit(unitId)];
      PlaysOne(world, old(StoredOf(runId)), WakeUnit(unitId));
    }

    // The loop state: the stored run, reached by engine steps from where the call began.
    ghost predicate Advancing(before: Stored, initial: Run, run: Run, steps: seq<Step>)
      reads this
    {
      && Holds(run) && run.runId == initial.runId && run.plan == initial.plan && run.inputs == initial.inputs
      && Plays(world, before, steps, StoredOf(run.runId))
      && AtRest(run)
      && (Accepted(initial.plan) ==> SameMeaning(world, initial, run))
    }

    // Executes the units of a ready batch, in the order given.
    method ExecuteBatch(ghost before: Stored, ghost initial: Run, run0: Run, batch: seq<UnitId>, ghost steps0: seq<Step>)
      returns (run: Run, ghost steps: seq<Step>)
      requires Advancing(before, initial, run0, steps0) && run0.status == RunningRun
      requires Distinct(batch) && batch != [] && forall id :: id in batch ==> IsReady(run0, id)
      modifies this
      ensures Advancing(before, initial, run, steps) && run.status == RunningRun
      ensures WorkOf(run) < WorkOf(run0) && AttemptedOnce(run0, run, batch)
      ensures ToldInOrder(old(StoredOf(run0.runId)).log, StoredOf(run.runId).log, batch)
      ensures runs == old(runs)[run.runId := run]
      ensures forall id :: id != run.runId ==> EventsOf(events, id) == old(EventsOf(events, id))
    {
      hide Reachable, EventsOf, Sequenced, Plays, FindUnit, UnitWithId, Decide, IsReady, SameMeaning, AttemptEvents,
        AttemptedOnce, Accepted, Valid, ExecutedRun, Work, Sound, InFlight, UnitIds, PlanIds, Sensible, ToldInOrder,
        MadeAndTold, Opens;
      run, steps := run0, steps0;
      AttemptedNone(run0);
      ToldNone(StoredOf(run0.runId).log);
      for k := 0 to |batch|
        invariant Advancing(before, initial, run, steps) && run.status == RunningRun
        invariant forall j :: k <= j < |batch| ==> IsReady(run, batch[j])
        invariant k == 0 ==> run == run0
        invariant AttemptedOnce(run0, run, batch[..k])
        invariant ToldInOrder(old(StoredOf(run0.runId)).log, StoredOf(run.runId).log, batch[..k])
        invariant WorkOf(run) <= WorkOf(run0) && (k > 0 ==> WorkOf(run) < WorkOf(run0))
        invariant runs == old(runs)[run.runId := run]
        invariant forall id :: id != run.runId ==> EventsOf(events, id) == old(EventsOf(events, id))
      {
        var id := batch[k];
        ReadyUnitIs(run, id);
        forall j | k < j < |batch|
          ensures IsReady(ExecutedRun(world, run, UnitWithId(run.plan, id), UnitOf(run, id)), batch[j])
        {
          ExecuteKeepsReady(world, run, id, batch[j]);
        }
        ghost var stored := StoredOf(run.runId);
        ExecuteAdvances(world, initial, run, id);
        ExecuteAttemptsOnce(world, run, id);
        assert batch[..k + 1] == batch[..k] + [id];
        var next, more := ExecuteReadyUnit(run, id);
        PlaysAppend(world, before, steps, stored, more, StoredOf(next.runId));
        AttemptedNext(run0, run, next, batch[..k], id);
        AttemptOpens(world, run, id, next, AttemptEvents(world, run, id));
        ToldNext(old(StoredOf(run0.runId)).log, stored.log, batch[..k], AttemptEvents(world, run, id), id);
        run, steps := next, steps + more;
      }
      assert batch[..|batch|] == batch;
    }

    // Skips whatever can be skipped and commits it.
    method SettleSkips(ghost before: Stored, ghost initial: Run, run0: Run, ghost steps0: seq<Step>) returns (run: Run, ghost steps: seq<Step>)
      requires Advancing(before, initial, run0, steps0) && run0.status == RunningRun
      modifies this
      ensures Advancing(before, initial, run, steps) && run.status == RunningRun
      ensures NothingToSkip(run) && WorkOf(run) <= WorkOf(run0)
      ensures SkippedTo(old(StoredOf(run0.runId)), StoredOf(run.runId))
      ensures runs == old(runs)[run.runId := run]
      ensures forall id :: id != run.runId ==> EventsOf(events, id) == old(EventsOf(events, id))
    {
      hide Reachable, EventsOf, Sequenced, Plays, FindUnit, SameMeaning, Accepted, Valid, Work, Sound, InFlight,
        UnitIds, PlanIds, Sensible, NothingToSkip, LegalSkips, ApplySkips;
      ghost var stored := StoredOf(run0.runId);
      ghost var skips, more;
      run, skips, more := EvaluatePending(run0);
      SkipsAdvance(world, initial, run0, skips);
      PlaysAppend(world, before, steps0, stored, more, StoredOf(run.runId));
      steps := steps0 + more;
    }

    // The engine sleeps until the retry falls due, wakes the unit and reads the run back.
    method AwaitRetry(ghost before: Stored, ghost initial: Run, run0: Run, retry: UnitState, ghost steps0: seq<Step>)
      returns (run: Run, ghost steps: seq<Step>)
      requires Advancing(before, initial, run0, steps0) && run0.status == RunningRun
      requires retry in run0.units && retry.nextRetryAt.Some?
      modifies this
      ensures Advancing(before, initial, run, steps) && run.status == RunningRun
      ensures WorkOf(run) < WorkOf(run0)
      ensures run == ReplaceUnit(run0, Woken(retry)) && StoredOf(run.runId).log == old(StoredOf(run0.runId)).log
      ensures runs == old(runs)[run.runId := run]
      ensures forall id :: id != run.runId ==> EventsOf(events, id) == old(EventsOf(events, id))
    {
      hide Reachable, EventsOf, Sequenced, Plays, FindUnit, SameMeaning, Accepted, Valid, Work, Sound, InFlight,
        UnitIds, PlanIds, Sensible, ReplaceUnit;
      ghost var stored := StoredOf(run0.runId);
      WakeAdvances(world, initial, run0, retry);
      ghost var more := ActivateScheduledRetry(run0.runId, retry.unitId, retry.nextRetryAt.value);
      PlaysAppend(world, before, steps0, stored, more, StoredOf(run0.runId));
      run, steps := runs[run0.runId], steps0 + more;
    }

    // Carries a run on until it finishes, or until nothing more can be done for it; the latter never
    // happens to an accepted plan. The final state of every unit is what the run meant at the start,
    // whatever order ready units were executed in.
    method AdvanceWithRun(initial: Run) returns (run: Run, ghost steps: seq<Step>)
      requires Holds(initial) && AtRest(initial) && initial.status != QueuedRun
      modifies this
      ensures Holds(run) && Plays(world, old(StoredOf(initial.runId)), steps, StoredOf(run.runId))
      ensures IsTerminalRun(initial) ==> run == initial
      ensures initial.status == CancelingRun ==> run == CancelRunState(initial)
      ensures initial.status == RunningRun ==> CarriedOut(world, initial, run)
      ensures initial.status == RunningRun ==> InRounds(old(StoredOf(initial.runId)), StoredOf(run.runId))
      ensures runs == old(runs)[initial.runId := run]
      ensures forall id :: id != initial.runId ==> EventsOf(events, id) == old(EventsOf(events, id))
    {
      hide Reachable, EventsOf, Sequenced, Plays, FindUnit, SameMeaning, Accepted, Valid, Work, Sound, InFlight,
        UnitIds, PlanIds, Sensible, ReadyIds, NextRetry, CarriedOut, NothingToSkip, CancelRunState, FinalizeRun,
        AllSettled, IsReady, SkippedTo, RanReady, WokeEarliest, Round, Rounds, LastRound, AttemptedOnce, ToldInOrder,
        Sorting.InOrder, ReplaceUnit, FinishEvent;
      ghost var before := StoredOf(initial.runId);
      run, steps := initial, [];
      NoRounds(before);
      NoSteps(world, before);
      SameMeaningReflexive(world, initial);
      while !IsTerminalRun(run)
        invariant Advancing(before, initial, run, steps)
        invariant initial.status == RunningRun ==> run.status == RunningRun
        invariant initial.status != RunningRun ==> run == initial
        invariant Rounds(before, StoredOf(run.runId))
        invariant runs == old(runs)[initial.runId := run]
        invariant forall id :: id != initial.runId ==> EventsOf(events, id) == old(EventsOf(events, id))
        decreases WorkOf(run)
      {
        if run.status == CancelingRun {
          ghost var stored := StoredOf(run.runId);
          var canceled, more := FinalizeCancellationState(run.runId);
          PlaysAppend(world, before, steps, stored, more, StoredOf(canceled.runId));
          run, steps := canceled, steps + more;
          return;
        }
        ghost var opening := StoredOf(run.runId);
        run, steps := SettleSkips(before, initial, run, steps);
        ghost var mid := StoredOf(run.runId);

        if AllSettled(run) {
          ghost var stored := StoredOf(run.runId);
          FinishMeans(world, initial, run);
          var finished, more := FinalizeTerminalRun(run);
          PlaysAppend(world, before, steps, stored, more, StoredOf(finished.runId));
          run, steps := finished, steps + more;
          RoundCloses(opening, mid, StoredOf(run.runId));
          return;
        }

        var ready := ReadyIds(run);
        ReadyIdsAre(run);
        if ready != [] {
          run, steps := ExecuteBatch(before, initial, run, ready, steps);
          RoundRuns(opening, mid, StoredOf(run.runId), ready);
        } else {
          var retry := NextRetry(run.units);
          if retry.None? {
            StuckMeans(world, initial, run);
            RoundCloses(opening, mid, mid);
            return;
          }
          run, steps := AwaitRetry(before, initial, run, retry.value, steps);
          RoundWakes(opening, mid, StoredOf(run.runId));
        }
        OneMoreRound(before, opening, StoredOf(run.runId));
      }
    }

    // A queued run is activated, then advanced; a terminal run is returned as it is.
    method AdvanceRun(runId: RunId) returns (run: Run, ghost steps: seq<Step>)
      requires Valid() && runId in runs && AtRest(runs[runId])
      modifies this
      ensures Holds(run) && run.runId == runId && Plays(world, old(StoredOf(runId)), steps, StoredOf(runId))
      ensures var before := old(runs)[runId];
              && (IsTerminalRun(before) ==> run == before)
              && (before.status == CancelingRun ==> run == CancelRunState(before))
              && (before.status == RunningRun ==> CarriedOut(world, before, run))
              && (before.status == QueuedRun ==>
                    AtRest(WithStatus(before, RunningRun)) && CarriedOut(world, WithStatus(before, RunningRun), run))
      ensures runs == old(runs)[runId := run]
      ensures forall id :: id != runId ==> EventsOf(events, id) == old(EventsOf(events, id))
    {
      hide InRounds, Reachable, EventsOf, Sequenced, Plays, Accepted, CarriedOut, CancelRunState, Sound, InFlight;
      ghost var before := StoredOf(runId);
      var current := runs[runId];
      ghost var more;
      run, steps := ActivateRun(current);
      if IsTerminalRun(run) {
        return;
      }
      ghost var activated := StoredOf(runId);
      var advanced;
      advanced, more := AdvanceWithRun(run);
      PlaysAppend(world, before, steps, activated, more, StoredOf(advanced.runId));
      CarriedKeepsId(world, run, advanced);
      run, steps := advanced, steps + more;
    }

    // Creating a run needs exactly the declared inputs.
    method CreateRun(plan: Plan, runId: RunId, provided: map<string, Value>) returns (r: Result<Run, InputsInvalid>)
      requires Valid() && Sensible(plan) && runId !in runs && RecordsOf(events, runId) == []
      modifies this
      ensures Valid()
      ensures r.Success? <==> provided.Keys == Elements(plan.inputs)
      ensures r.Success? ==>
                exists inputs :: && Provides(plan.inputs, provided, inputs)
                                 && r.value == InitialRun(plan, runId, inputs) && IsFresh(plan, runId, inputs, r.value)
                                 && runs == old(runs)[runId := r.value] && StoredOf(runId) == Created(plan, runId, inputs)
      ensures r.Failure? ==> runs == old(runs) && events == old(events) && IsInvalid(plan.inputs, provided, r.error)
      ensures forall id :: id != runId ==> EventsOf(events, id) == old(EventsOf(events, id))
    {
      hide Reachable, Sequenced, Sensible, RecordsOf, InitialRun, Created, EventsOf, Valid, IsFresh;
      if name :| name in provided && name !in plan.inputs {
        return Failure(UnknownInput(name));
      }
      NamesAllValues(plan.inputs, provided);
      var inputs := NameValues(plan.inputs, provided);
      if inputs.Failure? {
        return Failure(inputs.error);
      }
      InitialIsFresh(plan, runId, inputs.value);
      StoreCreated(plan, runId, inputs.value);
      return Success(InitialRun(plan, runId, inputs.value));
    }

    method StoreCreated(plan: Plan, runId: RunId, inputs: seq<NamedValue>)
      requires Valid() && Sensible(plan) && runId !in runs && RecordsOf(events, runId) == []
      modifies this
      ensures Valid()
      ensures runs == old(runs)[runId := InitialRun(plan, runId, inputs)] && StoredOf(runId) == Created(plan, runId, inputs)
      ensures forall id :: id != runId ==> EventsOf(events, id) == old(EventsOf(events, id))
    {
      hide Reachable, Sequenced, Sensible, RecordsOf, InitialRun;
      InitialHasId(plan, runId, inputs);
      ReachableCreated(world, plan, runId, inputs);
      assert EventsOf(events, runId) == [];
      eventSequences := eventSequences[runId := 0];
      runs := runs[runId := InitialRun(plan, runId, inputs)];
      AppendEvent(runId, RunCreated);
      assert EventsOf(events, runId) == [RunCreated];
      assert StoredOf(runId) == Created(plan, runId, inputs);
    }

    // Submitting, activating and advancing a run of a plan. For an accepted plan the run always
    // finishes, and every unit ends as the plan and the world's answers determine.
    method StartRun(plan: Plan, runId: RunId, provided: map<string, Value>) returns (r: Result<Run, InputsInvalid>)
      requires Valid() && Sensible(plan) && runId !in runs && RecordsOf(events, runId) == []
      modifies this
      ensures Valid()
      ensures r.Success? <==> provided.Keys == Elements(plan.inputs)
      ensures r.Success? ==>
                exists inputs :: && Provides(plan.inputs, provided, inputs)
                                 && AtRest(FreshRun(plan, runId, inputs))
                                 && CarriedOut(world, FreshRun(plan, runId, inputs), r.value)
    {
      hide Reachable, Sequenced, Sensible, RecordsOf, InitialRun, EventsOf, AtRest, CarriedOut, Plays, Created,
        IsFresh, Provides;
      r := CreateRun(plan, runId, provided);
      if r.Failure? {
        return;
      }
      ghost var inputs :| Provides(plan.inputs, provided, inputs) && r.value == InitialRun(plan, runId, inputs);
      FreshAtRest(plan, runId, inputs);
      InitialHasId(plan, runId, inputs);
      var run, _ := AdvanceRun(runId);
      return Success(run);
    }

    method RecoverOne(id: RunId)
      requires Valid() && id in runs
      modifies this
      ensures Valid() && runs == old(runs)[id := RecoveredRun(old(runs)[id])]
      ensures StoredOf(id).log == old(StoredOf(id).log) + RecoveryEvents(old(runs)[id])
      ensures forall other :: other != id ==> EventsOf(events, other) == old(EventsOf(events, other))
    {
      hide Reachable, EventsOf, Sequenced, RecoverRun, CancelRunState, CancelEvents;
      var run := runs[id];
      if run.status == CancelingRun {
        var canceled, _ := FinalizeCancellationState(id);
      } else if !IsTerminalRun(run) && run.status != QueuedRun {
        RecoverKeepsId(run);
        Commit(RecoverRun(run), [RunResumed], Step.Restart);
      } else {
        assert runs == runs[id := run];
      }
    }

    // After a restart: runs caught in cancellation are canceled, running ones are reset to a state
    // that can be carried on, all others are left alone.
    method RecoverIncompleteRuns()
      requires Valid()
      modifies this
      ensures Valid() && runs.Keys == old(runs).Keys
      ensures forall id :: id in runs ==>
                runs[id] == RecoveredRun(old(runs)[id])
                && EventsOf(events, id) == old(EventsOf(events, id)) + RecoveryEvents(old(runs)[id])
    {
      hide Valid, RecoveredRun, RecoveryEvents, EventsOf;
      var todo := runs.Keys;
      while todo != {}
        invariant Valid() && runs.Keys == old(runs).Keys && todo <= runs.Keys
        invariant forall id :: id in runs ==> runs[id] == if id in todo then old(runs)[id] else RecoveredRun(old(runs)[id])
        invariant forall id :: id in runs ==>
                    EventsOf(events, id) == old(EventsOf(events, id)) + if id in todo then [] else RecoveryEvents(old(runs)[id])
      {
        var id :| id in todo;
        RecoverOne(id);
        todo := todo - {id};
      }
    }

    method ResumeOne(id: RunId)
      requires Valid() && id in runs && (!IsTerminalRun(runs[id]) ==> AtRest(runs[id])) && runs[id].status != CancelingRun
      modifies this
      ensures Valid() && id in runs && runs == old(runs)[id := runs[id]]
      ensures Resumed(world, old(runs)[id], runs[id])
    {
      hide Reachable, EventsOf, Sequenced, Plays, Accepted, CarriedOut, AtRest, Valid;
      if IsTerminalRun(runs[id]) {
        assert runs == runs[id := runs[id]];
      } else {
        var run, _ := AdvanceRun(id);
      }
    }

    // Process restart: recover every incomplete run, then carry each one on. Whatever state the crash
    // left it in, every run of an accepted plan reaches a terminal status, and its units end as the
    // recovered run meant.
    method ResumeIncompleteRuns()
      requires Valid()
      modifies this
      ensures Valid() && runs.Keys == old(runs).Keys
      ensures forall id :: id in runs ==> Resumed(world, RecoveredRun(old(runs)[id]), runs[id])
      ensures forall id :: id in runs && Accepted(old(runs)[id].plan) ==> IsTerminalRun(runs[id])
    {
      hide Accepted, AtRest, RecoveredRun, Valid, Resumed, EventsOf, RecoveryEvents;
      ghost var before := runs;
      ResumableRuns();
      RecoverIncompleteRuns();
      ghost var recovered := runs;
      var todo := runs.Keys;
      while todo != {}
        invariant Valid() && runs.Keys == before.Keys && todo <= runs.Keys
        invariant forall id :: id in todo ==> runs[id] == recovered[id]
        invariant forall id :: id in runs && id !in todo ==> Resumed(world, recovered[id], runs[id])
      {
        var id :| id in todo;
        ResumeOne(id);
        todo := todo - {id};
      }
      forall id | id in runs && Accepted(before[id].plan)
        ensures IsTerminalRun(runs[id])
      {
        RecoveredKeepsPlan(before[id]);
        ResumedIsTerminal(world, recovered[id], runs[id]);
      }
    }

    lemma ResumableRuns()
      requires Valid()
      ensures forall id :: id in runs ==> !IsTerminalRun(RecoveredRun(runs[id])) ==> AtRest(RecoveredRun(runs[id]))
      ensures forall id :: id in runs ==> RecoveredRun(runs[id]).status != CancelingRun
    {
      hide Reachable, EventsOf, Sequenced, AtRest, RecoverRun, CancelRunState;
      forall id | id in runs
        ensures !IsTerminalRun(RecoveredRun(runs[id])) ==> AtRest(RecoveredRun(runs[id]))
        ensures RecoveredRun(runs[id]).status != CancelingRun
      {
        RecoveredAtRest(world, StoredOf(id));
        QueuedAtRest(world, StoredOf(id));
        CanceledIsTerminal(runs[id]);
      }
    }
  }

  lemma QueuedAtRest(w: World, s: Stored)
    requires Reachable(w, s)
    ensures s.run.status == QueuedRun ==> AtRest(s.run)
    ensures s.run.status != InterruptedRun
  {
    hide Reachable, UnitsFit, Restarts;
    ReachableFits(w, s);
    if s.run.status == QueuedRun {
      FitsAtRest(s.run, Restarts(s.log));
    }
  }

  lemma CanceledIsTerminal(run: Run)
    ensures IsTerminalRun(CancelRunState(run))
  {
    hide SummarizeProgress, ResolveOutputs, CancelUnit;
  }

  lemma RecoveredKeepsPlan(run: Run)
    ensures RecoveredRun(run).plan == run.plan
  {
    hide SummarizeProgress, ResolveOutputs, CancelUnit, RecoverUnit;
  }

  // What recovery logs for a stored run.
  function RecoveryEvents(run: Run): seq<Event> {
    if run.status == CancelingRun then CancelEvents(run)
    else if run.status == RunningRun then [RunResumed]
    else []
  }

  function Activated(run: Run): Run {
    if run.status == QueuedRun then WithStatus(run, RunningRun) else run
  }

  // A recovered run carried on: a terminal one is left alone, any other is activated if need be and
  // carried to the end it means.
  ghost predicate Resumed(w: World, before: Run, after: Run) {
    if IsTerminalRun(before) then after == before
    else AtRest(Activated(before)) && CarriedOut(w, Activated(before), after)
  }

  lemma ResumedIsTerminal(w: World, before: Run, after: Run)
    requires Resumed(w, before, after) && Accepted(before.plan)
    ensures IsTerminalRun(after)
  {
    hide Meaning, AtRest, Accepted, AllSettled, FinalizeRun, Stuck;
  }

  // What recovery does to a stored run.
  function RecoveredRun(run: Run): Run {
    if run.status == CancelingRun then CancelRunState(run)
    else if run.status == RunningRun then RecoverRun(run)
    else run
  }

  // An activated run of a plan that nothing has happened to yet.
  ghost function FreshRun(plan: Plan, runId: RunId, inputs: seq<NamedValue>): Run {
    WithStatus(InitialRun(plan, runId, inputs), RunningRun)
  }

  lemma RecoverKeepsId(run: Run)
    ensures RecoverRun(run).runId == run.runId
  {
    hide SummarizeProgress, ResolveOutputs, RecoverUnit;
  }

  lemma InitialHasId(plan: Plan, runId: RunId, inputs: seq<NamedValue>)
    ensures var run := InitialRun(plan, runId, inputs);
            run.runId == runId && run.status == QueuedRun && run.inputs == inputs && run.plan == EnsureTrigger(plan)
  {
    hide SummarizeProgress, ResolveOutputs;
  }

  lemma CarriedKeepsId(w: World, initial: Run, r: Run)
    requires AtRest(initial)
    ensures CarriedOut(w, initial, r) ==> r.runId == initial.runId && r.plan == initial.plan
    ensures CancelRunState(initial).runId == initial.runId
  {
    hide Meaning, AtRest, Accepted, SummarizeProgress, ResolveOutputs, CancelUnit, FinalizeRun, AllSettled, Stuck;
  }

  // Inputs resolve exactly when every declared one is provided, and then to the provided values; an
  // error names a declared input that is not provided.
  lemma {:induction false} NamesAllValues(names: seq<string>, provided: map<string, Value>)
    ensures var r := NameValues(names, provided);
            && (r.Success? <==> Elements(names) <= provided.Keys)
            && (r.Success? ==> Provides(names, provided, r.value))
            && (r.Failure? ==> r.error.MissingInput? && IsInvalid(names, provided, r.error))
  {
    if names != [] {
      NamesAllValues(names[1..], provided);
      assert names == [names[0]] + names[1..];
      assert Elements(names) == {names[0]} + Elements(names[1..]);
      assert forall i :: 0 < i < |names| ==> names[i] == names[1..][i - 1];
    }
  }

  // The manual trigger stands in for a missing one, and nothing has happened to any unit yet.
  ghost predicate IsFresh(plan: Plan, runId: RunId, inputs: seq<NamedValue>, run: Run) {
    && run.runId == runId && run.status == QueuedRun && run.inputs == inputs
    && run.failure == None && run.logs == [] && run.artifacts == []
    && run.plan.units == plan.units && run.plan.dependencies == plan.dependencies
    && run.plan.inputs == plan.inputs && run.plan.outputs == plan.outputs
    && run.plan.trigger == (if plan.trigger == None then Some(Trigger(Some("manual"), None, None, None)) else plan.trigger)
    && |run.units| == |plan.units|
    && forall i :: 0 <= i < |run.units| ==>
         run.units[i] == UnitState(plan.units[i].declaration.unitId, Pending, [], None, None, None, [], [], [])
  }

  lemma InitialIsFresh(plan: Plan, runId: RunId, inputs: seq<NamedValue>)
    ensures IsFresh(plan, runId, inputs, InitialRun(plan, runId, inputs))
  {
    hide SummarizeProgress, ResolveOutputs;
  }

  lemma FitsAtRest(run: Run, restarts: nat)
    requires UnitsFit(run, restarts) && NoneInFlight(run)
    ensures AtRest(run)
  {
    hide Sound, Bounded, Safe, UnitWithId;
    forall u | u in run.units
      ensures Sound(u)
    {
      assert UnitFits(run, restarts, u);
    }
  }

  lemma FreshAtRest(plan: Plan, runId: RunId, inputs: seq<NamedValue>)
    requires Sensible(plan)
    ensures AtRest(InitialRun(plan, runId, inputs)) && AtRest(FreshRun(plan, runId, inputs))
  {
    hide UnitsFit, SummarizeProgress, ResolveOutputs, Sound;
    InitialFits(plan, runId, inputs);
    FitsAtRest(InitialRun(plan, runId, inputs), 0);
  }

  // A crash at any point of a run leaves a state that recovery makes fit to be carried on.
  lemma RecoveredAtRest(w: World, s: Stored)
    requires Reachable(w, s)
    ensures AtRest(RecoverRun(s.run)) && RecoverRun(s.run).status == RunningRun
  {
    hide Reachable, UnitsFit, SummarizeProgress, ResolveOutputs, Coherent, Restarts;
    ReachableFits(w, s);
    RecoverFits(s.run, Restarts(s.log));
    MapMembers(s.run.units, RecoverUnit);
    RecoveredNotInFlight(s.run, Restarts(s.log));
    FitsAtRest(RecoverRun(s.run), Restarts(s.log) + 1);
  }

  lemma RecoveredNotInFlight(run: Run, restarts: nat)
    requires UnitsFit(run, restarts)
    ensures NoneInFlight(RecoverRun(run))
  {
    hide SummarizeProgress, ResolveOutputs, Bounded, Safe, UnitWithId, MapAttempts;
    MapMembers(run.units, RecoverUnit);
    forall u | u in run.units
      ensures !InFlight(RecoverUnit(u))
    {
      assert UnitFits(run, restarts, u);
    }
  }

  // What advancing a running run achieves.
  ghost predicate CarriedOut(w: World, initial: Run, r: Run)
    requires AtRest(initial)
  {
    && Aligned(r) && r.plan == initial.plan && r.runId == initial.runId && r.inputs == initial.inputs
    && (if Finished(r.status) then AllSettled(r) && r == FinalizeRun(r) else r.status == RunningRun && Stuck(r))
    && (Accepted(initial.plan) ==>
          Finished(r.status) && forall id :: id in PlanIds(r.plan) ==> StateOf(r, id) == Meaning(w, initial, id))
  }

  lemma SameMeaningReflexive(w: World, run: Run)
    requires AtRest(run)
    ensures Accepted(run.plan) ==> SameMeaning(w, run, run)
  {
    hide AtRest, Accepted, Meaning;
  }

  lemma SkipsAdvance(w: World, initial: Run, run: Run, skips: seq<SkipRecord>)
    requires AtRest(run) && LegalSkips(run, skips) && run.plan == initial.plan
    requires Accepted(initial.plan) ==> SameMeaning(w, initial, run)
    ensures var next := ApplySkips(run, skips);
            && AtRest(next) && WorkOf(next) <= WorkOf(run)
            && next.plan == run.plan && next.runId == run.runId && next.status == run.status && next.inputs == run.inputs
            && (Accepted(initial.plan) ==> SameMeaning(w, initial, next))
  {
    hide AtRest, Accepted, Meaning, SameMeaning, ApplySkips, LegalSkips, Work;
    SkipsWork(run, skips);
    SkipsKeepRun(run, skips);
    if Accepted(initial.plan) {
      SkipsKeepMeaning(w, run, skips);
      SameMeaningTransitive(w, initial, run, ApplySkips(run, skips));
    }
  }

  lemma WakeAdvances(w: World, initial: Run, run: Run, u: UnitState)
    requires AtRest(run) && u in run.units && u.nextRetryAt.Some? && run.plan == initial.plan
    requires Accepted(initial.plan) ==> SameMeaning(w, initial, run)
    ensures FindUnit(run.units, u.unitId) == Some(u)
    ensures var next := ReplaceUnit(run, Woken(u));
            && AtRest(next) && WorkOf(next) < WorkOf(run)
            && next.plan == run.plan && next.runId == run.runId && next.status == run.status && next.inputs == run.inputs
            && (Accepted(initial.plan) ==> SameMeaning(w, initial, next))
  {
    hide Accepted, Meaning, SameMeaning, Work, ReplaceUnit, Sound, InFlight;
    FindMember(run, u);
    WakeWorks(run, u.unitId);
    ReplaceKeepsRun(run, Woken(u));
    if Accepted(initial.plan) {
      WakeKeepsMeaning(w, run, u.unitId);
      SameMeaningTransitive(w, initial, run, ReplaceUnit(run, Woken(u)));
    }
  }

  lemma ReplaceKeepsRun(run: Run, next: UnitState)
    ensures var r := ReplaceUnit(run, next);
            r.plan == run.plan && r.runId == run.runId && r.status == run.status && r.inputs == run.inputs
  {
    hide SummarizeProgress, ResolveOutputs, ReplaceIn;
  }

  lemma FinishMeans(w: World, initial: Run, run: Run)
    requires AtRest(initial) && AtRest(run) && AllSettled(run) && run.status == RunningRun
    requires run.plan == initial.plan && run.runId == initial.runId && run.inputs == initial.inputs
    requires Accepted(initial.plan) ==> SameMeaning(w, initial, run)
    ensures CarriedOut(w, initial, FinalizeRun(run))
  {
    hide Accepted, Meaning, SummarizeProgress, ResolveOutputs, FirstWithStatus, Sound, InFlight, FindUnit, FinalizeRun,
      SameMeaning;
    var r := FinalizeRun(run);
    OutcomeOf(run);
    FinalizeAgain(run);
    if Accepted(initial.plan) {
      forall id | id in PlanIds(r.plan)
        ensures StateOf(r, id) == Meaning(w, initial, id)
      {
        SameMeaningAt(w, initial, run, id);
        MeaningIs(w, run, id);
      }
    }
  }

  lemma SameMeaningAt(w: World, a: Run, b: Run, id: UnitId)
    requires SameMeaning(w, a, b) && id in PlanIds(a.plan)
    ensures Meaning(w, a, id) == Meaning(w, b, id)
  {
    hide Meaning, AtRest, Accepted;
  }

  lemma FinalizeAgain(run: Run)
    ensures var r := FinalizeRun(run);
            r == FinalizeRun(r) && r.units == run.units && r.plan == run.plan && r.runId == run.runId && r.inputs == run.inputs
  {
    hide SummarizeProgress, ResolveOutputs, FirstWithStatus;
  }

  lemma StuckMeans(w: World, initial: Run, run: Run)
    requires AtRest(initial) && AtRest(run) && run.status == RunningRun
    requires run.plan == initial.plan && run.runId == initial.runId && run.inputs == initial.inputs
    requires NothingToSkip(run) && !AllSettled(run) && NextRetry(run.units).None?
    requires forall id :: !IsReady(run, id)
    ensures CarriedOut(w, initial, run)
  {
    hide Accepted, Meaning, Sound, InFlight, FindUnit, FinalizeRun, AllSettled, NothingToSkip, IsReady;
    if Accepted(initial.plan) {
      NeverStuck(run);
    }
  }

  lemma ReadyUnitIs(run: Run, id: UnitId)
    requires AtRest(run) && IsReady(run, id)
    ensures id in PlanIds(run.plan) && StateOf(run, id) == UnitOf(run, id) && UnitOf(run, id).status == Pending
  {
    hide FindUnit, UnitWithId, Decide, Sound;
  }

  lemma SameMeaningTransitive(w: World, a: Run, b: Run, c: Run)
    requires SameMeaning(w, a, b) && SameMeaning(w, b, c)
    ensures SameMeaning(w, a, c)
  {
    hide Meaning, AtRest, Accepted;
  }

  // Executing a ready unit does work and leaves the meaning of an accepted run alone.
  lemma ExecuteAdvances(w: World, initial: Run, run: Run, id: UnitId)
    requires AtRest(run) && IsReady(run, id) && run.plan == initial.plan
    requires Accepted(initial.plan) ==> SameMeaning(w, initial, run)
    ensures var next := ExecutedRun(w, run, UnitWithId(run.plan, id), UnitOf(run, id));
            && AtRest(next) && WorkOf(next) < WorkOf(run) && next.plan == initial.plan && next.runId == run.runId
            && next.status == run.status && next.inputs == run.inputs
            && (Accepted(initial.plan) ==> SameMeaning(w, initial, next))
  {
    hide FindUnit, UnitWithId, Decide, AtRest, Accepted, SameMeaning, ExecutedRun, Work;
    ReadyUnitIs(run, id);
    ReadyDecision(run, id);
    var u, pu := UnitOf(run, id), UnitWithId(run.plan, id);
    ExecuteWorks(w, run, id);
    ExecutedReplaces(w, run, pu, u);
    if Accepted(initial.plan) {
      ExecuteKeepsMeaning(w, run, id);
      SameMeaningTransitive(w, initial, run, ExecutedRun(w, run, pu, u));
    }
  }

  lemma ReadyDecision(run: Run, id: UnitId)
    requires IsReady(run, id)
    ensures Decide(run, UnitWithId(run.plan, id)) == ReadyToRun
  {
  }

  lemma RetryMeansRunning(w: World, s: Stored, id: UnitId)
    requires Reachable(w, s) && FindUnit(s.run.units, id).Some? && UnitOf(s.run, id).nextRetryAt.Some?
    requires !IsTerminalRun(s.run) && s.run.status != CancelingRun
    ensures s.run.status == RunningRun
  {
    hide FindUnit, Reachable, Sound, UnitWithId, Bounded, Safe;
    ReachableFits(w, s);
    FitUnit(s.run, Restarts(s.log), id);
    RetryIsFailed(UnitOf(s.run, id));
  }

  lemma RetryIsFailed(u: UnitState)
    requires Sound(u) && u.nextRetryAt.Some?
    ensures u.status == Failed
  {
  }

  lemma RestIsNoneInFlight(run: Run)
    requires AtRest(run)
    ensures NoneInFlight(run)
  {
  }

  lemma NoSteps(w: World, a: Stored)
    ensures Plays(w, a, [], a)
  {
  }

  lemma {:induction false} SkipsKeepRun(run: Run, skips: seq<SkipRecord>)
    ensures var r := ApplySkips(run, skips);
            r.status == run.status && r.plan == run.plan && r.runId == run.runId && r.inputs == run.inputs
    decreases |skips|
  {
    hide FindUnit, SummarizeProgress, ResolveOutputs, ReplaceIn;
    if skips != [] {
      SkipsKeepRun(ApplySkip(run, skips[0]), skips[1..]);
    }
  }
}

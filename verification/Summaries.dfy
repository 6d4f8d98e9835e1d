// Stored summaries: progress counts, workflow outputs and payload lists against a plain recount.

module Summaries {
  import opened Basics
  import opened Plans
  import opened RunState
  import opened Decision
  import opened DecisionMeaning
  import opened SkipFixpoint
  import opened Dispatch
  import opened Preservation
  import opened History
  import opened Invariants
  import opened Lifecycle

  // The stored counts and outputs are what a recount over the units gives.
  ghost predicate Recounted(run: Run) {
    && run.progress == SummarizeProgress(run.units)
    && run.outputs == ResolveOutputs(run.plan.outputs, run.inputs, run.units)
  }

  lemma {:induction false} SkipsRecounted(run: Run, skips: seq<SkipRecord>)
    requires Recounted(run)
    ensures Recounted(ApplySkips(run, skips))
    decreases |skips|
  {
    hide FindUnit, SummarizeProgress, ResolveOutputs, ReplaceIn;
    if skips != [] {
      SkipsRecounted(ApplySkip(run, skips[0]), skips[1..]);
    }
  }

  lemma StepRecounted(w: World, s: Stored, step: Step)
    requires Recounted(s.run) && Enabled(s, step)
    ensures Recounted(Apply(w, s, step).run)
  {
    hide FindUnit, UnitWithId, Decide, EventsAfter, SummarizeProgress, ResolveOutputs, ReplaceIn, ApplySkips,
      LegalSkips, RunningUnit, CompletedUnit, FirstWithStatus, MapUnits;
    if step.SkipUnits? {
      SkipsRecounted(s.run, step.skips);
    }
  }

  lemma {:induction false} PlayedRecounted(w: World, a: Stored, steps: seq<Step>, b: Stored)
    requires Recounted(a.run) && Plays(w, a, steps, b)
    ensures Recounted(b.run)
    decreases |steps|
  {
    hide Enabled, Apply, Recounted;
    if steps != [] {
      StepRecounted(w, a, steps[0]);
      PlayedRecounted(w, Apply(w, a, steps[0]), steps[1..], b);
    }
  }

  lemma {:induction false} CountsAddUp(units: seq<UnitState>)
    requires forall u :: u in units ==> u.status == Succeeded || u.status == Failed || u.status == TimedOut || u.status == Skipped
    ensures var p := SummarizeProgress(units); p.completed + p.failed + p.skipped == p.total
  {
    if units != [] {
      CountsAddUp(units[..|units| - 1]);
      assert units[|units| - 1] in units;
    }
  }

  lemma FinishedStatuses(run: Run, u: UnitState)
    requires Coherent(run) && Finished(run.status) && u in run.units
    ensures u.status == Succeeded || u.status == Failed || u.status == TimedOut || u.status == Skipped
  {
    assert Allowed(run.status, u);
  }

  // ----- what the recount counts

  // The ids of the units in one of these statuses.
  function IdsIn(units: seq<UnitState>, statuses: set<UnitStatus>): set<UnitId> {
    set u | u in units && u.status in statuses :: u.unitId
  }

  lemma LastIsNew(units: seq<UnitState>, statuses: set<UnitStatus>)
    requires Distinct(UnitIds(units)) && units != []
    ensures units[|units| - 1].unitId !in IdsIn(units[..|units| - 1], statuses)
  {
    var n := |units| - 1;
    forall i | 0 <= i < n
      ensures units[..n][i].unitId != units[n].unitId
    {
      assert UnitIds(units)[i] != UnitIds(units)[n];
    }
  }

  lemma IdsInLast(front: seq<UnitState>, last: UnitState, statuses: set<UnitStatus>)
    ensures IdsIn(front + [last], statuses) == IdsIn(front, statuses) + if last.status in statuses then {last.unitId} else {}
  {
    assert forall u :: u in front + [last] <==> u in front || u == last;
  }

  lemma {:induction false} CountIs(units: seq<UnitState>, holds: UnitStatus -> bool, statuses: set<UnitStatus>)
    requires Distinct(UnitIds(units)) && forall s :: holds(s) <==> s in statuses
    ensures CountStatus(units, holds) == |IdsIn(units, statuses)|
  {
    if units == [] {
      assert IdsIn(units, statuses) == {};
    } else {
      var n := |units| - 1;
      assert UnitIds(units[..n]) == UnitIds(units)[..n];
      CountIs(units[..n], holds, statuses);
      LastIsNew(units, statuses);
      assert units == units[..n] + [units[n]];
      hide IdsIn;
      IdsInLast(units[..n], units[n], statuses);
    }
  }

  lemma ProgressIs(units: seq<UnitState>)
    requires Distinct(UnitIds(units))
    ensures var p := SummarizeProgress(units);
            && p.total == |units|
            && p.completed == |IdsIn(units, {Succeeded})|
            && p.failed == |IdsIn(units, {Failed, TimedOut})|
            && p.skipped == |IdsIn(units, {Skipped})|
  {
    CountIs(units, s => s == Succeeded, {Succeeded});
    CountIs(units, s => s == Failed || s == TimedOut, {Failed, TimedOut});
    CountIs(units, s => s == Skipped, {Skipped});
  }

  // The value exported for a declared source: a run input, or whatever a unit recorded as that output.
  ghost predicate ExportedValue(run: Run, from: Source, value: Value) {
    match from
    case WorkflowInput(name) => FirstNamed(run.inputs, name, value)
    case UnitOutput(id, output) => exists u :: FindUnit(run.units, id) == Some(u) && FirstNamed(u.outputs, output, value)
  }

  ghost function Exports(run: Run): (NamedSource, NamedValue) -> bool {
    (declared: NamedSource, out: NamedValue) => out.name == declared.name && ExportedValue(run, declared.from, out.value)
  }

  lemma OutputMeans(run: Run, declared: NamedSource)
    ensures IsPart(declared, ResolveOutput(declared, run.inputs, run.units), Exports(run))
  {
    hide FirstNamed;
    match declared.from {
      case WorkflowInput(name) =>
        FindValueIs(run.inputs, name);
        NoneNamed(run.inputs, name);
      case UnitOutput(id, output) =>
        if FindUnit(run.units, id).Some? {
          FindValueIs(FindUnit(run.units, id).value.outputs, output);
          NoneNamed(FindUnit(run.units, id).value.outputs, output);
        }
    }
  }

  lemma NoneNamed(values: seq<NamedValue>, name: string)
    ensures FindValue(values, name).None? ==> forall v :: !FirstNamed(values, name, v)
  {
    hide FirstNamed;
    FindValueIs(values, name);
  }

  lemma {:induction false} OutputsMean(run: Run, outputs: seq<NamedSource>)
    ensures SelectedFrom(outputs, ResolveOutputs(outputs, run.inputs, run.units), Exports(run))
  {
    hide ResolveOutput, IsPart, SelectedFrom;
    if outputs == [] {
      SelectNone(Exports(run));
    } else {
      OutputsMean(run, outputs[1..]);
      OutputMeans(run, outputs[0]);
      SelectMore(outputs[1..], ResolveOutputs(outputs[1..], run.inputs, run.units), Exports(run), outputs[0],
        ResolveOutput(outputs[0], run.inputs, run.units));
      assert [outputs[0]] + outputs[1..] == outputs;
    }
  }

  // In every reachable state the stored counts are the numbers of units in each status, the stored
  // outputs are, in declaration order, the values of those declared outputs that have one, and when
  // a run finishes without being canceled every unit is counted.
  lemma SummariesAreExact(w: World, s: Stored)
    requires Reachable(w, s)
    ensures s.run.progress.total == |s.run.units| == |s.run.plan.units|
    ensures s.run.progress.completed == |IdsIn(s.run.units, {Succeeded})|
    ensures s.run.progress.failed == |IdsIn(s.run.units, {Failed, TimedOut})|
    ensures s.run.progress.skipped == |IdsIn(s.run.units, {Skipped})|
    ensures SelectedFrom(s.run.plan.outputs, s.run.outputs, Exports(s.run))
    ensures Finished(s.run.status) ==>
              s.run.progress.completed + s.run.progress.failed + s.run.progress.skipped == s.run.progress.total
  {
    hide Plays, Sensible, SummarizeProgress, ResolveOutputs, UnitsFit, Coherent, IdsIn, SelectedFrom, Exports,
      Restarts;
    ReachableFits(w, s);
    FitAligned(s.run, Restarts(s.log));
    AlignedUnits(s.run);
    var plan, runId, inputs, steps :| Sensible(plan) && Plays(w, Created(plan, runId, inputs), steps, s);
    InitialRecounted(plan, runId, inputs);
    PlayedRecounted(w, Created(plan, runId, inputs), steps, s);
    ProgressIs(s.run.units);
    OutputsMean(s.run, s.run.plan.outputs);
    if Finished(s.run.status) {
      forall u | u in s.run.units
        ensures u.status == Succeeded || u.status == Failed || u.status == TimedOut || u.status == Skipped
      {
        FinishedStatuses(s.run, u);
      }
      CountsAddUp(s.run.units);
    }
  }

  lemma AlignedUnits(run: Run)
    requires Aligned(run)
    ensures Distinct(UnitIds(run.units)) && |run.units| == |run.plan.units|
  {
    assert |UnitIds(run.units)| == |PlanIds(run.plan)|;
  }

  lemma InitialRecounted(plan: Plan, runId: RunId, inputs: seq<NamedValue>)
    ensures Recounted(InitialRun(plan, runId, inputs))
  {
    hide SummarizeProgress, ResolveOutputs;
  }

  // ----- the failure of a finished run

  // The first unit, in plan order, in this status.
  ghost predicate FirstIn(units: seq<UnitState>, status: UnitStatus, u: UnitState) {
    exists i :: 0 <= i < |units| && units[i] == u && u.status == status && forall j :: 0 <= j < i ==> units[j].status != status
  }

  lemma {:induction false} FirstWithStatusIs(units: seq<UnitState>, status: UnitStatus)
    ensures FirstWithStatus(units, status).Some? ==> FirstIn(units, status, FirstWithStatus(units, status).value)
  {
    if units != [] && units[0].status != status {
      FirstWithStatusIs(units[1..], status);
      if FirstWithStatus(units[1..], status).Some? {
        var rest, u := units[1..], FirstWithStatus(units[1..], status).value;
        var i :| 0 <= i < |rest| && rest[i] == u && u.status == status && forall j :: 0 <= j < i ==> rest[j].status != status;
        assert units[i + 1] == u;
        assert forall j :: 0 < j < i + 1 ==> units[j] == rest[j - 1];
      }
    }
  }

  // A finished run carries the failure of its first timed-out unit, or else of its first failed one.
  ghost predicate FailureFits(run: Run) {
    match run.status
    case TimedOutRun => exists u :: FirstIn(run.units, TimedOut, u) && run.failure == u.failure
    case FailedRun => exists u :: FirstIn(run.units, Failed, u) && run.failure == u.failure
    case SucceededRun => run.failure == None
    case _ => true
  }

  lemma FinishFits(run: Run)
    ensures FailureFits(FinalizeRun(run))
  {
    hide SummarizeProgress, ResolveOutputs, FirstIn, FirstWithStatus;
    FirstWithStatusIs(run.units, TimedOut);
    FirstWithStatusIs(run.units, Failed);
  }

  lemma StepKeepsFailure(w: World, s: Stored, step: Step)
    requires FailureFits(s.run) && Enabled(s, step)
    ensures FailureFits(Apply(w, s, step).run)
  {
    hide FindUnit, UnitWithId, Decide, EventsAfter, SummarizeProgress, ResolveOutputs, ReplaceIn, ApplySkips,
      LegalSkips, RunningUnit, CompletedUnit, FinalizeRun, MapUnits, FirstIn, AllSettled;
    match step {
      case Finish => FinishFits(s.run);
      case SkipUnits(skips) => SkipsKeepRunning(s.run, skips);
      case _ =>
    }
  }

  lemma {:induction false} SkipsKeepRunning(run: Run, skips: seq<SkipRecord>)
    ensures ApplySkips(run, skips).status == run.status
    decreases |skips|
  {
    hide FindUnit, SummarizeProgress, ResolveOutputs, ReplaceIn;
    if skips != [] {
      SkipsKeepRunning(ApplySkip(run, skips[0]), skips[1..]);
    }
  }

  lemma {:induction false} PlayedFailure(w: World, a: Stored, steps: seq<Step>, b: Stored)
    requires FailureFits(a.run) && Plays(w, a, steps, b)
    ensures FailureFits(b.run)
    decreases |steps|
  {
    hide Enabled, Apply, FailureFits;
    if steps != [] {
      StepKeepsFailure(w, a, steps[0]);
      PlayedFailure(w, Apply(w, a, steps[0]), steps[1..], b);
    }
  }

  // In every reachable finished state the run's failure is that of its first timed-out unit, of its
  // first failed one if none timed out, and absent if it succeeded.
  lemma FailureIsFirst(w: World, s: Stored)
    requires Reachable(w, s)
    ensures FailureFits(s.run)
  {
    hide Plays, Sensible, SummarizeProgress, ResolveOutputs, EnsureTrigger;
    var plan, runId, inputs, steps :| Sensible(plan) && Plays(w, Created(plan, runId, inputs), steps, s);
    assert FailureFits(InitialRun(plan, runId, inputs));
    PlayedFailure(w, Created(plan, runId, inputs), steps, s);
  }
}

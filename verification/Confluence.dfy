// Whatever the order in which units are skipped, executed and woken, a run ends in its meaning.

module Confluence {
  import opened Basics
  import opened Graphs
  import opened Plans
  import opened RunState
  import opened Decision
  import opened SkipFixpoint
  import opened Dispatch
  import opened Semantics
  import opened Preservation
  import opened History
  import opened Invariants
  import opened Lifecycle
  import opened Guarantees
  import opened Engine

  // Steps of a run that is neither canceled nor restarted, with attempts ending as the world answers.
  predicate Honest(w: World, run: Run, step: Step) {
    match step
    case SkipUnits(_) => true
    case MakeReady(_) => true
    case DispatchUnit(_) => true
    case RegisterPayload(_) => true
    case WakeUnit(_) => true
    case Finish => true
    case Complete(id, result) =>
      && id in PlanIds(run.plan) && FindUnit(run.units, id).Some?
      && result == AttemptResult(w, run, UnitWithId(run.plan, id), |UnitOf(run, id).attempts|)
    case _ => false
  }

  ghost predicate PlaysHonestly(w: World, a: Stored, steps: seq<Step>, b: Stored)
    decreases |steps|
  {
    if steps == [] then a == b
    else
      && Enabled(a, steps[0]) && Honest(w, a.run, steps[0])
      && PlaysHonestly(w, Apply(w, a, steps[0]), steps[1..], b)
  }

  function Ended(w: World, run: Run, pu: PlanUnit, running: UnitState): UnitState {
    var number := |running.attempts|;
    CompletedUnit(w, run.runId, pu, running, number, AttemptResult(w, run, pu, number))
  }

  // The unit once the attempt it is in, if any, has ended.
  function Landed(w: World, run: Run, u: UnitState): UnitState {
    if !InFlight(u) || u.unitId !in PlanIds(run.plan) then u
    else Ended(w, run, UnitWithId(run.plan, u.unitId), if u.status == Ready then RunningUnit(u) else u)
  }

  function LandedIn(w: World, run: Run, id: UnitId): Option<UnitState> {
    match FindUnit(run.units, id)
    case None => None
    case Some(u) => Some(Landed(w, run, u))
  }

  // `x` shows every unit of `run` as it is once the attempt in flight has ended.
  ghost predicate Lands(w: World, run: Run, x: Run) {
    && FlyingReady(run) && Resumable(x)
    && x.runId == run.runId && x.plan == run.plan && x.inputs == run.inputs
    && forall id :: FindUnit(x.units, id) == LandedIn(w, run, id)
  }

  // `b` is `a` with this state for one of its units.
  ghost predicate Updated(a: Run, b: Run, next: UnitState) {
    && SameBut(a, b, next.unitId)
    && next.unitId in PlanIds(a.plan)
    && FindUnit(a.units, next.unitId).Some?
    && FindUnit(b.units, next.unitId) == Some(next)
  }

  lemma ResultStable(w: World, a: Run, b: Run, pu: PlanUnit, number: nat)
    requires Decide(a, pu) == ReadyToRun && SelfContained(pu) && Extends(a, b) && a.runId == b.runId
    ensures AttemptResult(w, a, pu, number) == AttemptResult(w, b, pu, number)
  {
    hide FindUnit, ResolveInputs, Evaluable, Fixed, Decide;
    forall d | d in pu.dependencies
      ensures FindUnit(a.units, d) == FindUnit(b.units, d)
    {
      DecidedOnSettled(a, pu, d);
      EvaluableIsFixed(pu, FindUnit(a.units, d).value);
    }
    InputsLocal(a, b, pu, pu.declaration.inputs);
  }

  lemma LandedStable(w: World, a: Run, b: Run, u: UnitState)
    requires Accepted(a.plan) && FlyingReady(a) && Extends(a, b) && a.runId == b.runId && u in a.units
    ensures Landed(w, a, u) == Landed(w, b, u)
  {
    hide FindUnit, UnitWithId, Accepted, Decide, CompletedUnit, RunningUnit, AttemptResult, Extends;
    SamePlanOf(a, b);
    if InFlight(u) {
      var pu := UnitWithId(a.plan, u.unitId);
      PlanUnitSelfContained(a.plan, u.unitId);
      ResultStable(w, a, b, pu, |(if u.status == Ready then RunningUnit(u) else u).attempts|);
    }
  }

  lemma UnlandedSame(w: World, run: Run, x: Run, id: UnitId)
    requires Lands(w, run, x) && FindUnit(run.units, id).Some? && !InFlight(FindUnit(run.units, id).value)
    ensures FindUnit(x.units, id) == FindUnit(run.units, id)
  {
    hide FindUnit, InFlight, FlyingReady, Accepted, AtRest;
  }

  lemma LandsExtends(w: World, run: Run, x: Run)
    requires Lands(w, run, x)
    ensures Extends(run, x)
  {
    hide FindUnit, FlyingReady, Accepted, AtRest, Lands;
    LandsFor(w, run, x);
    forall id | FindUnit(run.units, id).Some? && Fixed(FindUnit(run.units, id).value)
      ensures FindUnit(x.units, id) == FindUnit(run.units, id)
    {
      UnlandedSame(w, run, x, id);
    }
  }

  lemma LandsFor(w: World, run: Run, x: Run)
    requires Lands(w, run, x)
    ensures FlyingReady(run) && Resumable(x) && AtRest(x) && Accepted(run.plan) && Aligned(x)
    ensures x.runId == run.runId && x.plan == run.plan && x.inputs == run.inputs
  {
    hide FindUnit, FlyingReady, Accepted, LandedIn, Sound, InFlight;
  }

  // One unit moves on in `run`, and correspondingly in what it lands as.
  lemma LandsUpdated(w: World, a: Run, b: Run, x: Run, y: Run, next: UnitState, landed: UnitState)
    requires Lands(w, a, x) && Extends(a, b) && FlyingReady(b) && Resumable(y)
    requires Updated(a, b, next) && Updated(x, y, landed)
    requires landed.unitId == next.unitId && landed == Landed(w, b, next)
    ensures Lands(w, b, y)
  {
    hide FindUnit, FlyingReady, AtRest, Accepted, Landed, Extends, Lands;
    LandsFor(w, a, x);
    forall id
      ensures FindUnit(y.units, id) == LandedIn(w, b, id)
    {
      LandsAt(w, a, x, id);
      if id != next.unitId && FindUnit(a.units, id).Some? {
        LandedStable(w, a, b, FindUnit(a.units, id).value);
      }
    }
    LandsIs(w, b, y);
  }

  lemma LandsAt(w: World, run: Run, x: Run, id: UnitId)
    requires Lands(w, run, x)
    ensures FindUnit(x.units, id) == LandedIn(w, run, id)
  {
    hide FindUnit, FlyingReady, AtRest, Accepted, LandedIn;
  }

  lemma LandsIs(w: World, run: Run, x: Run)
    requires FlyingReady(run) && Resumable(x)
    requires x.runId == run.runId && x.plan == run.plan && x.inputs == run.inputs
    requires forall id :: FindUnit(x.units, id) == LandedIn(w, run, id)
    ensures Lands(w, run, x)
  {
    hide FindUnit, FlyingReady, AtRest, Accepted, LandedIn;
  }

  lemma ReplacedUpdates(a: Run, b: Run, next: UnitState)
    requires Replaced(a, b, next) && FindUnit(a.units, next.unitId).Some? && next.unitId in PlanIds(a.plan)
    ensures Updated(a, b, next)
  {
    hide FindUnit, ReplaceIn;
    ReplacedSameBut(a, b, next);
  }

  lemma NothingUpdated(x: Run, u: UnitState)
    requires FindUnit(x.units, u.unitId) == Some(u) && u.unitId in PlanIds(x.plan)
    ensures Updated(x, x, u)
  {
    hide FindUnit;
  }

  // ----- one lemma per kind of step

  lemma SkipLands(w: World, run: Run, x: Run, skip: SkipRecord)
    requires Lands(w, run, x) && Aligned(run) && Skips(run, skip)
    ensures Skips(x, skip) && Lands(w, ApplySkip(run, skip), ApplySkip(x, skip)) && Aligned(ApplySkip(run, skip))
    ensures SameMeaning(w, x, ApplySkip(x, skip))
  {
    hide FindUnit, UnitWithId, Decide, ApplySkip, FlyingReady, Accepted, AtRest, Lands, Extends, Meaning;
    var id := skip.unitId;
    var u := FindUnit(run.units, id).value;
    LandsFor(w, run, x);
    UnlandedSame(w, run, x, id);
    LandsExtends(w, run, x);
    DecisionStable(run, x, UnitWithId(run.plan, id));
    SkipReplaces(run, skip);
    SkipReplaces(x, skip);
    SkipExtends(run, skip);
    var next := SkippedUnit(u, skip.reason);
    FlyingKept(run, ApplySkip(run, skip), next);
    SkipKeepsMeaning(w, x, skip);
    ReplacedUpdates(run, ApplySkip(run, skip), next);
    ReplacedUpdates(x, ApplySkip(x, skip), next);
    LandsUpdated(w, run, ApplySkip(run, skip), x, ApplySkip(x, skip), next, next);
  }

  lemma {:induction false} SkipsLand(w: World, run: Run, x: Run, skips: seq<SkipRecord>)
    requires Lands(w, run, x) && Aligned(run) && LegalSkips(run, skips)
    ensures Lands(w, ApplySkips(run, skips), ApplySkips(x, skips))
    ensures SameMeaning(w, x, ApplySkips(x, skips))
    decreases |skips|
  {
    hide FindUnit, ApplySkip, Skips, Lands, Meaning, SameMeaning, Aligned, Accepted, AtRest;
    LandsFor(w, run, x);
    if skips == [] {
      SameMeaningReflexive(w, x);
    } else {
      SkipLands(w, run, x, skips[0]);
      SkipsLand(w, ApplySkip(run, skips[0]), ApplySkip(x, skips[0]), skips[1..]);
      SameMeaningTransitive(w, x, ApplySkip(x, skips[0]), ApplySkips(x, skips));
    }
  }

  // Making a unit ready commits it to the whole attempt.
  lemma MakeReadyLands(w: World, s: Stored, x: Run, id: UnitId) returns (y: Run)
    requires UnitsFit(s.run, Restarts(s.log)) && Lands(w, s.run, x) && Enabled(s, MakeReady(id))
    ensures Lands(w, RunAfter(w, s.run, MakeReady(id)), y) && SameMeaning(w, x, y)
  {
    hide FindUnit, UnitWithId, Decide, Restarts, UnitsFit, FlyingReady, Accepted, AtRest, Lands, Extends, Meaning,
      SameMeaning, CompletedUnit, AttemptResult, ReplaceIn, SummarizeProgress, ResolveOutputs, DispatchedRun,
      ExecutedRun, NoneInFlight, RunningUnit, NextAttemptNumber, Sound, Bounded, Safe;
    var run := s.run;
    FitAligned(run, Restarts(s.log));
    FitUnit(run, Restarts(s.log), id);
    var u, pu := UnitOf(run, id), UnitWithId(run.plan, id);
    var after := RunAfter(w, run, MakeReady(id));
    LandsFor(w, run, x);
    UnlandedSame(w, run, x, id);
    LandsExtends(w, run, x);
    DecisionStable(run, x, pu);
    assert StateOf(x, id) == u;
    y := ExecutedRun(w, x, pu, u);
    ExecuteKeepsMeaning(w, x, id);
    ExecutedReplaces(w, x, pu, u);
    ReplacedUpdates(run, after, ReadyUnit(u));
    ReplaceExtends(run, after, ReadyUnit(u));
    FlyingKept(run, after, ReadyUnit(u));
    var landed := Attempted(w, DispatchedRun(x, u), pu, u);
    AttemptLands(w, run, after, x, id);
    AttemptedIs(w, DispatchedRun(x, u), pu, u);
    ReplacedUpdates(x, y, landed);
    SameMeaningFor(w, x, y);
    LandsUpdated(w, run, after, x, y, ReadyUnit(u), landed);
  }

  lemma SameMeaningFor(w: World, a: Run, b: Run)
    requires SameMeaning(w, a, b)
    ensures Resumable(a) && Resumable(b)
  {
    hide AtRest, Accepted, Meaning;
  }

  // A unit made ready lands as the whole attempt leaves it.
  lemma AttemptLands(w: World, run: Run, after: Run, x: Run, id: UnitId)
    requires Lands(w, run, x) && IsReady(run, id) && Extends(run, after) && after.runId == run.runId
    requires Extends(run, x) && Decide(x, UnitWithId(run.plan, id)) == ReadyToRun && FindUnit(x.units, id) == FindUnit(run.units, id)
    requires Sound(UnitOf(run, id))
    ensures var u, pu := UnitOf(run, id), UnitWithId(run.plan, id);
            Landed(w, after, ReadyUnit(u)) == Attempted(w, DispatchedRun(x, u), pu, u)
  {
    hide FindUnit, UnitWithId, Decide, FlyingReady, Accepted, AtRest, Lands, Extends, CompletedUnit, AttemptResult,
      DispatchedRun, RunningUnit, NextAttemptNumber;
    var u, pu := UnitOf(run, id), UnitWithId(run.plan, id);
    LandsFor(w, run, x);
    SamePlanOf(run, after);
    PlanUnitSelfContained(run.plan, id);
    NumberedNext(u.attempts);
    RunningUnitIs(ReadyUnit(u));
    var number := |u.attempts| + 1;
    var dispatched := DispatchedRun(x, u);
    ExecutedReplaces(w, x, pu, u);
    RunningKeepsId(u);
    ReplaceExtends(x, dispatched, RunningUnit(ReadyUnit(u)));
    ResultStable(w, run, after, pu, number);
    ResultStable(w, run, x, pu, number);
    ResultStable(w, x, dispatched, pu, number);
  }

  lemma DispatchLands(w: World, s: Stored, x: Run, id: UnitId)
    requires UnitsFit(s.run, Restarts(s.log)) && Lands(w, s.run, x) && Enabled(s, DispatchUnit(id))
    ensures Lands(w, RunAfter(w, s.run, DispatchUnit(id)), x)
  {
    hide FindUnit, UnitWithId, Decide, Restarts, UnitsFit, FlyingReady, Accepted, AtRest, Lands, Extends,
      CompletedUnit, AttemptResult, ReplaceIn, SummarizeProgress, ResolveOutputs, RunningUnit, Sound, Bounded, Safe;
    var run := s.run;
    var after := RunAfter(w, run, DispatchUnit(id));
    FitAligned(run, Restarts(s.log));
    FitUnit(run, Restarts(s.log), id);
    var u := UnitOf(run, id);
    DispatchedIs(u);
    LandsFor(w, run, x);
    LandsAt(w, run, x, id);
    ReplacedUpdates(run, after, RunningUnit(u));
    ReplaceExtends(run, after, RunningUnit(u));
    StepKeepsFlying(w, s, DispatchUnit(id));
    LandedStable(w, run, after, u);
    LandedId(w, run, u);
    NothingUpdated(x, Landed(w, run, u));
    LandsUpdated(w, run, after, x, x, RunningUnit(u), Landed(w, run, u));
  }

  lemma DispatchedIs(u: UnitState)
    requires Sound(u)
    ensures RunningUnit(u).unitId == u.unitId && RunningUnit(u).status == Running
  {
    RunningUnitIs(u);
  }

  lemma LandedId(w: World, run: Run, u: UnitState)
    ensures Landed(w, run, u).unitId == u.unitId
  {
    hide AttemptResult, UnitWithId;
  }

  lemma CompleteLands(w: World, s: Stored, x: Run, id: UnitId, result: ExecutorResult)
    requires UnitsFit(s.run, Restarts(s.log)) && Lands(w, s.run, x)
    requires Enabled(s, Complete(id, result)) && Honest(w, s.run, Complete(id, result))
    ensures Lands(w, RunAfter(w, s.run, Complete(id, result)), x)
  {
    hide FindUnit, UnitWithId, Decide, Restarts, UnitsFit, FlyingReady, Accepted, AtRest, Lands, Extends,
      CompletedUnit, AttemptResult, RunAfter, Sound, Bounded, Safe;
    var run, after := s.run, RunAfter(w, s.run, Complete(id, result));
    FitAligned(run, Restarts(s.log));
    FitUnit(run, Restarts(s.log), id);
    var u, pu := UnitOf(run, id), UnitWithId(run.plan, id);
    var next := CompletedUnit(w, run.runId, pu, u, |u.attempts|, result);
    CompletedFits(w, run.runId, pu, u, result, Restarts(s.log));
    CompleteReplaces(w, run, id, result);
    LandsFor(w, run, x);
    LandsAt(w, run, x, id);
    ReplacedUpdates(run, after, next);
    ReplaceExtends(run, after, next);
    StepKeepsFlying(w, s, Complete(id, result));
    NothingUpdated(x, next);
    LandsUpdated(w, run, after, x, x, next, next);
  }

  lemma WakeLands(w: World, s: Stored, x: Run, id: UnitId) returns (y: Run)
    requires UnitsFit(s.run, Restarts(s.log)) && Lands(w, s.run, x) && Enabled(s, WakeUnit(id))
    ensures Lands(w, RunAfter(w, s.run, WakeUnit(id)), y) && SameMeaning(w, x, y)
  {
    hide FindUnit, UnitWithId, Decide, Restarts, UnitsFit, FlyingReady, Accepted, AtRest, Lands, Extends, Meaning,
      SameMeaning, ReplaceIn, SummarizeProgress, ResolveOutputs, Bounded, Safe;
    var run, after := s.run, RunAfter(w, s.run, WakeUnit(id));
    FitAligned(run, Restarts(s.log));
    FitUnit(run, Restarts(s.log), id);
    var u := UnitOf(run, id);
    LandsFor(w, run, x);
    UnlandedSame(w, run, x, id);
    assert StateOf(x, id) == u;
    y := ReplaceUnit(x, Woken(u));
    WakeKeepsMeaning(w, x, id);
    SameMeaningFor(w, x, y);
    ReplacedUpdates(run, after, Woken(u));
    ReplacedUpdates(x, y, Woken(u));
    ReplaceExtends(run, after, Woken(u));
    StepKeepsFlying(w, s, WakeUnit(id));
    LandsUpdated(w, run, after, x, y, Woken(u), Woken(u));
  }

  lemma SameUnitsLand(w: World, a: Run, b: Run, x: Run)
    requires Lands(w, a, x) && a.units == b.units && a.plan == b.plan && a.inputs == b.inputs && a.runId == b.runId
    ensures Lands(w, b, x)
  {
    hide FindUnit, FlyingReady, Accepted, AtRest, Landed, Lands;
    LandsFor(w, a, x);
    SameUnitsFlying(a, b);
    SameUnitsExtend(a, b);
    forall id
      ensures FindUnit(x.units, id) == LandedIn(w, b, id)
    {
      LandsAt(w, a, x, id);
      if FindUnit(a.units, id).Some? {
        LandedStable(w, a, b, FindUnit(a.units, id).value);
      }
    }
    LandsIs(w, b, x);
  }

  lemma SameUnitsExtend(a: Run, b: Run)
    requires a.units == b.units && a.plan == b.plan && a.inputs == b.inputs
    ensures Extends(a, b)
  {
    hide FindUnit;
  }

  lemma StepLands(w: World, s: Stored, step: Step, x: Run) returns (y: Run)
    requires UnitsFit(s.run, Restarts(s.log)) && Lands(w, s.run, x) && Enabled(s, step) && Honest(w, s.run, step)
    ensures Lands(w, Apply(w, s, step).run, y) && SameMeaning(w, x, y)
  {
    hide FindUnit, UnitWithId, Decide, Restarts, UnitsFit, Lands, SameMeaning, ReplaceUnit, CompletedRun, ReadyRun,
      LegalSkips, ApplySkips, EventsAfter, FinalizeRun, AtRest, Accepted;
    LandsFor(w, s.run, x);
    FitAligned(s.run, Restarts(s.log));
    match step {
      case SkipUnits(skips) =>
        SkipsLand(w, s.run, x, skips);
        y := ApplySkips(x, skips);
      case MakeReady(id) => y := MakeReadyLands(w, s, x, id);
      case WakeUnit(id) => y := WakeLands(w, s, x, id);
      case _ =>
        y := x;
        SameMeaningReflexive(w, x);
        match step {
          case DispatchUnit(id) => DispatchLands(w, s, x, id);
          case Complete(id, result) => CompleteLands(w, s, x, id, result);
          case Finish =>
            FinalizeAgain(s.run);
            SameUnitsLand(w, s.run, FinalizeRun(s.run), x);
          case _ =>
        }
    }
  }

  // ----- whole histories

  // A run carried on by such steps is running, or finished with every unit settled.
  ghost predicate Underway(run: Run) {
    run.status == RunningRun || (Finished(run.status) && AllSettled(run) && run == FinalizeRun(run))
  }

  lemma StepUnderway(w: World, s: Stored, step: Step)
    requires Enabled(s, step) && Honest(w, s.run, step)
    ensures Underway(Apply(w, s, step).run)
    ensures var t := Apply(w, s, step).run; t.plan == s.run.plan && t.runId == s.run.runId && t.inputs == s.run.inputs
  {
    hide FindUnit, UnitWithId, Decide, SummarizeProgress, ResolveOutputs, ReplaceIn, LegalSkips, ApplySkips,
      EventsAfter, FinalizeRun, AllSettled, CompletedUnit, RunningUnit, AttemptResult;
    match step {
      case SkipUnits(skips) => SkipsKeepRun(s.run, skips);
      case Finish =>
        FinalizeAgain(s.run);
        OutcomeOf(s.run);
        SettledAgain(s.run, FinalizeRun(s.run));
      case _ =>
    }
  }

  lemma SettledAgain(a: Run, b: Run)
    requires AllSettled(a) && a.units == b.units
    ensures AllSettled(b)
  {
  }

  lemma {:induction false} PlayedLands(w: World, a: Stored, steps: seq<Step>, b: Stored, x: Run) returns (y: Run)
    requires UnitsFit(a.run, Restarts(a.log)) && Lands(w, a.run, x) && Underway(a.run) && PlaysHonestly(w, a, steps, b)
    ensures UnitsFit(b.run, Restarts(b.log)) && Lands(w, b.run, y) && SameMeaning(w, x, y) && Underway(b.run)
    ensures b.run.plan == a.run.plan && b.run.runId == a.run.runId && b.run.inputs == a.run.inputs
    decreases |steps|
  {
    hide Enabled, Honest, Apply, UnitsFit, Lands, Restarts, Underway, SameMeaning, SucceededIn, AtRest, Accepted,
      FindUnit;
    LandsFor(w, a.run, x);
    if steps == [] {
      y := x;
      SameMeaningReflexive(w, x);
    } else {
      StepFits(w, a, steps[0]);
      StepUnderway(w, a, steps[0]);
      y := StepLands(w, a, steps[0], x);
      var z := PlayedLands(w, Apply(w, a, steps[0]), steps[1..], b, y);
      SameMeaningTransitive(w, x, y, z);
      y := z;
    }
  }

  lemma RestLands(w: World, run: Run)
    requires Resumable(run)
    ensures Lands(w, run, run)
  {
    hide FindUnit, Accepted, Sound, Decide, UnitWithId;
    RestIsNoneInFlight(run);
    NoneFlying(run);
    forall id
      ensures FindUnit(run.units, id) == LandedIn(w, run, id)
    {
      if FindUnit(run.units, id).Some? {
        assert FindUnit(run.units, id).value in run.units;
      }
    }
  }

  // A settled unit has its meaning at any point of the history.
  lemma LandedMeaning(w: World, run: Run, x: Run, id: UnitId)
    requires Aligned(run) && Lands(w, run, x) && id in PlanIds(run.plan) && Settled(StateOf(run, id))
    ensures Meaning(w, x, id) == StateOf(run, id)
  {
    hide FindUnit, Accepted, AtRest, Meaning, Lands, Aligned;
    LandsFor(w, run, x);
    UnlandedSame(w, run, x, id);
    MeaningIs(w, x, id);
  }

  // Whatever order units are skipped, dispatched and woken in: a unit settles only in the state
  // that the run meant for it, and a run that finishes is the run carried out.
  lemma AnyOrderKeepsMeaning(w0: World, w: World, s: Stored, steps: seq<Step>, t: Stored)
    requires Reachable(w0, s) && Resumable(s.run) && s.run.status == RunningRun && PlaysHonestly(w, s, steps, t)
    ensures t.run.plan == s.run.plan && Aligned(t.run)
    ensures forall id :: id in PlanIds(t.run.plan) && Settled(StateOf(t.run, id)) ==>
                           StateOf(t.run, id) == Meaning(w, s.run, id)
    ensures t.run.status != RunningRun ==> CarriedOut(w, s.run, t.run)
  {
    hide Reachable, FindUnit, Accepted, AtRest, Meaning, Lands, SameMeaning, PlaysHonestly, UnitsFit, Restarts,
      Coherent, Settled, FinalizeRun, StateOf;
    ReachableFits(w0, s);
    RestLands(w, s.run);
    var x := PlayedLands(w, s, steps, t, s.run);
    FitAligned(t.run, Restarts(t.log));
    LandsFor(w, t.run, x);
    forall id | id in PlanIds(t.run.plan) && Settled(StateOf(t.run, id))
      ensures StateOf(t.run, id) == Meaning(w, s.run, id)
    {
      SameMeaningAt(w, s.run, x, id);
      LandedMeaning(w, t.run, x, id);
    }
    if t.run.status != RunningRun {
      forall id | id in PlanIds(t.run.plan)
        ensures Settled(StateOf(t.run, id))
      {
        StateIsMember(t.run, id);
      }
    }
  }

  lemma StateIsMember(run: Run, id: UnitId)
    requires Aligned(run) && id in PlanIds(run.plan)
    ensures StateOf(run, id) in run.units && StateOf(run, id).unitId == id
  {
    hide FindUnit;
  }

  // Any two orders that finish a run store the same run, up to the order of its payload lists.
  lemma FinishedRunsAgree(w0: World, w: World, s: Stored, steps: seq<Step>, t: Stored, others: seq<Step>, o: Stored)
    requires Reachable(w0, s) && Resumable(s.run) && s.run.status == RunningRun
    requires PlaysHonestly(w, s, steps, t) && t.run.status != RunningRun
    requires PlaysHonestly(w, s, others, o) && o.run.status != RunningRun
    ensures t.run == o.run.(logs := t.run.logs, artifacts := t.run.artifacts)
  {
    hide Reachable, Accepted, AtRest, Meaning, PlaysHonestly, StateOf, FinalizeRun, FindUnit;
    AnyOrderKeepsMeaning(w0, w, s, steps, t);
    AnyOrderKeepsMeaning(w0, w, s, others, o);
    assert Accepted(s.run.plan);
    SameStates(t.run, o.run);
    FinalizedAlike(t.run, o.run);
  }

  lemma SameStates(a: Run, b: Run)
    requires Aligned(a) && Aligned(b) && a.plan == b.plan
    requires forall id :: id in PlanIds(a.plan) ==> StateOf(a, id) == StateOf(b, id)
    ensures a.units == b.units
  {
    hide FindUnit;
    assert |a.units| == |UnitIds(a.units)| == |UnitIds(b.units)| == |b.units|;
    forall i | 0 <= i < |a.units|
      ensures a.units[i] == b.units[i]
    {
      FindAt(a.units, i);
      FindAt(b.units, i);
      assert UnitIds(a.units)[i] == UnitIds(b.units)[i] && UnitIds(a.units)[i] in PlanIds(a.plan);
    }
  }

  lemma FinalizedAlike(a: Run, b: Run)
    requires a == FinalizeRun(a) && b == FinalizeRun(b)
    requires a.units == b.units && a.plan == b.plan && a.runId == b.runId && a.inputs == b.inputs
    ensures a == b.(logs := a.logs, artifacts := a.artifacts)
  {
    hide SummarizeProgress, ResolveOutputs, FirstWithStatus;
  }
}

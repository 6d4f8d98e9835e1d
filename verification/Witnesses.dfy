// Concrete histories: a restart that forgets why a unit was skipped, and artifacts that share a
// reference.

module Witnesses {
  import opened Basics
  import opened Graphs
  import opened Plans
  import opened RunState
  import opened Decision
  import opened SkipFixpoint
  import opened Dispatch
  import opened Semantics
  import opened Preservation
  import opened History
  import opened Invariants
  import opened Lifecycle
  import opened Replay
  import opened Timeouts
  import opened Engine
  import opened Outcomes
  import opened Propagation
  import opened PayloadLevels

  function Bare(id: UnitId, dependencies: seq<UnitId>): PlanUnit {
    PlanUnit(UnitDeclaration(id, [], [], [], []), dependencies)
  }

  // Unit b depends on unit a.
  const CHAIN := Plan([Bare("a", []), Bare("b", ["a"])], [Edge("a", "b")], [], [], Some(MANUAL_TRIGGER))

  const TIMED_OUT := ExecutorResult(OutcomeTimedOut, None, map[], [], [])

  lemma ChainUnits()
    ensures PlanIds(CHAIN) == ["a", "b"] && EnsureTrigger(CHAIN) == CHAIN && Sensible(CHAIN)
    ensures UnitWithId(CHAIN, "a") == Bare("a", []) && UnitWithId(CHAIN, "b") == Bare("b", ["a"])
  {
    assert PlanIds(CHAIN) == ["a", "b"];
    UnitWithIdAt(CHAIN, 0);
    UnitWithIdAt(CHAIN, 1);
  }

  lemma ChainGraph()
    ensures var g := DependencyGraph(CHAIN); g.Keys == {"a", "b"} && g["a"] == {} && g["b"] == {"a"}
  {
    ChainUnits();
  }

  lemma ChainIsAcyclic()
    ensures Closed(DependencyGraph(CHAIN)) && !Cyclic(DependencyGraph(CHAIN))
  {
    hide DependencyGraph;
    ChainGraph();
    var g := DependencyGraph(CHAIN);
    forall p | IsPath(g, p) && |p| >= 2
      ensures p[0] != p[|p| - 1]
    {
      assert p[0] in g && p[0 + 1] in g[p[0]];
      assert p[|p| - 2] in g && p[|p| - 2 + 1] in g[p[|p| - 2]];
    }
  }

  lemma ChainIsAccepted()
    ensures Accepted(CHAIN) && NoConditions(CHAIN)
  {
    hide DependencyGraph, Closed, Cyclic;
    ChainUnits();
    ChainIsAcyclic();
  }

  // A running run of the chain, seen through its two units.
  ghost predicate Shows(s: Stored, a: UnitState, b: UnitState) {
    && s.run.plan == CHAIN && s.run.status == RunningRun && Aligned(s.run)
    && FindUnit(s.run.units, "a") == Some(a) && FindUnit(s.run.units, "b") == Some(b)
    && forall u :: u in s.run.units ==> u == a || u == b
  }

  lemma StartChain(w: World) returns (s: Stored)
    ensures Reachable(w, s) && Shows(s, InitialUnit("a"), InitialUnit("b"))
  {
    hide Reachable, SummarizeProgress, ResolveOutputs;
    ChainUnits();
    ReachableCreated(w, CHAIN, "run", []);
    s := Created(CHAIN, "run", []);
    var units := s.run.units;
    assert units == [InitialUnit("a"), InitialUnit("b")];
    assert FindUnit(units, "a") == Some(units[0]) && FindUnit(units, "b") == Some(units[1]) by {
      assert UnitIds(units) == ["a", "b"];
      FindAt(units, 0);
      FindAt(units, 1);
    }
    ReachableStep(w, s, Activate);
    s := Apply(w, s, Activate);
  }

  lemma ReplaceShows(s: Stored, t: Stored, a: UnitState, b: UnitState, next: UnitState)
    requires Shows(s, a, b) && Replaced(s.run, t.run, next) && t.run.status == RunningRun
    requires next.unitId == "a" || next.unitId == "b"
    ensures Shows(t, if next.unitId == "a" then next else a, if next.unitId == "b" then next else b)
  {
    hide FindUnit, ReplaceIn, Aligned;
    ReplacedSameBut(s.run, t.run, next);
    ReplaceMembers(s.run.units, next);
  }

  lemma IsReplaced(run: Run, next: UnitState)
    ensures Replaced(run, ReplaceUnit(run, next), next) && ReplaceUnit(run, next).status == run.status
  {
    hide SummarizeProgress, ResolveOutputs, ReplaceIn;
  }

  // Unit a may be attempted.
  predicate Startable(u: UnitState) {
    u.unitId == "a" && u.status == Pending && u.nextRetryAt.None?
  }

  lemma StartIsReady(s: Stored, u: UnitState, b: UnitState)
    requires Shows(s, u, b) && Startable(u) && Sound(u) && Sound(b) && !InFlight(b)
    ensures AtRest(s.run) && IsReady(s.run, "a") && UnitOf(s.run, "a") == u
  {
    hide FindUnit, UnitWithId, PlanIds;
    ChainUnits();
  }

  // Some history leads from one state to the other.
  ghost predicate Leads(w: World, s: Stored, t: Stored) {
    exists steps :: Plays(w, s, steps, t)
  }

  lemma LeadsOneMore(w: World, s: Stored, t: Stored, step: Step) returns (next: Stored)
    requires Leads(w, s, t) && Enabled(t, step)
    ensures next == Apply(w, t, step) && Leads(w, s, next)
  {
    hide Enabled, Apply, Plays;
    var steps :| Plays(w, s, steps, t);
    PlaysStep(w, s, steps, t, step);
    next := Apply(w, t, step);
  }

  lemma LeadsNowhere(w: World, s: Stored)
    ensures Leads(w, s, s)
  {
    assert Plays(w, s, [], s);
  }

  lemma LeadsReach(w: World, s: Stored, t: Stored)
    requires Reachable(w, s) && Leads(w, s, t)
    ensures Reachable(w, t)
  {
    hide Plays, Created, Sensible;
    var plan, runId, inputs, before :| Sensible(plan) && Plays(w, Created(plan, runId, inputs), before, s);
    var steps :| Plays(w, s, steps, t);
    PlaysAppend(w, Created(plan, runId, inputs), before, s, steps, t);
  }

  // One attempt of unit a that succeeds or times out.
  lemma AttemptEnds(w: World, origin: Stored, s0: Stored, u: UnitState, b: UnitState, result: ExecutorResult) returns (s: Stored, a: UnitState)
    requires Leads(w, origin, s0) && Shows(s0, u, b) && b.unitId == "b"
    requires Startable(u) && Sound(u) && Sound(b) && !InFlight(b) && (result.outcome == OutcomeSucceeded || result.outcome == OutcomeTimedOut)
    ensures Leads(w, origin, s) && Shows(s, a, b) && a.unitId == "a" && a.nextRetryAt.None? && Sound(a)
    ensures a.artifacts == u.artifacts + result.artifacts
    ensures a.status == if result.outcome == OutcomeSucceeded then Succeeded else TimedOut
  {
    hide Leads, FindUnit, UnitWithId, ReplaceUnit, Aligned, CompletedUnit, PlanIds, Enabled, Apply, IsReady, AtRest,
      CompletedRun, CompletionEvents, ResolveInputs, RunningUnit, Sound;
    ChainUnits();
    StartIsReady(s0, u, b);
    ReadyStep(w, s0, "a");
    var s1 := LeadsOneMore(w, origin, s0, MakeReady("a"));
    IsReplaced(s0.run, ReadyUnit(u));
    ReplaceShows(s0, s1, u, b, ReadyUnit(u));
    s, a := DispatchedEnds(w, origin, s1, ReadyUnit(u), b, result) by {
      ReadyIsSound(u);
    }
  }

  lemma ReadyIsSound(u: UnitState)
    requires Sound(u) && u.nextRetryAt.None? && u.status == Pending
    ensures Sound(ReadyUnit(u))
  {
  }

  lemma DispatchedEnds(w: World, origin: Stored, s1: Stored, ready: UnitState, b: UnitState, result: ExecutorResult) returns (s: Stored, a: UnitState)
    requires Leads(w, origin, s1) && Shows(s1, ready, b) && b.unitId == "b"
    requires ready.unitId == "a" && ready.status == Ready && ready.nextRetryAt.None? && Sound(ready)
    requires result.outcome == OutcomeSucceeded || result.outcome == OutcomeTimedOut
    ensures Leads(w, origin, s) && Shows(s, a, b) && a.unitId == "a" && a.nextRetryAt.None? && Sound(a)
    ensures a.artifacts == ready.artifacts + result.artifacts
    ensures a.status == if result.outcome == OutcomeSucceeded then Succeeded else TimedOut
  {
    hide Leads, FindUnit, UnitWithId, ReplaceUnit, Aligned, PlanIds, Enabled, Apply, RunningUnit, Sound;
    ChainUnits();
    DispatchStep(w, s1, "a");
    var s2 := LeadsOneMore(w, origin, s1, DispatchUnit("a"));
    var running := RunningUnit(ready);
    IsReplaced(s1.run, running);
    RunningIs(ready);
    ReplaceShows(s1, s2, ready, b, running);
    s, a := RunningEnds(w, origin, s2, running, b, result);
  }

  lemma RunningIs(ready: UnitState)
    requires Sound(ready) && ready.status == Ready
    ensures var running := RunningUnit(ready);
            && running.unitId == ready.unitId && running.status == Running && Sound(running)
            && running.nextRetryAt == ready.nextRetryAt && running.artifacts == ready.artifacts
  {
    RunningUnitIs(ready);
  }

  lemma RunningEnds(w: World, origin: Stored, s2: Stored, running: UnitState, b: UnitState, result: ExecutorResult) returns (s: Stored, a: UnitState)
    requires Leads(w, origin, s2) && Shows(s2, running, b) && b.unitId == "b"
    requires running.unitId == "a" && running.status == Running && running.nextRetryAt.None? && Sound(running)
    requires result.outcome == OutcomeSucceeded || result.outcome == OutcomeTimedOut
    ensures Leads(w, origin, s) && Shows(s, a, b) && a.unitId == "a" && a.nextRetryAt.None? && Sound(a)
    ensures a.artifacts == running.artifacts + result.artifacts
    ensures a.status == if result.outcome == OutcomeSucceeded then Succeeded else TimedOut
  {
    hide Leads, FindUnit, UnitWithId, Aligned, CompletedUnit, PlanIds, Enabled, Apply, CompletedRun, CompletionEvents,
      Bounded, RetriesAfter;
    ChainUnits();
    var pu := UnitWithId(CHAIN, "a");
    CompleteStep(w, s2, "a", result);
    s := LeadsOneMore(w, origin, s2, Complete("a", result));
    a := CompletedUnit(w, s2.run.runId, pu, running, |running.attempts|, result);
    CompletedUnitIs(w, s2.run.runId, pu, running, result);
    CompletedStatus(w, s2.run.runId, pu, running, result);
    CompletedPayloads(w, s2.run.runId, pu, running, result);
    CompleteReplaces(w, s2.run, "a", result);
    ReplaceShows(s2, s, running, b, a);
    RunningIsBounded(pu, running);
    CompletedFits(w, s2.run.runId, pu, running, result, |running.attempts|);
  }

  lemma RunningIsBounded(pu: PlanUnit, u: UnitState)
    requires u.status == Running && u.nextRetryAt.None?
    ensures Bounded(pu, |u.attempts|, u)
  {
  }

  // Unit a times out, b is skipped for it, and the engine crashes before it can close the run.
  lemma TimeoutThenCrash(w: World) returns (s: Stored, a: UnitState, b: UnitState)
    ensures Crashed(w, s) && Shows(s, a, b) && a.unitId == "a" && a.status == TimedOut && a.nextRetryAt.None? && Sound(a)
    ensures b.unitId == "b" && b.status == Skipped && Sound(b)
  {
    hide Leads, Reachable, FindUnit, UnitWithId, Aligned, PlanIds, Enabled, Apply, Decide, ApplySkip;
    ChainUnits();
    ChainIsAccepted();
    var s0 := StartChain(w);
    LeadsNowhere(w, s0);
    s, a := AttemptEnds(w, s0, s0, InitialUnit("a"), InitialUnit("b"), TIMED_OUT);
    LeadsReach(w, s0, s);
    var skip := SkipRecord("b", BlockedBy("a"));
    BlockedByTimeout(s, a);
    SkipStep(w, s, skip);
    ReachableStep(w, s, SkipUnits([skip]));
    var t := Apply(w, s, SkipUnits([skip]));
    b := SkippedUnit(InitialUnit("b"), skip.reason);
    SkipReplaces(s.run, skip);
    ReplaceShows(s, t, a, InitialUnit("b"), b);
    s := t;
  }

  lemma BlockedByTimeout(s: Stored, a: UnitState)
    requires Shows(s, a, InitialUnit("b")) && a.unitId == "a" && a.status == TimedOut && a.nextRetryAt.None?
    ensures Skips(s.run, SkipRecord("b", BlockedBy("a")))
  {
    hide FindUnit, UnitWithId, Aligned;
    ChainUnits();
    var pu := UnitWithId(CHAIN, "b");
    assert pu.dependencies == ["a"] && pu.dependencies[0] == "a";
    assert !HasUpstreamCondition(pu, "a");
    assert "b" in PlanIds(CHAIN);
  }

  lemma SkipStep(w: World, s: Stored, skip: SkipRecord)
    requires Skips(s.run, skip) && s.run.status == RunningRun
    ensures Enabled(s, SkipUnits([skip])) && Apply(w, s, SkipUnits([skip])).run == ApplySkip(s.run, skip)
    ensures ApplySkip(s.run, skip).status == RunningRun
  {
    hide Skips, ApplySkip, SkipEvents, NothingToSkip;
    SkipsKeepStatus(s.run, [skip]);
    assert ApplySkips(ApplySkip(s.run, skip), []) == ApplySkip(s.run, skip);
    assert [skip][1..] == [];
    assert LegalSkips(ApplySkip(s.run, skip), []);
  }

  lemma ChainShown(s: Stored, a: UnitState, b: UnitState)
    requires Shows(s, a, b)
    ensures "a" in PlanIds(CHAIN) && "b" in PlanIds(CHAIN) && UnitWithId(CHAIN, "b").dependencies == ["a"]
    ensures StatusIn(s.run, "a", a.status) && StatusIn(s.run, "b", b.status)
    ensures a.status == TimedOut ==> !Justified(s.run, "b")
    ensures a.status == Succeeded ==> !Blocked(s.run, "b")
  {
    hide FindUnit, UnitWithId, PlanIds;
    ChainUnits();
  }

  lemma RestartShows(w: World, s: Stored, a: UnitState, b: UnitState)
    requires Shows(s, a, b)
    ensures Enabled(s, Step.Restart) && Shows(Apply(w, s, Step.Restart), RecoverUnit(a), RecoverUnit(b))
  {
    hide FindUnit, SummarizeProgress, ResolveOutputs, RecoverUnit;
    var t := Apply(w, s, Step.Restart);
    KeepsIds(s.run.units);
    FindMapped(s.run.units, RecoverUnit, "a");
    FindMapped(s.run.units, RecoverUnit, "b");
    MapMembers(s.run.units, RecoverUnit);
    assert UnitIds(t.run.units) == UnitIds(s.run.units);
  }

  lemma RecoveredChain(a: UnitState, b: UnitState)
    requires a.unitId == "a" && a.status == TimedOut && a.nextRetryAt.None? && Sound(a)
    requires b.unitId == "b" && b.status == Skipped && Sound(b)
    ensures Startable(RecoverUnit(a)) && Sound(RecoverUnit(a))
    ensures RecoverUnit(b).unitId == "b" && RecoverUnit(b).status == Skipped && Sound(RecoverUnit(b)) && !InFlight(RecoverUnit(b))
  {
    hide MaxAttempts;
    RecoverUnitFits(Bare("a", []), |a.attempts|, a);
    RecoverUnitFits(Bare("b", ["a"]), |b.attempts|, b);
  }

  lemma ChainFinishes(w: World, s: Stored, a: UnitState, b: UnitState)
    requires Shows(s, a, b) && a.status == Succeeded && b.status == Skipped && Sound(a) && Sound(b)
    ensures Enabled(s, Finish)
    ensures var t := Apply(w, s, Finish); t.run.plan == CHAIN && t.run.units == s.run.units && t.run.status == SucceededRun
  {
    hide FindUnit, FinalizeRun, Aligned;
    OutcomeOf(s.run);
    OutcomeIsSucceeded(s.run);
  }

  lemma OutcomeIsSucceeded(run: Run)
    requires forall u :: u in run.units ==> u.status != TimedOut && u.status != Failed
    ensures FinalizeRun(run).status == SucceededRun
  {
    hide FinalizeRun;
    OutcomeOf(run);
  }

  // Unit a times out, b is skipped for it, and the engine crashes. The restart resets a and keeps b:
  // when the second attempt of a succeeds, the run ends as succeeded with a skipped unit whose only
  // dependency succeeded.
  lemma RestartForgetsTimeout(w: World) returns (s: Stored, t: Stored)
    ensures Crashed(w, s) && StatusIn(s.run, "a", TimedOut) && StatusIn(s.run, "b", Skipped)
    ensures Leads(w, s, t) && Reachable(w, t) && t.run.plan == CHAIN && t.run.status == SucceededRun
    ensures StatusIn(t.run, "a", Succeeded) && StatusIn(t.run, "b", Skipped) && !ClosedForm(t.run)
  {
    hide Crashed, Leads, Reachable, FindUnit, ClosedForm, UnitWithId, PlanIds, Blocked, Justified, Shows, StatusIn,
      CHAIN, FinalizeRun, RecoverUnit, Sound, Enabled, Apply, RecoverRun;
    ChainUnits();
    ChainIsAccepted();
    var a, b;
    s, a, b := TimeoutThenCrash(w);
    ChainShown(s, a, b);
    LeadsNowhere(w, s);
    RestartShows(w, s, a, b);
    t := LeadsOneMore(w, s, s, Step.Restart);
    RecoveredChain(a, b);
    var c;
    t, c := AttemptEnds(w, s, t, RecoverUnit(a), RecoverUnit(b), ALL_SUCCEED.execute(Request("run", "a", 2, [])));
    ChainShown(t, c, RecoverUnit(b));
    ChainFinishes(w, t, c, RecoverUnit(b));
    var u := LeadsOneMore(w, s, t, Finish);
    ShownPlan(t, c, RecoverUnit(b));
    SameUnitsShown(t.run, u.run);
    CrashedIsReachable(w, s);
    LeadsReach(w, s, u);
    FinishedPropagation(w, u, "b");
    assert !SkipsHaveCause(u.run);
    t := u;
  }

  lemma CrashedIsReachable(w: World, s: Stored)
    requires Crashed(w, s)
    ensures Reachable(w, s)
  {
  }

  lemma ShownPlan(s: Stored, a: UnitState, b: UnitState)
    requires Shows(s, a, b)
    ensures s.run.plan == CHAIN
  {
  }

  lemma SameUnitsShown(a: Run, b: Run)
    requires a.units == b.units && a.plan == b.plan
    ensures forall id, status :: StatusIn(a, id, status) <==> StatusIn(b, id, status)
    ensures forall id :: id in PlanIds(a.plan) ==> (Blocked(a, id) <==> Blocked(b, id))
  {
    hide FindUnit, UnitWithId;
  }

  // ----- artifacts that share a reference

  // One artifact name declared with two paths, of which the executor found one.
  const FOUND := Payload("artifact:attempt:run:a:1:dist", "dist", AvailablePayload)
  const NOT_FOUND := Payload("artifact:attempt:run:a:1:dist", "dist", MissingPayload)

  const TWO_PATHS := ExecutorResult(OutcomeSucceeded, None, map[], [], [FOUND, NOT_FOUND])

  // A reachable run whose levels agree until any other artifact is marked missing.
  lemma SharedRefHistory(w: World) returns (s: Stored)
    ensures Reachable(w, s) && LevelsAgree(Logs, s.run) && LevelsAgree(Artifacts, s.run)
    ensures FOUND in s.run.artifacts && NOT_FOUND in s.run.artifacts
    ensures forall ref :: ref != FOUND.ref ==> !LevelsAgree(Artifacts, MarkArtifactUnavailable(s.run, ref))
  {
    hide Leads, Reachable, LevelsAgree, FindUnit, Sound, Aligned, MarkArtifactUnavailable;
    var s0 := StartChain(w);
    LeadsNowhere(w, s0);
    var a;
    s, a := AttemptEnds(w, s0, s0, InitialUnit("a"), InitialUnit("b"), TWO_PATHS) by {
      InitialIsSound();
    }
    LeadsReach(w, s0, s);
    PayloadsAgree(Logs, w, s);
    PayloadsAgree(Artifacts, w, s);
    assert a.artifacts == [FOUND, NOT_FOUND];
    UnitArtifactListed(s.run, a, FOUND);
    UnitArtifactListed(s.run, a, NOT_FOUND);
    forall ref | ref != FOUND.ref
      ensures !LevelsAgree(Artifacts, MarkArtifactUnavailable(s.run, ref))
    {
      SharedRefTearsLevels(s.run, FOUND, NOT_FOUND, ref);
    }
  }

  lemma InitialIsSound()
    ensures Sound(InitialUnit("a")) && Sound(InitialUnit("b")) && !InFlight(InitialUnit("b"))
  {
  }

  lemma UnitArtifactListed(run: Run, u: UnitState, p: Payload)
    requires LevelsAgree(Artifacts, run) && u in run.units && p in u.artifacts
    ensures p in run.artifacts
  {
    ListedInUnits(run.units, u, p);
    assert p in multiset(OfUnits(Artifacts, run.units));
    assert p in multiset(run.artifacts);
  }

  lemma {:induction false} ListedInUnits(units: seq<UnitState>, u: UnitState, p: Payload)
    requires u in units && p in u.artifacts
    ensures p in OfUnits(Artifacts, units)
  {
    var n := |units| - 1;
    if u in units[..n] {
      ListedInUnits(units[..n], u, p);
    }
  }
}

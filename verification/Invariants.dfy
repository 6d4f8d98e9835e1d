// What every engine step keeps: attempt accounting, dispatch safety, and how unit and run
// statuses fit together.

module Invariants {
  import opened Basics
  import opened Plans
  import opened RunState
  import opened Decision
  import opened SkipFixpoint
  import opened Dispatch
  import opened Preservation
  import opened History

  function Restarts(log: seq<Event>): nat {
    if log == [] then 0
    else Restarts(log[..|log| - 1]) + if log[|log| - 1] == RunResumed then 1 else 0
  }

  // Attempts never exceed the policy's limit plus one per restart.
  ghost predicate Bounded(pu: PlanUnit, restarts: nat, u: UnitState) {
    && |u.attempts| <= MaxAttempts(pu) + restarts
    && (u.status == Pending || u.status == Ready ==> |u.attempts| < MaxAttempts(pu) + restarts)
    && (u.nextRetryAt.Some? ==> |u.attempts| < MaxAttempts(pu))
  }

  ghost predicate SucceededIn(run: Run, id: UnitId) {
    FindUnit(run.units, id).Some? && FindUnit(run.units, id).value.status == Succeeded
  }

  // A unit is attempted only after every dependency without a status condition succeeded.
  ghost predicate Safe(run: Run, pu: PlanUnit, u: UnitState) {
    u.attempts != [] || u.status == Ready ==>
      forall d :: d in pu.dependencies && !HasUpstreamCondition(pu, d) ==> SucceededIn(run, d)
  }

  ghost predicate UnitFits(run: Run, restarts: nat, u: UnitState) {
    && u.unitId in PlanIds(run.plan)
    && Sound(u)
    && Bounded(UnitWithId(run.plan, u.unitId), restarts, u)
    && Safe(run, UnitWithId(run.plan, u.unitId), u)
  }

  ghost predicate UnitsFit(run: Run, restarts: nat) {
    Aligned(run) && forall u :: u in run.units ==> UnitFits(run, restarts, u)
  }

  lemma FitAligned(run: Run, restarts: nat)
    requires UnitsFit(run, restarts)
    ensures Aligned(run)
  {
  }

  // Success is never undone.
  ghost predicate SuccessKept(a: Run, b: Run) {
    a.plan == b.plan && forall id :: SucceededIn(a, id) ==> SucceededIn(b, id)
  }

  lemma SafeKept(a: Run, b: Run, pu: PlanUnit, u: UnitState, v: UnitState)
    requires SuccessKept(a, b) && Safe(a, pu, u)
    requires v.attempts != [] || v.status == Ready ==> u.attempts != [] || u.status == Ready
    ensures Safe(b, pu, v)
  {
    hide FindUnit, SucceededIn;
  }

  lemma ReplaceKeepsSuccess(a: Run, b: Run, next: UnitState)
    requires Replaced(a, b, next)
    requires !SucceededIn(a, next.unitId)
    ensures SuccessKept(a, b)
  {
    hide FindUnit, ReplaceIn;
    ReplacedSameBut(a, b, next);
  }

  lemma ReplaceKeepsFit(a: Run, b: Run, restarts: nat, next: UnitState)
    requires UnitsFit(a, restarts) && Replaced(a, b, next)
    requires !SucceededIn(a, next.unitId)
    requires next.unitId in PlanIds(a.plan) && Sound(next) && Bounded(UnitWithId(a.plan, next.unitId), restarts, next)
    requires Safe(a, UnitWithId(a.plan, next.unitId), next)
    ensures UnitsFit(b, restarts)
  {
    hide FindUnit, ReplaceIn, Sound, Bounded, Safe, UnitWithId;
    ReplacedSameBut(a, b, next);
    ReplaceKeepsSuccess(a, b, next);
    ReplaceMembers(a.units, next);
    forall u | u in b.units
      ensures UnitFits(b, restarts, u)
    {
      if u == next {
        SafeKept(a, b, UnitWithId(a.plan, u.unitId), u, u);
      } else {
        assert UnitFits(a, restarts, u);
        SafeKept(a, b, UnitWithId(a.plan, u.unitId), u, u);
      }
    }
  }

  lemma FitUnit(run: Run, restarts: nat, id: UnitId)
    requires UnitsFit(run, restarts) && FindUnit(run.units, id).Some?
    ensures var u := UnitOf(run, id);
            && id in PlanIds(run.plan) && u.unitId == id && u in run.units
            && Sound(u) && Bounded(UnitWithId(run.plan, id), restarts, u) && Safe(run, UnitWithId(run.plan, id), u)
            && (SucceededIn(run, id) <==> u.status == Succeeded)
  {
    hide FindUnit, Sound, Bounded, Safe, UnitWithId;
    assert UnitFits(run, restarts, UnitOf(run, id));
  }

  // ----- one lemma per step on a single unit

  lemma ReadyIsSafe(run: Run, pu: PlanUnit, u: UnitState)
    requires Decide(run, pu) == ReadyToRun
    ensures Safe(run, pu, u)
  {
    hide FindUnit;
    forall d | d in pu.dependencies && !HasUpstreamCondition(pu, d)
      ensures SucceededIn(run, d)
    {
      DecidedOnSettled(run, pu, d);
      ReadyParts(run, pu);
    }
  }

  lemma MakeReadyFits(run: Run, restarts: nat, id: UnitId)
    requires UnitsFit(run, restarts) && IsReady(run, id)
    ensures UnitsFit(ReadyRun(run, UnitOf(run, id)), restarts)
    ensures SuccessKept(run, ReadyRun(run, UnitOf(run, id)))
  {
    hide FindUnit, UnitWithId, Decide, SummarizeProgress, ResolveOutputs, ReplaceIn, Safe;
    var u, pu := UnitOf(run, id), UnitWithId(run.plan, id);
    FitUnit(run, restarts, id);
    ReadyIsSafe(run, pu, ReadyUnit(u));
    ReplaceKeepsFit(run, ReadyRun(run, u), restarts, ReadyUnit(u));
    ReplaceKeepsSuccess(run, ReadyRun(run, u), ReadyUnit(u));
  }

  lemma DispatchFits(run: Run, restarts: nat, id: UnitId)
    requires UnitsFit(run, restarts) && HasStatus(run, id, Ready)
    ensures UnitsFit(ReplaceUnit(run, RunningUnit(UnitOf(run, id))), restarts)
    ensures SuccessKept(run, ReplaceUnit(run, RunningUnit(UnitOf(run, id))))
  {
    hide FindUnit, UnitWithId, SummarizeProgress, ResolveOutputs, ReplaceIn, RunningUnit, MaxAttempts;
    var u := UnitOf(run, id);
    FitUnit(run, restarts, id);
    RunningUnitIs(u);
    var running := RunningUnit(u);
    assert Sound(running);
    ReplaceKeepsFit(run, ReplaceUnit(run, running), restarts, running);
    ReplaceKeepsSuccess(run, ReplaceUnit(run, running), running);
  }

  lemma CompletedFits(w: World, runId: RunId, pu: PlanUnit, u: UnitState, result: ExecutorResult, restarts: nat)
    requires Sound(u) && u.status == Running && Bounded(pu, restarts, u)
    ensures var after := CompletedUnit(w, runId, pu, u, |u.attempts|, result);
            && after.unitId == u.unitId && Sound(after) && Bounded(pu, restarts, after)
            && !InFlight(after) && after.status != Pending && after.status != Canceled
  {
    hide CompletedUnit, MaxAttempts, AllowsMore;
    CompletedUnitIs(w, runId, pu, u, result);
    var after := CompletedUnit(w, runId, pu, u, |u.attempts|, result);
    forall i | 0 <= i < |u.attempts| - 1
      ensures after.attempts[i] == u.attempts[i]
    {
      assert after.attempts[..|u.attempts| - 1][i] == u.attempts[..|u.attempts| - 1][i];
    }
    if AllowsMore(pu, |u.attempts|) {
      RetriesWithinLimit(pu, |u.attempts|);
    }
  }

  lemma CompleteReplaces(w: World, run: Run, id: UnitId, result: ExecutorResult)
    requires HasStatus(run, id, Running)
    ensures Replaced(run, RunAfter(w, run, Complete(id, result)),
                     CompletedUnit(w, run.runId, UnitWithId(run.plan, id), UnitOf(run, id), |UnitOf(run, id).attempts|, result))
    ensures RunAfter(w, run, Complete(id, result)).status == run.status
  {
    hide FindUnit, UnitWithId, SummarizeProgress, ResolveOutputs, ReplaceIn, CompletedUnit;
  }

  lemma CompleteFits(w: World, run: Run, restarts: nat, id: UnitId, result: ExecutorResult)
    requires UnitsFit(run, restarts) && HasStatus(run, id, Running)
    ensures UnitsFit(RunAfter(w, run, Complete(id, result)), restarts)
    ensures SuccessKept(run, RunAfter(w, run, Complete(id, result)))
  {
    hide FindUnit, UnitWithId, CompletedUnit, RunAfter, Bounded;
    var u, pu := UnitOf(run, id), UnitWithId(run.plan, id);
    FitUnit(run, restarts, id);
    CompleteReplaces(w, run, id, result);
    CompletedFits(w, run.runId, pu, u, result, restarts);
    var after := CompletedUnit(w, run.runId, pu, u, |u.attempts|, result);
    ReplaceKeepsFit(run, RunAfter(w, run, Complete(id, result)), restarts, after);
    ReplaceKeepsSuccess(run, RunAfter(w, run, Complete(id, result)), after);
  }

  lemma WakeFits(run: Run, restarts: nat, id: UnitId)
    requires UnitsFit(run, restarts) && FindUnit(run.units, id).Some? && UnitOf(run, id).nextRetryAt.Some?
    ensures UnitsFit(ReplaceUnit(run, Woken(UnitOf(run, id))), restarts)
    ensures SuccessKept(run, ReplaceUnit(run, Woken(UnitOf(run, id))))
  {
    hide FindUnit, UnitWithId, SummarizeProgress, ResolveOutputs, ReplaceIn, MaxAttempts;
    var u := UnitOf(run, id);
    FitUnit(run, restarts, id);
    ReplaceKeepsFit(run, ReplaceUnit(run, Woken(u)), restarts, Woken(u));
    ReplaceKeepsSuccess(run, ReplaceUnit(run, Woken(u)), Woken(u));
  }

  lemma SkipFits(run: Run, restarts: nat, skip: SkipRecord)
    requires UnitsFit(run, restarts) && Skips(run, skip)
    ensures UnitsFit(ApplySkip(run, skip), restarts)
    ensures SuccessKept(run, ApplySkip(run, skip))
  {
    hide FindUnit, UnitWithId, Decide, ApplySkip, MaxAttempts;
    var u := UnitOf(run, skip.unitId);
    FitUnit(run, restarts, skip.unitId);
    SkipReplaces(run, skip);
    ReplaceKeepsFit(run, ApplySkip(run, skip), restarts, SkippedUnit(u, skip.reason));
    ReplaceKeepsSuccess(run, ApplySkip(run, skip), SkippedUnit(u, skip.reason));
  }

  lemma {:induction false} SkipsFit(run: Run, restarts: nat, skips: seq<SkipRecord>)
    requires UnitsFit(run, restarts) && LegalSkips(run, skips)
    ensures UnitsFit(ApplySkips(run, skips), restarts)
    ensures SuccessKept(run, ApplySkips(run, skips))
    decreases |skips|
  {
    hide FindUnit, ApplySkip, Skips, UnitsFit;
    if skips != [] {
      SkipFits(run, restarts, skips[0]);
      SkipsFit(ApplySkip(run, skips[0]), restarts, skips[1..]);
    }
  }

  // ----- the two whole-run transformers

  lemma RecoverUnitFits(pu: PlanUnit, restarts: nat, u: UnitState)
    requires Sound(u) && Bounded(pu, restarts, u)
    ensures Sound(RecoverUnit(u)) && Bounded(pu, restarts + 1, RecoverUnit(u))
    ensures RecoverUnit(u).unitId == u.unitId && |RecoverUnit(u).attempts| == |u.attempts| && RecoverUnit(u).status != Ready
    ensures RecoverUnit(u).status == Succeeded <==> u.status == Succeeded
  {
    hide MaxAttempts;
    var v := RecoverUnit(u);
    forall i | 0 <= i < |v.attempts|
      ensures v.attempts[i].number == i + 1 && v.attempts[i].status != RunningAttempt
    {
      assert v.attempts[i] == InterruptAttempt(u.attempts[i]) && u.attempts[i].number == i + 1;
    }
    if u.attempts != [] {
      assert v.attempts[|u.attempts| - 1] == InterruptAttempt(u.attempts[|u.attempts| - 1]);
    }
  }

  lemma CancelUnitFits(pu: PlanUnit, restarts: nat, u: UnitState)
    requires Sound(u) && Bounded(pu, restarts, u)
    ensures Sound(CancelUnit(u)) && Bounded(pu, restarts, CancelUnit(u))
    ensures CancelUnit(u).unitId == u.unitId && |CancelUnit(u).attempts| == |u.attempts| && CancelUnit(u).status != Ready
    ensures CancelUnit(u).status == Succeeded <==> u.status == Succeeded
  {
    hide MaxAttempts;
    var v := CancelUnit(u);
    forall i | 0 <= i < |v.attempts|
      ensures v.attempts[i].number == i + 1 && v.attempts[i].status != RunningAttempt
    {
      assert v.attempts[i] == CancelAttempt(u.attempts[i]) && u.attempts[i].number == i + 1;
    }
    if u.attempts != [] {
      assert v.attempts[|u.attempts| - 1] == CancelAttempt(u.attempts[|u.attempts| - 1]);
    }
  }

  // A map over units that keeps ids, attempts and success keeps alignment and safety.
  lemma MappedFits(a: Run, b: Run, f: UnitState -> UnitState, restarts: nat, next: nat)
    requires UnitsFit(a, restarts) && b.plan == a.plan && b.units == MapUnits(a.units, f)
    requires forall u :: u in a.units ==>
               && f(u).unitId == u.unitId && |f(u).attempts| == |u.attempts| && (f(u).status == Ready ==> u.status == Ready)
               && (f(u).status == Succeeded <==> u.status == Succeeded)
               && Sound(f(u)) && Bounded(UnitWithId(a.plan, u.unitId), next, f(u))
    ensures UnitsFit(b, next) && SuccessKept(a, b)
  {
    hide FindUnit, Sound, Bounded, UnitWithId;
    assert UnitIds(b.units) == UnitIds(a.units);
    forall id
      ensures FindUnit(b.units, id) == match FindUnit(a.units, id) case None => None case Some(u) => Some(f(u))
    {
      FindMapped(a.units, f, id);
    }
    assert SuccessKept(a, b);
    MapMembers(a.units, f);
    forall v | v in b.units
      ensures UnitFits(b, next, v)
    {
      var u :| u in a.units && v == f(u);
      assert UnitFits(a, restarts, u);
      SafeKept(a, b, UnitWithId(a.plan, u.unitId), u, v);
    }
  }

  lemma RecoverFits(run: Run, restarts: nat)
    requires UnitsFit(run, restarts)
    ensures UnitsFit(RecoverRun(run), restarts + 1) && SuccessKept(run, RecoverRun(run))
  {
    hide FindUnit, Sound, Bounded, Safe, UnitWithId, RecoverUnit, SummarizeProgress, ResolveOutputs;
    forall u | u in run.units
      ensures RecoverUnit(u).unitId == u.unitId && |RecoverUnit(u).attempts| == |u.attempts| && RecoverUnit(u).status != Ready
      ensures RecoverUnit(u).status == Succeeded <==> u.status == Succeeded
      ensures Sound(RecoverUnit(u)) && Bounded(UnitWithId(run.plan, u.unitId), restarts + 1, RecoverUnit(u))
    {
      assert UnitFits(run, restarts, u);
      RecoverUnitFits(UnitWithId(run.plan, u.unitId), restarts, u);
    }
    MappedFits(run, RecoverRun(run), RecoverUnit, restarts, restarts + 1);
  }

  lemma CancelFits(run: Run, restarts: nat)
    requires UnitsFit(run, restarts)
    ensures UnitsFit(CancelRunState(run), restarts) && SuccessKept(run, CancelRunState(run))
  {
    hide FindUnit, Sound, Bounded, Safe, UnitWithId, CancelUnit, SummarizeProgress, ResolveOutputs;
    forall u | u in run.units
      ensures CancelUnit(u).unitId == u.unitId && |CancelUnit(u).attempts| == |u.attempts| && CancelUnit(u).status != Ready
      ensures CancelUnit(u).status == Succeeded <==> u.status == Succeeded
      ensures Sound(CancelUnit(u)) && Bounded(UnitWithId(run.plan, u.unitId), restarts, CancelUnit(u))
    {
      assert UnitFits(run, restarts, u);
      CancelUnitFits(UnitWithId(run.plan, u.unitId), restarts, u);
    }
    MappedFits(run, CancelRunState(run), CancelUnit, restarts, restarts);
  }

  // ----- every step, every history

  lemma {:induction false} RestartsAppend(log: seq<Event>, more: seq<Event>)
    ensures Restarts(log + more) == Restarts(log) + Restarts(more)
  {
    if more == [] {
      assert log + more == log;
    } else {
      RestartsAppend(log, more[..|more| - 1]);
      assert (log + more)[..|log + more| - 1] == log + more[..|more| - 1];
    }
  }

  lemma {:induction false} NoRestarts(es: seq<Event>)
    requires RunResumed !in es
    ensures Restarts(es) == 0
  {
    if es != [] {
      NoRestarts(es[..|es| - 1]);
    }
  }

  lemma {:induction false} SkipEventsAreSkips(skips: seq<SkipRecord>)
    ensures RunResumed !in SkipEvents(skips)
  {
    if skips != [] {
      SkipEventsAreSkips(skips[..|skips| - 1]);
    }
  }

  lemma {:induction false} CancelsAreCancels(before: seq<UnitState>, after: seq<UnitState>)
    requires |before| == |after|
    ensures RunResumed !in AttemptCancelEvents(before, after) && RunResumed !in UnitCancelEvents(before, after)
  {
    if before != [] {
      CancelsAreCancels(before[..|before| - 1], after[..|before| - 1]);
    }
  }

  lemma RestartsAfter(w: World, s: Stored, step: Step)
    requires Enabled(s, step)
    ensures Restarts(Apply(w, s, step).log) == Restarts(s.log) + if step.Restart? then 1 else 0
  {
    hide FindUnit, UnitWithId, Decide, RunAfter, NextAttemptNumber, LegalSkips, FinalizeRun, CancelRunState, Restarts,
      AttemptCancelEvents, UnitCancelEvents, SkipEvents;
    var es := EventsAfter(w, s.run, step);
    RestartsAppend(s.log, es);
    match step {
      case Restart =>
        RestartsOne();
      case SkipUnits(skips) =>
        SkipEventsAreSkips(skips);
        NoRestarts(es);
      case FinishCancel =>
        CancelsAreCancels(s.run.units, CancelledUnits(s.run));
        NoRestarts(es);
      case _ =>
        NoRestarts(es);
    }
  }

  function CancelledUnits(run: Run): (r: seq<UnitState>)
    ensures |r| == |run.units|
  {
    CancelRunState(run).units
  }

  lemma RestartsOne()
    ensures Restarts([RunResumed]) == 1
  {
    assert Restarts([RunResumed]) == Restarts([]) + 1;
  }

  lemma StepFits(w: World, s: Stored, step: Step)
    requires UnitsFit(s.run, Restarts(s.log)) && Enabled(s, step)
    ensures UnitsFit(Apply(w, s, step).run, Restarts(Apply(w, s, step).log))
    ensures SuccessKept(s.run, Apply(w, s, step).run)
  {
    hide FindUnit, UnitWithId, Decide, UnitsFit, Restarts, EventsAfter, ReplaceUnit, CompletedRun, RecoverRun,
      CancelRunState, ReadyRun, LegalSkips, ApplySkips, SummarizeProgress, ResolveOutputs, FirstWithStatus;
    var r := Restarts(s.log);
    RestartsAfter(w, s, step);
    match step {
      case SkipUnits(skips) => SkipsFit(s.run, r, skips);
      case MakeReady(id) => MakeReadyFits(s.run, r, id);
      case DispatchUnit(id) => DispatchFits(s.run, r, id);
      case Complete(id, result) => CompleteFits(w, s.run, r, id, result);
      case WakeUnit(id) => WakeFits(s.run, r, id);
      case FinishCancel => CancelFits(s.run, r);
      case Restart => RecoverFits(s.run, r);
      case _ => SameUnitsFit(s.run, RunAfter(w, s.run, step), r);
    }
  }

  lemma SameUnitsFit(a: Run, b: Run, restarts: nat)
    requires UnitsFit(a, restarts)
    ensures a.plan == b.plan && a.units == b.units ==> UnitsFit(b, restarts) && SuccessKept(a, b)
  {
    hide FindUnit, UnitWithId, Sound, Bounded;
    if a.plan == b.plan && a.units == b.units {
      forall u | u in b.units
        ensures UnitFits(b, restarts, u)
      {
        assert UnitFits(a, restarts, u);
      }
    }
  }
}

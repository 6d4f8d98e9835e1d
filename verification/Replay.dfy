// The event log tells the whole story: replaying it gives the persisted statuses back.

module Replay {
  import opened Basics
  import opened Plans
  import opened RunState
  import opened Decision
  import opened SkipFixpoint
  import opened Dispatch
  import opened Preservation
  import opened History
  import opened Invariants
  import opened Lifecycle

  // What the log says about a unit: its status, and the status of each numbered attempt.
  datatype UnitView = UnitView(status: UnitStatus, attempts: map<nat, AttemptStatus>)

  datatype RunView = RunView(status: RunStatus, units: map<UnitId, UnitView>)

  function SetUnit(v: RunView, id: UnitId, status: UnitStatus): RunView {
    if id in v.units then v.(units := v.units[id := v.units[id].(status := status)]) else v
  }

  function SetAttempt(v: RunView, id: UnitId, number: nat, status: AttemptStatus): RunView {
    if id in v.units then
      v.(units := v.units[id := v.units[id].(attempts := v.units[id].attempts[number := status])])
    else v
  }

  function InterruptedView(attempts: map<nat, AttemptStatus>): map<nat, AttemptStatus> {
    map n | n in attempts :: if attempts[n] == RunningAttempt then InterruptedAttempt else attempts[n]
  }

  // A restart replayed: the statuses it keeps stay, every other unit is pending again.
  function RecoveredView(u: UnitView): UnitView {
    UnitView(if KeptByRecovery(u.status) then u.status else Pending, InterruptedView(u.attempts))
  }

  function ReplayEvent(ids: seq<UnitId>, v: RunView, e: Event): RunView {
    match e
    case RunCreated => RunView(QueuedRun, map id | id in ids :: UnitView(Pending, map[]))
    case RunStarted => v.(status := RunningRun)
    case RunResumed => RunView(RunningRun, map id | id in v.units :: RecoveredView(v.units[id]))
    case RunCancellationRequested => v.(status := CancelingRun)
    case UnitReady(id) => SetUnit(v, id, Ready)
    case UnitDispatched(id, _) => SetUnit(v, id, Running)
    case AttemptStarted(id, n) => SetAttempt(v, id, n, RunningAttempt)
    case AttemptSucceeded(id, n) => SetAttempt(v, id, n, SucceededAttempt)
    case AttemptFailed(id, n, _) => SetAttempt(v, id, n, FailedAttempt)
    case AttemptTimedOut(id, n, _) => SetAttempt(v, id, n, TimedOutAttempt)
    case AttemptCanceled(id, n) => SetAttempt(v, id, n, CanceledAttempt)
    case RetryScheduled(id, _, _, _) => SetUnit(v, id, Failed)
    case UnitSucceeded(id) => SetUnit(v, id, Succeeded)
    case UnitFailed(id, _) => SetUnit(v, id, Failed)
    case UnitTimedOut(id, _) => SetUnit(v, id, TimedOut)
    case UnitSkipped(id, _) => SetUnit(v, id, Skipped)
    case UnitCanceled(id) => SetUnit(v, id, Canceled)
    case LogRegistered(_, _, _) => v
    case ArtifactRegistered(_, _, _) => v
    case RunSucceeded => v.(status := SucceededRun)
    case RunFailed(_) => v.(status := FailedRun)
    case RunTimedOut(_) => v.(status := TimedOutRun)
    case RunCanceled => v.(status := CanceledRun)
  }

  function ReplayFrom(ids: seq<UnitId>, v: RunView, log: seq<Event>): RunView {
    if log == [] then v
    else ReplayEvent(ids, ReplayFrom(ids, v, log[..|log| - 1]), log[|log| - 1])
  }

  function ReplayLog(ids: seq<UnitId>, log: seq<Event>): RunView {
    ReplayFrom(ids, RunView(QueuedRun, map[]), log)
  }

  function StatusAt(u: UnitState, n: nat): AttemptStatus
    requires 1 <= n <= |u.attempts|
  {
    u.attempts[n - 1].status
  }

  ghost function AttemptMap(u: UnitState): map<nat, AttemptStatus> {
    map n: nat | 1 <= n <= |u.attempts| :: StatusAt(u, n)
  }

  // Waking a unit for a retry is the one commit that logs no event: until its next dispatch the
  // log still shows the failed attempt that scheduled the retry.
  ghost predicate AwaitsRetry(u: UnitState) {
    u.status == Pending && LastIs(u, FailedAttempt)
  }

  ghost predicate UnitMatches(v: UnitView, u: UnitState) {
    && v.attempts == AttemptMap(u)
    && (v.status == u.status || (v.status == Failed && AwaitsRetry(u)))
  }

  ghost predicate UnitsMatch(v: RunView, run: Run) {
    && v.units.Keys == Elements(PlanIds(run.plan))
    && forall u :: u in run.units ==> u.unitId in v.units && UnitMatches(v.units[u.unitId], u)
  }

  ghost predicate Matches(v: RunView, run: Run) {
    v.status == run.status && UnitsMatch(v, run)
  }

  // ----- replay of several events

  lemma {:induction false} ReplayAppend(ids: seq<UnitId>, v: RunView, log: seq<Event>, more: seq<Event>)
    ensures ReplayFrom(ids, v, log + more) == ReplayFrom(ids, ReplayFrom(ids, v, log), more)
  {
    hide ReplayEvent;
    if more == [] {
      assert log + more == log;
    } else {
      ReplayAppend(ids, v, log, more[..|more| - 1]);
      assert (log + more)[..|log + more| - 1] == log + more[..|more| - 1];
    }
  }

  lemma ReplayOne(ids: seq<UnitId>, v: RunView, e: Event)
    ensures ReplayFrom(ids, v, [e]) == ReplayEvent(ids, v, e)
  {
    hide ReplayEvent;
    assert [e][..0] == [];
    assert ReplayFrom(ids, v, [e][..0]) == v;
  }

  lemma ReplayTwo(ids: seq<UnitId>, v: RunView, e: Event, f: Event)
    ensures ReplayFrom(ids, v, [e, f]) == ReplayEvent(ids, ReplayEvent(ids, v, e), f)
  {
    hide ReplayEvent;
    ReplayOne(ids, v, e);
    assert [e, f][..1] == [e];
  }

  // ----- steps on one unit

  ghost predicate Fits(run: Run) {
    Aligned(run) && forall u :: u in run.units ==> Sound(u)
  }

  lemma ReplaceKeepsMatch(v: RunView, v': RunView, a: Run, b: Run, next: UnitState)
    requires UnitsMatch(v, a) && Fits(a) && Replaced(a, b, next) && FindUnit(a.units, next.unitId).Some?
    requires v'.units.Keys == v.units.Keys && next.unitId in v.units && UnitMatches(v'.units[next.unitId], next)
    requires forall id :: id in v.units && id != next.unitId ==> v'.units[id] == v.units[id]
    ensures UnitsMatch(v', b)
  {
    hide FindUnit, ReplaceIn, UnitMatches;
    ReplaceMembers(a.units, next);
  }

  lemma UnitInView(v: RunView, run: Run, id: UnitId)
    requires UnitsMatch(v, run) && Fits(run) && FindUnit(run.units, id).Some?
    ensures id in v.units && UnitMatches(v.units[id], UnitOf(run, id)) && Sound(UnitOf(run, id)) && UnitOf(run, id).unitId == id
  {
    hide FindUnit, UnitMatches, Sound;
  }

  lemma AttemptMapReplaced(u: UnitState, v: UnitState)
    requires |v.attempts| == |u.attempts| > 0 && v.attempts[..|u.attempts| - 1] == u.attempts[..|u.attempts| - 1]
    ensures AttemptMap(v) == AttemptMap(u)[|u.attempts| := v.attempts[|u.attempts| - 1].status]
  {
    forall n: nat | 1 <= n < |u.attempts|
      ensures StatusAt(v, n) == StatusAt(u, n)
    {
      assert v.attempts[..|u.attempts| - 1][n - 1] == u.attempts[..|u.attempts| - 1][n - 1];
    }
  }

  lemma MakeReadyMatches(ids: seq<UnitId>, v: RunView, run: Run, id: UnitId)
    requires UnitsMatch(v, run) && Fits(run) && IsReady(run, id)
    ensures UnitsMatch(ReplayFrom(ids, v, [UnitReady(id)]), ReadyRun(run, UnitOf(run, id)))
    ensures ReplayFrom(ids, v, [UnitReady(id)]).status == v.status
  {
    hide FindUnit, Decide, UnitWithId, SummarizeProgress, ResolveOutputs, ReplaceIn, Sound;
    var u := UnitOf(run, id);
    ReplayOne(ids, v, UnitReady(id));
    UnitInView(v, run, id);
    ReplaceKeepsMatch(v, ReplayFrom(ids, v, [UnitReady(id)]), run, ReadyRun(run, u), ReadyUnit(u));
  }

  lemma DispatchedAttempts(u: UnitState)
    requires Numbered(u.attempts)
    ensures NextAttemptNumber(u.attempts) == |u.attempts| + 1
    ensures RunningUnit(u).unitId == u.unitId && RunningUnit(u).status == Running
    ensures AttemptMap(RunningUnit(u)) == AttemptMap(u)[|u.attempts| + 1 := RunningAttempt]
  {
    hide NextAttemptNumber, RunningUnit;
    NumberedNext(u.attempts);
    RunningUnitIs(u);
    var r := RunningUnit(u);
    forall n: nat | 1 <= n <= |u.attempts|
      ensures StatusAt(r, n) == StatusAt(u, n)
    {
    }
  }

  lemma DispatchMatches(ids: seq<UnitId>, v: RunView, run: Run, id: UnitId)
    requires UnitsMatch(v, run) && Fits(run) && HasStatus(run, id, Ready)
    ensures var n := NextAttemptNumber(UnitOf(run, id).attempts);
            var v' := ReplayFrom(ids, v, [UnitDispatched(id, n), AttemptStarted(id, n)]);
            v'.status == v.status && UnitsMatch(v', ReplaceUnit(run, RunningUnit(UnitOf(run, id))))
  {
    hide FindUnit, UnitWithId, SummarizeProgress, ResolveOutputs, ReplaceIn, RunningUnit, NextAttemptNumber,
      AttemptMap, ReplayFrom, UnitsMatch, Fits;
    var u := UnitOf(run, id);
    var n := NextAttemptNumber(u.attempts);
    UnitInView(v, run, id);
    DispatchedAttempts(u);
    ReplayTwo(ids, v, UnitDispatched(id, n), AttemptStarted(id, n));
    var v' := ReplayFrom(ids, v, [UnitDispatched(id, n), AttemptStarted(id, n)]);
    assert UnitMatches(v'.units[id], RunningUnit(u));
    ReplaceKeepsMatch(v, v', run, ReplaceUnit(run, RunningUnit(u)), RunningUnit(u));
  }

  lemma CompletionReplayed(ids: seq<UnitId>, v: RunView, w: World, runId: RunId, pu: PlanUnit, u: UnitState, result: ExecutorResult, at: int)
    requires u.unitId in v.units && UnitMatches(v.units[u.unitId], u) && Sound(u) && u.status == Running
    ensures var n := |u.attempts|;
            var v' := ReplayFrom(ids, v, CompletionEvents(pu, u.unitId, n, result, at));
            && v'.status == v.status && v'.units.Keys == v.units.Keys
            && UnitMatches(v'.units[u.unitId], CompletedUnit(w, runId, pu, u, n, result))
            && forall id :: id in v.units && id != u.unitId ==> v'.units[id] == v.units[id]
  {
    hide RetriesAfter, ReplaceAttempt, DeclaredOutputs, ToFailure, AllowsMore;
    var n := |u.attempts|;
    CompletedUnitIs(w, runId, pu, u, result);
    CompletedStatus(w, runId, pu, u, result);
    var after := CompletedUnit(w, runId, pu, u, n, result);
    AttemptMapReplaced(u, after);
    var es := CompletionEvents(pu, u.unitId, n, result, at);
    ReplayTwo(ids, v, es[0], es[1]);
    assert es == [es[0], es[1]];
  }

  lemma CompletedStatus(w: World, runId: RunId, pu: PlanUnit, u: UnitState, result: ExecutorResult)
    ensures var after := CompletedUnit(w, runId, pu, u, |u.attempts|, result);
            match result.outcome
            case OutcomeSucceeded => after.status == Succeeded
            case OutcomeTimedOut => after.status == TimedOut
            case _ => after.status == Failed
  {
    hide RetriesAfter, AttemptIndex, DeclaredOutputs, ToFailure;
  }

  lemma CompleteMatches(ids: seq<UnitId>, v: RunView, w: World, run: Run, id: UnitId, result: ExecutorResult)
    requires UnitsMatch(v, run) && Fits(run) && HasStatus(run, id, Running)
    ensures var v' := ReplayFrom(ids, v, EventsAfter(w, run, Complete(id, result)));
            v'.status == v.status && UnitsMatch(v', RunAfter(w, run, Complete(id, result)))
  {
    hide FindUnit, UnitWithId, CompletedUnit, RunAfter, CompletionEvents, UnitMatches, Sound;
    var u, pu := UnitOf(run, id), UnitWithId(run.plan, id);
    UnitInView(v, run, id);
    CompleteReplaces(w, run, id, result);
    CompletionReplayed(ids, v, w, run.runId, pu, u, result, w.retryAt(run.runId, id, |u.attempts|));
    CompletedKeepsId(w, run.runId, pu, u, result);
    ReplaceKeepsMatch(v, ReplayFrom(ids, v, EventsAfter(w, run, Complete(id, result))), run, RunAfter(w, run, Complete(id, result)),
      CompletedUnit(w, run.runId, pu, u, |u.attempts|, result));
  }

  lemma CompletedKeepsId(w: World, runId: RunId, pu: PlanUnit, u: UnitState, result: ExecutorResult)
    ensures CompletedUnit(w, runId, pu, u, |u.attempts|, result).unitId == u.unitId
  {
    hide RetriesAfter, AttemptIndex, DeclaredOutputs, ToFailure;
  }

  // The silent step: nothing is logged, and the unit is one the log shows as failed for a retry.
  lemma WakeMatches(v: RunView, run: Run, id: UnitId)
    requires UnitsMatch(v, run) && Fits(run) && FindUnit(run.units, id).Some? && UnitOf(run, id).nextRetryAt.Some?
    ensures UnitsMatch(v, ReplaceUnit(run, Woken(UnitOf(run, id))))
  {
    hide FindUnit, SummarizeProgress, ResolveOutputs, ReplaceIn, UnitsMatch, Fits;
    var u := UnitOf(run, id);
    UnitInView(v, run, id);
    assert AttemptMap(Woken(u)) == AttemptMap(u);
    ReplaceKeepsMatch(v, v, run, ReplaceUnit(run, Woken(u)), Woken(u));
  }

  lemma SkipFits(run: Run, skip: SkipRecord)
    requires Fits(run) && Skips(run, skip)
    ensures Fits(ApplySkip(run, skip))
  {
    hide FindUnit, Decide, UnitWithId, ApplySkip;
    var u := UnitOf(run, skip.unitId);
    SkipReplaces(run, skip);
    SkippedIsSound(u, skip.reason);
    SkipExtends(run, skip);
    ReplaceMembers(run.units, SkippedUnit(u, skip.reason));
  }

  lemma SkipMatches(ids: seq<UnitId>, v: RunView, run: Run, skip: SkipRecord)
    requires UnitsMatch(v, run) && Fits(run) && Skips(run, skip)
    ensures var v' := ReplayEvent(ids, v, UnitSkipped(skip.unitId, skip.reason));
            v'.status == v.status && UnitsMatch(v', ApplySkip(run, skip))
    ensures Fits(ApplySkip(run, skip))
  {
    hide FindUnit, Decide, UnitWithId, ApplySkip, UnitsMatch, Fits;
    var u := UnitOf(run, skip.unitId);
    UnitInView(v, run, skip.unitId);
    SkipReplaces(run, skip);
    SkipFits(run, skip);
    assert AttemptMap(SkippedUnit(u, skip.reason)) == AttemptMap(u);
    ReplaceKeepsMatch(v, ReplayEvent(ids, v, UnitSkipped(skip.unitId, skip.reason)), run, ApplySkip(run, skip),
      SkippedUnit(u, skip.reason));
  }

  lemma SkipEventsCons(skips: seq<SkipRecord>)
    requires skips != []
    ensures SkipEvents(skips) == [UnitSkipped(skips[0].unitId, skips[0].reason)] + SkipEvents(skips[1..])
  {
    if |skips| > 1 {
      SkipEventsCons(skips[..|skips| - 1]);
      assert skips[..|skips| - 1][1..] == skips[1..][..|skips[1..]| - 1];
    } else {
      assert SkipEvents(skips[..0]) == [] && SkipEvents(skips[1..]) == [];
    }
  }

  lemma {:induction false} SkipsMatch(ids: seq<UnitId>, v: RunView, run: Run, skips: seq<SkipRecord>)
    requires UnitsMatch(v, run) && Fits(run) && LegalSkips(run, skips)
    ensures var v' := ReplayFrom(ids, v, SkipEvents(skips));
            v'.status == v.status && UnitsMatch(v', ApplySkips(run, skips))
    decreases |skips|
  {
    hide FindUnit, Skips, ApplySkip, UnitsMatch, Fits, ReplayEvent;
    if skips != [] {
      var e := UnitSkipped(skips[0].unitId, skips[0].reason);
      SkipMatches(ids, v, run, skips[0]);
      SkipsMatch(ids, ReplayEvent(ids, v, e), ApplySkip(run, skips[0]), skips[1..]);
      SkipEventsCons(skips);
      ReplayAppend(ids, v, [e], SkipEvents(skips[1..]));
      ReplayOne(ids, v, e);
    }
  }

  // ----- restart

  lemma RecoveredStatus(u: UnitState, n: nat)
    requires 1 <= n <= |u.attempts|
    ensures |RecoverUnit(u).attempts| == |u.attempts|
    ensures StatusAt(RecoverUnit(u), n) == if StatusAt(u, n) == RunningAttempt then InterruptedAttempt else StatusAt(u, n)
  {
    assert RecoverUnit(u).attempts[n - 1] == InterruptAttempt(u.attempts[n - 1]);
  }

  lemma RecoveredAttempts(u: UnitState)
    ensures AttemptMap(RecoverUnit(u)) == InterruptedView(AttemptMap(u))
  {
    hide RecoverUnit;
    if u.attempts == [] {
      assert RecoverUnit(u).attempts == [] by {
        NoAttempts(u);
      }
    }
    forall n: nat | 1 <= n <= |u.attempts|
      ensures |RecoverUnit(u).attempts| == |u.attempts|
      ensures StatusAt(RecoverUnit(u), n) == if StatusAt(u, n) == RunningAttempt then InterruptedAttempt else StatusAt(u, n)
    {
      RecoveredStatus(u, n);
    }
    assert u.attempts != [] ==> |RecoverUnit(u).attempts| == |u.attempts| by {
      if u.attempts != [] {
        RecoveredStatus(u, 1);
      }
    }
  }

  lemma NoAttempts(u: UnitState)
    requires u.attempts == []
    ensures RecoverUnit(u).attempts == []
  {
  }

  lemma RecoverUnitMatches(v: UnitView, u: UnitState)
    requires UnitMatches(v, u) && Sound(u)
    ensures UnitMatches(RecoveredView(v), RecoverUnit(u))
  {
    hide AttemptMap, InterruptedView;
    RecoveredAttempts(u);
    if u.attempts != [] {
      RecoveredStatus(u, |u.attempts|);
    }
  }

  lemma RecoverMatches(ids: seq<UnitId>, v: RunView, run: Run)
    requires UnitsMatch(v, run) && Fits(run)
    ensures Matches(ReplayFrom(ids, v, [RunResumed]), RecoverRun(run))
  {
    hide SummarizeProgress, ResolveOutputs, RecoveredView, MapAttempts, UnitMatches, Sound;
    ReplayOne(ids, v, RunResumed);
    MapMembers(run.units, RecoverUnit);
    var v' := ReplayFrom(ids, v, [RunResumed]);
    forall r | r in RecoverRun(run).units
      ensures r.unitId in v'.units && UnitMatches(v'.units[r.unitId], r)
    {
      var u :| u in run.units && r == RecoverUnit(u);
      RecoverUnitMatches(v.units[u.unitId], u);
    }
  }

  // ----- cancellation

  lemma CancelledAt(u: UnitState, n: nat)
    requires 1 <= n <= |u.attempts|
    ensures var c := CancelUnit(u);
            && |c.attempts| == |u.attempts| && c.attempts[n - 1] == CancelAttempt(u.attempts[n - 1])
            && StatusAt(c, n) == if StatusAt(u, n) == RunningAttempt then CanceledAttempt else StatusAt(u, n)
  {
    assert CancelUnit(u).attempts[n - 1] == CancelAttempt(u.attempts[n - 1]);
  }

  lemma CancelledNone(u: UnitState)
    requires u.attempts == []
    ensures CancelUnit(u).attempts == []
  {
  }

  lemma CancelledAttempts(u: UnitState)
    requires Sound(u)
    ensures var n, c := |u.attempts|, CancelUnit(u);
            if AttemptCancelEvent(u, c) == [] then AttemptMap(c) == AttemptMap(u)
            else n > 0 && AttemptCancelEvent(u, c) == [AttemptCanceled(u.unitId, n)] && AttemptMap(c) == AttemptMap(u)[n := CanceledAttempt]
  {
    hide CancelUnit;
    var n, c := |u.attempts|, CancelUnit(u);
    CancelKeepsId(u);
    if n == 0 {
      CancelledNone(u);
    } else {
      CancelledAt(u, n);
      forall k: nat | 1 <= k <= n
        ensures StatusAt(c, k) == if StatusAt(u, k) == RunningAttempt then CanceledAttempt else StatusAt(u, k)
      {
        CancelledAt(u, k);
      }
      assert u.attempts[n - 1].number == n;
    }
  }

  ghost predicate AttemptsCancelledAt(v: RunView, v': RunView, u: UnitState) {
    && u.unitId in v.units && u.unitId in v'.units
    && v'.units[u.unitId] == v.units[u.unitId].(attempts := AttemptMap(CancelUnit(u)))
  }

  // `v'` is `v` with each of these units' attempts canceled as the engine cancels them.
  ghost predicate AttemptsCancelled(v: RunView, v': RunView, units: seq<UnitState>) {
    && v'.status == v.status && v'.units.Keys == v.units.Keys
    && (forall i :: 0 <= i < |units| ==> AttemptsCancelledAt(v, v', units[i]))
    && (forall id :: id in v.units && id !in UnitIds(units) ==> v'.units[id] == v.units[id])
  }

  ghost predicate AttemptsShown(v: RunView, units: seq<UnitState>) {
    forall i :: 0 <= i < |units| ==>
      Sound(units[i]) && units[i].unitId in v.units && v.units[units[i].unitId].attempts == AttemptMap(units[i])
  }

  lemma FrontOf(units: seq<UnitState>)
    requires units != [] && Distinct(UnitIds(units))
    ensures var n := |units| - 1;
            && UnitIds(units[..n]) == UnitIds(units)[..n] && Distinct(UnitIds(units[..n]))
            && units[n].unitId !in UnitIds(units[..n])
            && MapUnits(units, CancelUnit)[..n] == MapUnits(units[..n], CancelUnit)
            && MapUnits(units, CancelUnit)[n] == CancelUnit(units[n])
            && (forall id :: id in UnitIds(units) <==> id in UnitIds(units[..n]) || id == units[n].unitId)
  {
    var n, ids := |units| - 1, UnitIds(units);
    assert ids == ids[..n] + [ids[n]];
  }

  lemma {:induction false} AttemptCancelsReplayed(ids: seq<UnitId>, v: RunView, units: seq<UnitState>)
    requires Distinct(UnitIds(units)) && AttemptsShown(v, units)
    ensures AttemptsCancelled(v, ReplayFrom(ids, v, AttemptCancelEvents(units, MapUnits(units, CancelUnit))), units)
    decreases |units|
  {
    hide Sound, AttemptMap, CancelUnit, AttemptCancelEvent, UnitIds, MapUnits, ReplayEvent;
    if units == [] {
      NoUnits();
    } else {
      var n, u := |units| - 1, units[|units| - 1];
      FrontOf(units);
      AttemptCancelsReplayed(ids, v, units[..n]);
      var front := AttemptCancelEvents(units[..n], MapUnits(units[..n], CancelUnit));
      var v0 := ReplayFrom(ids, v, front);
      var last := AttemptCancelEvent(u, CancelUnit(u));
      ReplayAppend(ids, v, front, last);
      CancelledAttempts(u);
      AttemptCancelReplayed(ids, v0, u);
      CancelledExtends(v, v0, ReplayFrom(ids, v0, last), units);
    }
  }

  lemma NoUnits()
    ensures UnitIds([]) == [] && MapUnits([], CancelUnit) == []
  {
  }

  lemma AttemptCancelReplayed(ids: seq<UnitId>, v: RunView, u: UnitState)
    requires Sound(u) && u.unitId in v.units && v.units[u.unitId].attempts == AttemptMap(u)
    ensures ReplayFrom(ids, v, AttemptCancelEvent(u, CancelUnit(u)))
            == v.(units := v.units[u.unitId := v.units[u.unitId].(attempts := AttemptMap(CancelUnit(u)))])
  {
    hide Sound, AttemptMap, CancelUnit, AttemptCancelEvent;
    CancelledAttempts(u);
    var es := AttemptCancelEvent(u, CancelUnit(u));
    if es == [] {
      assert v.units[u.unitId := v.units[u.unitId]] == v.units;
    } else {
      ReplayOne(ids, v, es[0]);
    }
  }

  lemma CancelledExtends(v: RunView, v0: RunView, v': RunView, units: seq<UnitState>)
    requires units != [] && Distinct(UnitIds(units)) && units[|units| - 1].unitId in v.units
    requires AttemptsCancelled(v, v0, units[..|units| - 1])
    requires var u := units[|units| - 1];
             v' == v0.(units := v0.units[u.unitId := v0.units[u.unitId].(attempts := AttemptMap(CancelUnit(u)))])
    ensures AttemptsCancelled(v, v', units)
  {
    hide AttemptMap, CancelUnit, UnitIds, MapUnits;
    FrontOf(units);
    forall i | 0 <= i < |units|
      ensures AttemptsCancelledAt(v, v', units[i])
    {
      if i < |units| - 1 {
        assert units[..|units| - 1][i] == units[i];
        assert AttemptsCancelledAt(v, v0, units[..|units| - 1][i]);
        IdAt(units[..|units| - 1], i);
      }
    }
  }

  lemma IdAt(units: seq<UnitState>, i: nat)
    requires i < |units|
    ensures units[i].unitId in UnitIds(units)
  {
    assert UnitIds(units)[i] == units[i].unitId;
  }

  function CancelledStatus(v: UnitView, u: UnitState): UnitView {
    if u.status != CancelUnit(u).status then v.(status := Canceled) else v
  }

  ghost predicate UnitCancelledAt(v: RunView, v': RunView, u: UnitState) {
    u.unitId in v.units && u.unitId in v'.units && v'.units[u.unitId] == CancelledStatus(v.units[u.unitId], u)
  }

  // `v'` is `v` with each newly canceled unit shown as canceled.
  ghost predicate UnitsCancelled(v: RunView, v': RunView, units: seq<UnitState>) {
    && v'.status == v.status && v'.units.Keys == v.units.Keys
    && (forall i :: 0 <= i < |units| ==> UnitCancelledAt(v, v', units[i]))
    && (forall id :: id in v.units && id !in UnitIds(units) ==> v'.units[id] == v.units[id])
  }

  lemma UnitCancelReplayed(ids: seq<UnitId>, v: RunView, u: UnitState)
    requires u.unitId in v.units
    ensures ReplayFrom(ids, v, UnitCancelEvent(u, CancelUnit(u)))
            == v.(units := v.units[u.unitId := CancelledStatus(v.units[u.unitId], u)])
  {
    hide MapAttempts;
    var es := UnitCancelEvent(u, CancelUnit(u));
    if es == [] {
      assert v.units[u.unitId := v.units[u.unitId]] == v.units;
    } else {
      ReplayOne(ids, v, es[0]);
    }
  }

  lemma {:induction false} UnitCancelsReplayed(ids: seq<UnitId>, v: RunView, units: seq<UnitState>)
    requires Distinct(UnitIds(units)) && forall i :: 0 <= i < |units| ==> units[i].unitId in v.units
    ensures UnitsCancelled(v, ReplayFrom(ids, v, UnitCancelEvents(units, MapUnits(units, CancelUnit))), units)
    decreases |units|
  {
    hide CancelUnit, UnitCancelEvent, CancelledStatus, UnitIds, MapUnits, ReplayEvent;
    if units == [] {
      NoUnits();
    } else {
      var n, u := |units| - 1, units[|units| - 1];
      FrontOf(units);
      UnitCancelsReplayed(ids, v, units[..n]);
      var front := UnitCancelEvents(units[..n], MapUnits(units[..n], CancelUnit));
      var v0 := ReplayFrom(ids, v, front);
      var last := UnitCancelEvent(u, CancelUnit(u));
      ReplayAppend(ids, v, front, last);
      UnitCancelReplayed(ids, v0, u);
      var v' := ReplayFrom(ids, v0, last);
      forall i | 0 <= i < |units|
        ensures UnitCancelledAt(v, v', units[i])
      {
        if i < n {
          assert units[..n][i] == units[i];
          assert UnitCancelledAt(v, v0, units[..n][i]);
          IdAt(units[..n], i);
        }
      }
    }
  }

  lemma CancelUnitMatches(v: UnitView, u: UnitState)
    requires UnitMatches(v, u) && Sound(u)
    ensures UnitMatches(CancelledStatus(v.(attempts := AttemptMap(CancelUnit(u))), u), CancelUnit(u))
  {
    hide MapAttempts, AttemptMap;
  }

  lemma CancelReplayed(ids: seq<UnitId>, v: RunView, units: seq<UnitState>) returns (v1: RunView, v2: RunView)
    requires Distinct(UnitIds(units)) && AttemptsShown(v, units)
    ensures AttemptsCancelled(v, v1, units) && UnitsCancelled(v1, v2, units)
    ensures var after := MapUnits(units, CancelUnit);
            ReplayFrom(ids, v, AttemptCancelEvents(units, after) + UnitCancelEvents(units, after) + [RunCanceled])
            == v2.(status := CanceledRun)
  {
    hide AttemptMap, CancelUnit, Sound, UnitMatches, CancelledStatus, UnitIds, MapUnits, AttemptCancelEvents,
      UnitCancelEvents, ReplayFrom;
    var after := MapUnits(units, CancelUnit);
    var first, second := AttemptCancelEvents(units, after), UnitCancelEvents(units, after);
    AttemptCancelsReplayed(ids, v, units);
    v1 := ReplayFrom(ids, v, first);
    forall i | 0 <= i < |units|
      ensures units[i].unitId in v1.units
    {
      assert AttemptsCancelledAt(v, v1, units[i]);
    }
    UnitCancelsReplayed(ids, v1, units);
    v2 := ReplayFrom(ids, v1, second);
    ReplayAppend(ids, v, first, second);
    ReplayAppend(ids, v, first + second, [RunCanceled]);
    ReplayOne(ids, v2, RunCanceled);
  }

  lemma CancelMatches(ids: seq<UnitId>, v: RunView, run: Run)
    requires UnitsMatch(v, run) && Fits(run)
    ensures Matches(ReplayFrom(ids, v, CancelEvents(run)), CancelRunState(run))
  {
    hide SummarizeProgress, ResolveOutputs, AttemptMap, CancelUnit, Sound, UnitMatches, CancelledStatus, UnitIds,
      AttemptCancelEvents, UnitCancelEvents, ReplayFrom;
    var units, after := run.units, MapUnits(run.units, CancelUnit);
    forall i | 0 <= i < |units|
      ensures Sound(units[i]) && units[i].unitId in v.units && v.units[units[i].unitId].attempts == AttemptMap(units[i])
    {
      ShownAttempts(v.units[units[i].unitId], units[i]);
    }
    var v1, v2 := CancelReplayed(ids, v, units);
    forall c | c in after
      ensures c.unitId in v2.units && UnitMatches(v2.units[c.unitId], c)
    {
      var i :| 0 <= i < |units| && after[i] == c;
      assert units[i] in run.units && AttemptsCancelledAt(v, v1, units[i]) && UnitCancelledAt(v1, v2, units[i]);
      CancelKeepsId(units[i]);
      CancelUnitMatches(v.units[units[i].unitId], units[i]);
    }
  }

  lemma CancelKeepsId(u: UnitState)
    ensures CancelUnit(u).unitId == u.unitId
  {
  }

  lemma ShownAttempts(v: UnitView, u: UnitState)
    ensures UnitMatches(v, u) ==> v.attempts == AttemptMap(u)
  {
  }

  // ----- every history

  lemma FitsFrom(run: Run, restarts: nat)
    requires UnitsFit(run, restarts)
    ensures Fits(run)
  {
    hide Sound, Bounded, Safe, UnitWithId;
    forall u | u in run.units
      ensures Sound(u)
    {
      assert UnitFits(run, restarts, u);
    }
  }

  lemma SameUnitsMatch(v: RunView, v': RunView, a: Run, b: Run)
    requires UnitsMatch(v, a) && v'.units == v.units && b.units == a.units && b.plan == a.plan
    ensures UnitsMatch(v', b)
  {
    hide UnitMatches;
  }

  lemma StatusStepMatches(ids: seq<UnitId>, v: RunView, w: World, s: Stored, step: Step)
    requires Matches(v, s.run) && Enabled(s, step)
    requires step.Activate? || step.RegisterPayload? || step.Finish? || step.RequestCancel?
    ensures Matches(ReplayFrom(ids, v, EventsAfter(w, s.run, step)), RunAfter(w, s.run, step))
  {
    hide LegalSkips, ApplySkips, RecoverRun, CancelRunState, CompletedRun, CompletionEvents, CancelEvents, SkipEvents,
      FailFast, UnitMatches, SummarizeProgress, ResolveOutputs, FirstWithStatus, FinalizeRun, AllSettled, UnitsMatch;
    OutcomeOf(s.run);
    var es := EventsAfter(w, s.run, step);
    assert es == [es[0]];
    ReplayOne(ids, v, es[0]);
    SameUnitsMatch(v, ReplayFrom(ids, v, es), s.run, RunAfter(w, s.run, step));
  }

  lemma StepMatches(ids: seq<UnitId>, v: RunView, w: World, s: Stored, step: Step)
    requires Matches(v, s.run) && UnitsFit(s.run, Restarts(s.log)) && Enabled(s, step)
    ensures Matches(ReplayFrom(ids, v, EventsAfter(w, s.run, step)), RunAfter(w, s.run, step))
  {
    hide FindUnit, UnitWithId, Decide, UnitsMatch, UnitsFit, Restarts, LegalSkips, ReplayFrom, CompletedRun,
      CompletionEvents, ReplaceUnit, RecoverRun, CancelRunState, CancelEvents, NextAttemptNumber, RunningUnit,
      FinalizeRun, SkipEvents, ApplySkips, Fits, Coherent;
    FitsFrom(s.run, Restarts(s.log));
    match step {
      case SkipUnits(skips) =>
        SkipsMatch(ids, v, s.run, skips);
        SkipsKeepStatus(s.run, skips);
      case MakeReady(id) =>
        MakeReadyMatches(ids, v, s.run, id);
        ReplaceKeepsStatus(s.run, ReadyUnit(UnitOf(s.run, id)));
      case DispatchUnit(id) =>
        DispatchMatches(ids, v, s.run, id);
        ReplaceKeepsStatus(s.run, RunningUnit(UnitOf(s.run, id)));
      case Complete(id, result) =>
        CompleteMatches(ids, v, w, s.run, id, result);
        CompleteReplaces(w, s.run, id, result);
      case WakeUnit(id) =>
        WakeMatches(v, s.run, id);
        ReplaceKeepsStatus(s.run, Woken(UnitOf(s.run, id)));
        NothingReplayed(ids, v);
      case FinishCancel => CancelMatches(ids, v, s.run);
      case Restart => RecoverMatches(ids, v, s.run);
      case _ => StatusStepMatches(ids, v, w, s, step);
    }
  }

  lemma NothingReplayed(ids: seq<UnitId>, v: RunView)
    ensures ReplayFrom(ids, v, []) == v
  {
  }

  lemma ReplaceKeepsStatus(run: Run, next: UnitState)
    ensures ReplaceUnit(run, next).status == run.status
  {
    hide SummarizeProgress, ResolveOutputs, ReplaceIn;
  }

  lemma {:induction false} SkipsKeepStatus(run: Run, skips: seq<SkipRecord>)
    ensures ApplySkips(run, skips).status == run.status && ApplySkips(run, skips).plan == run.plan
    decreases |skips|
  {
    hide FindUnit, SummarizeProgress, ResolveOutputs, ReplaceIn;
    if skips != [] {
      SkipsKeepStatus(ApplySkip(run, skips[0]), skips[1..]);
    }
  }

  lemma ApplyIs(w: World, s: Stored, step: Step)
    requires Enabled(s, step)
    ensures Apply(w, s, step).run.plan == s.run.plan
  {
    hide FindUnit, UnitWithId, Decide, LegalSkips, EventsAfter, SummarizeProgress, ResolveOutputs, ReplaceIn,
      ApplySkips, RunningUnit, CompletedUnit, FirstWithStatus;
    if step.SkipUnits? {
      SkipsKeepStatus(s.run, step.skips);
    }
  }

  lemma {:induction false} PlayedMatches(w: World, a: Stored, steps: seq<Step>, b: Stored)
    requires UnitsFit(a.run, Restarts(a.log)) && Coherent(a.run) && Plays(w, a, steps, b)
    requires Matches(ReplayLog(PlanIds(a.run.plan), a.log), a.run)
    ensures Matches(ReplayLog(PlanIds(b.run.plan), b.log), b.run)
    decreases |steps|
  {
    hide FindUnit, UnitsFit, Coherent, Restarts, SucceededIn, Enabled, Matches, ReplayFrom, EventsAfter, RunAfter;
    if steps != [] {
      var step := steps[0];
      var next := Apply(w, a, step);
      var ids := PlanIds(a.run.plan);
      EnabledUnit(a, step);
      ApplyIs(w, a, step);
      StepFits(w, a, step);
      StepCoherent(w, a, step);
      StepMatches(ids, ReplayLog(ids, a.log), w, a, step);
      ReplayAppend(ids, RunView(QueuedRun, map[]), a.log, EventsAfter(w, a.run, step));
      PlayedMatches(w, next, steps[1..], b);
    }
  }

  lemma CreatedMatches(plan: Plan, runId: RunId, inputs: seq<NamedValue>)
    requires Sensible(plan)
    ensures var s := Created(plan, runId, inputs);
            Matches(ReplayLog(PlanIds(s.run.plan), s.log), s.run)
  {
    hide SummarizeProgress, ResolveOutputs;
    var s := Created(plan, runId, inputs);
    var ids := PlanIds(s.run.plan);
    ReplayOne(ids, RunView(QueuedRun, map[]), RunCreated);
    forall u | u in s.run.units
      ensures u.unitId in ids && AttemptMap(u) == map[] && u.status == Pending
    {
      var i :| 0 <= i < |s.run.units| && s.run.units[i] == u;
      assert ids[i] == u.unitId;
    }
  }

  // The event log is a faithful history: in every reachable state, restarts and cancellation
  // included, replaying the run's events gives its status, every unit's status and every attempt's
  // status, up to the one step that logs nothing.
  lemma LogIsFaithful(w: World, s: Stored)
    requires Reachable(w, s)
    ensures Matches(ReplayLog(PlanIds(s.run.plan), s.log), s.run)
  {
    hide FindUnit, Enabled, Apply, UnitsFit, Coherent, Restarts, InitialRun, Sensible, Plays, Matches, ReplayFrom;
    var plan, runId, inputs, steps :| Sensible(plan) && Plays(w, Created(plan, runId, inputs), steps, s);
    InitialFits(plan, runId, inputs);
    NoRestarts([RunCreated]);
    CreatedMatches(plan, runId, inputs);
    PlayedMatches(w, Created(plan, runId, inputs), steps, s);
  }
}

// Why advancing a run terminates, and why an accepted plan never gets stuck.

module Progress {
  import opened Basics
  import opened Graphs
  import opened Plans
  import opened RunState
  import opened Decision
  import opened SkipFixpoint
  import opened Dispatch
  import opened Semantics
  import opened Preservation
  import opened History

  function AttemptsLeft(pu: PlanUnit, u: UnitState): nat {
    Max(MaxAttempts(pu) - |u.attempts|, 0)
  }

  // How much a unit can still do: nothing once settled, and waking costs less than attempting.
  function Weight(pu: PlanUnit, u: UnitState): nat {
    if Settled(u) then 0
    else if u.nextRetryAt.Some? then 2 * AttemptsLeft(pu, u) + 2
    else 2 * AttemptsLeft(pu, u) + 1
  }

  function Work(pus: seq<PlanUnit>, us: seq<UnitState>): nat
    requires |pus| == |us|
  {
    if us == [] then 0
    else Work(pus[..|us| - 1], us[..|us| - 1]) + Weight(pus[|us| - 1], us[|us| - 1])
  }

  lemma {:induction false} WorkUpdated(pus: seq<PlanUnit>, us: seq<UnitState>, i: nat, next: UnitState)
    requires |pus| == |us| && i < |us|
    ensures Work(pus, us[i := next]) + Weight(pus[i], us[i]) == Work(pus, us) + Weight(pus[i], next)
  {
    hide Weight;
    var n := |us| - 1;
    if i < n {
      WorkUpdated(pus[..n], us[..n], i, next);
      assert us[i := next][..n] == us[..n][i := next];
    } else {
      assert us[i := next][..n] == us[..n];
    }
  }

  ghost function WorkOf(run: Run): nat
    requires Aligned(run)
  {
    assert |UnitIds(run.units)| == |PlanIds(run.plan)|;
    Work(run.plan.units, run.units)
  }

  lemma ReplaceIsUpdate(run: Run, next: UnitState) returns (i: nat)
    requires Aligned(run) && next.unitId in PlanIds(run.plan)
    ensures i < |run.units| == |run.plan.units|
    ensures ReplaceIn(run.units, next) == run.units[i := next]
    ensures FindUnit(run.units, next.unitId) == Some(run.units[i]) && UnitWithId(run.plan, next.unitId) == run.plan.units[i]
  {
    hide FindUnit, UnitWithId;
    assert |UnitIds(run.units)| == |PlanIds(run.plan)|;
    i :| 0 <= i < |run.units| && UnitIds(run.units)[i] == next.unitId;
    FindAt(run.units, i);
    assert PlanIds(run.plan)[i] == run.plan.units[i].Id();
    UnitWithIdAt(run.plan, i);
    forall j | 0 <= j < |run.units| && j != i
      ensures run.units[j].unitId != next.unitId
    {
      assert UnitIds(run.units)[j] != UnitIds(run.units)[i];
    }
  }

  lemma WorkReplaced(a: Run, b: Run, next: UnitState)
    requires Aligned(a) && Aligned(b) && Replaced(a, b, next) && next.unitId in PlanIds(a.plan)
    ensures FindUnit(a.units, next.unitId).Some?
    ensures WorkOf(b) + Weight(UnitWithId(a.plan, next.unitId), FindUnit(a.units, next.unitId).value)
            == WorkOf(a) + Weight(UnitWithId(a.plan, next.unitId), next)
  {
    hide FindUnit, UnitWithId, Weight, ReplaceIn, Work;
    var i := ReplaceIsUpdate(a, next);
    WorkUpdated(a.plan.units, a.units, i, next);
  }

  lemma ExecuteWorks(w: World, run: Run, id: UnitId)
    requires AtRest(run) && id in PlanIds(run.plan) && StateOf(run, id).status == Pending
    ensures var u, pu := StateOf(run, id), UnitWithId(run.plan, id);
            && AtRest(ExecutedRun(w, run, pu, u)) && WorkOf(ExecutedRun(w, run, pu, u)) < WorkOf(run)
  {
    hide FindUnit, UnitWithId, Attempted, DispatchedRun, ExecutedRun, Work, MaxAttempts, AllowsMore;
    var u, pu := StateOf(run, id), UnitWithId(run.plan, id);
    var next := ExecutedRun(w, run, pu, u);
    AtRestUnit(run, id);
    ExecutedReplaces(w, run, pu, u);
    var after := Attempted(w, DispatchedRun(run, u), pu, u);
    AttemptedIs(w, DispatchedRun(run, u), pu, u);
    ReplacedAtRest(run, next, after);
    WorkReplaced(run, next, after);
    if after.nextRetryAt.Some? {
      RetriesWithinLimit(pu, |u.attempts| + 1);
    }
  }

  lemma WakeWorks(run: Run, id: UnitId)
    requires AtRest(run) && id in PlanIds(run.plan) && StateOf(run, id).nextRetryAt.Some?
    ensures var next := ReplaceUnit(run, Woken(StateOf(run, id)));
            AtRest(next) && WorkOf(next) < WorkOf(run) && Replaced(run, next, Woken(StateOf(run, id)))
  {
    hide FindUnit, UnitWithId, Work, MaxAttempts, SummarizeProgress, ResolveOutputs, ReplaceIn;
    var u := StateOf(run, id);
    var next := ReplaceUnit(run, Woken(u));
    AtRestUnit(run, id);
    WokenIsSound(u);
    ReplacedAtRest(run, next, Woken(u));
    WorkReplaced(run, next, Woken(u));
  }

  lemma SkipWorks(run: Run, skip: SkipRecord)
    requires AtRest(run) && Skips(run, skip)
    ensures AtRest(ApplySkip(run, skip)) && WorkOf(ApplySkip(run, skip)) < WorkOf(run)
  {
    hide FindUnit, UnitWithId, Decide, ApplySkip, Work, MaxAttempts, AttemptsLeft;
    var u := StateOf(run, skip.unitId);
    AtRestUnit(run, skip.unitId);
    SkipReplaces(run, skip);
    SkippedIsSound(u, skip.reason);
    ReplacedAtRest(run, ApplySkip(run, skip), SkippedUnit(u, skip.reason));
    WorkReplaced(run, ApplySkip(run, skip), SkippedUnit(u, skip.reason));
  }

  lemma {:induction false} SkipsWork(run: Run, skips: seq<SkipRecord>)
    requires AtRest(run) && LegalSkips(run, skips)
    ensures AtRest(ApplySkips(run, skips)) && WorkOf(ApplySkips(run, skips)) <= WorkOf(run)
    decreases |skips|
  {
    hide FindUnit, Skips, ApplySkip, AtRest, Work;
    if skips != [] {
      SkipWorks(run, skips[0]);
      SkipsWork(ApplySkip(run, skips[0]), skips[1..]);
    }
  }

  lemma {:induction false} SkipsKeepMeaning(w: World, run: Run, skips: seq<SkipRecord>)
    requires Resumable(run) && LegalSkips(run, skips)
    ensures SameMeaning(w, run, ApplySkips(run, skips))
    decreases |skips|
  {
    hide FindUnit, Skips, ApplySkip, AtRest, Accepted;
    if skips != [] {
      SkipKeepsMeaning(w, run, skips[0]);
      SkipsKeepMeaning(w, ApplySkip(run, skips[0]), skips[1..]);
    }
  }

  // ----- choosing the next work

  function ReadyIds(run: Run): seq<UnitId> {
    SortedSelect(run.units, (u: UnitState) => IsReady(run, u.unitId))
  }

  lemma ReadyIdsAre(run: Run)
    requires Aligned(run)
    ensures Distinct(ReadyIds(run)) && Sorting.InOrder(ReadyIds(run))
    ensures forall id :: id in ReadyIds(run) <==> IsReady(run, id)
  {
    hide FindUnit, Decide, UnitWithId, SortedSelect;
    SortedSelectIs(run, (u: UnitState) => IsReady(run, u.unitId));
    forall id
      ensures id in ReadyIds(run) <==> IsReady(run, id)
    {
      FindPlanned(run, id);
    }
  }

  predicate Sooner(a: UnitState, b: UnitState)
    requires a.nextRetryAt.Some? && b.nextRetryAt.Some?
  {
    a.nextRetryAt.value < b.nextRetryAt.value
    || (a.nextRetryAt.value == b.nextRetryAt.value && Sorting.StringLess(a.unitId, b.unitId))
  }

  // The scheduled retry with the earliest time, ids breaking ties.
  function NextRetry(units: seq<UnitState>): (r: Option<UnitState>)
    ensures r.None? <==> forall u :: u in units ==> u.nextRetryAt.None?
    ensures r.Some? ==> r.value in units && r.value.nextRetryAt.Some?
  {
    if units == [] then None
    else
      var front, last := NextRetry(units[..|units| - 1]), units[|units| - 1];
      assert units == units[..|units| - 1] + [last];
      if last.nextRetryAt.Some? && (front.None? || Sooner(last, front.value)) then Some(last) else front
  }

  // No scheduled retry has an earlier time, and none with the same time comes first by its id.
  lemma NextRetryIsEarliest(units: seq<UnitState>, u: UnitState)
    requires u in units && u.nextRetryAt.Some?
    ensures NextRetry(units).Some? && NextRetry(units).value.nextRetryAt.value <= u.nextRetryAt.value
    ensures NextRetry(units).value.nextRetryAt == u.nextRetryAt ==>
              NextRetry(units).value.unitId == u.unitId || Sorting.Precedes(NextRetry(units).value.unitId, u.unitId)
  {
    NoneSooner(units, u);
    Sorting.StringOrder();
    Sorting.StringLessMeans(NextRetry(units).value.unitId, u.unitId);
  }

  lemma {:induction false} NoneSooner(units: seq<UnitState>, u: UnitState)
    requires u in units && u.nextRetryAt.Some?
    ensures NextRetry(units).Some? && !Sooner(u, NextRetry(units).value)
  {
    var front, last := units[..|units| - 1], units[|units| - 1];
    assert units == front + [last];
    Sorting.StringOrder();
    if u in front {
      NoneSooner(front, u);
    }
  }

  // The exit of the loop with units left over: nothing to skip, nothing ready, nothing to wake.
  ghost predicate Stuck(run: Run) {
    && NothingToSkip(run) && !AllSettled(run)
    && (forall id :: !IsReady(run, id))
    && forall u :: u in run.units ==> u.nextRetryAt.None?
  }

  // Descending along unsettled dependencies ends at a unit that is not left waiting.
  lemma {:induction false} UnsettledLeadsToDecided(run: Run, id: UnitId) returns (found: UnitId)
    requires Resumable(run) && id in PlanIds(run.plan) && !Settled(StateOf(run, id))
    requires forall u :: u in run.units ==> u.nextRetryAt.None?
    ensures found in PlanIds(run.plan) && IsPending(run, found) && !Decide(run, UnitWithId(run.plan, found)).Waiting?
    decreases Rank(DependencyGraph(run.plan), id)
  {
    hide FindUnit, UnitWithId, Decide, Rank, Settled, Sound, Accepted;
    var pu := UnitWithId(run.plan, id);
    AtRestUnit(run, id);
    if d :| d in pu.dependencies && !(d in PlanIds(run.plan) && Settled(StateOf(run, d))) {
      DependenciesDescend(run.plan, id, d);
      found := UnsettledLeadsToDecided(run, d);
    } else {
      forall d | d in pu.dependencies
        ensures FindUnit(run.units, d).Some? && Settled(FindUnit(run.units, d).value)
      {
        assert d in PlanIds(run.plan) && Settled(StateOf(run, d));
      }
      PlanUnitSelfContained(run.plan, id);
      SettledNeverWaits(run, pu);
      UnsettledIsPending(StateOf(run, id));
      found := id;
    }
  }

  lemma UnsettledIsPending(u: UnitState)
    requires Sound(u) && !InFlight(u) && !Settled(u) && u.nextRetryAt.None?
    ensures u.status == Pending
  {
  }

  lemma SomethingToDo(run: Run)
    requires Resumable(run) && !AllSettled(run)
    requires forall u :: u in run.units ==> u.nextRetryAt.None?
    ensures !NothingToSkip(run) || exists id :: IsReady(run, id)
  {
    hide FindUnit, UnitWithId, Decide, Settled, Accepted, Sound;
    var u :| u in run.units && !Settled(u);
    FindMember(run, u);
    var id := UnsettledLeadsToDecided(run, u.unitId);
    var decision := Decide(run, UnitWithId(run.plan, id));
    if decision.Skip? {
      assert Skips(run, SkipRecord(id, decision.reason));
    } else {
      assert IsReady(run, id);
    }
  }

  // A resumable run of an accepted plan is never stuck.
  lemma NeverStuck(run: Run)
    requires Resumable(run)
    ensures !Stuck(run)
  {
    hide FindUnit, UnitWithId, Decide, Settled, Accepted, Sound, IsReady, Skips;
    if !AllSettled(run) && forall u :: u in run.units ==> u.nextRetryAt.None? {
      SomethingToDo(run);
    }
  }
}

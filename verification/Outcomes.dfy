// Reading the result of an advanced run without reference to the loop that produced it.

module Outcomes {
  import opened Basics
  import opened Graphs
  import opened Plans
  import opened RunState
  import opened Decision
  import opened SkipFixpoint
  import opened Dispatch
  import opened Semantics
  import opened Preservation
  import opened History
  import opened Lifecycle
  import opened Engine

  function OutcomeOfAttempt(w: World, run: Run, pu: PlanUnit, n: nat): Outcome {
    AttemptResult(w, run, pu, n).outcome
  }

  // Attempt n of the unit failed, and some policy allows another.
  ghost predicate FailsAndRetries(w: World, run: Run, pu: PlanUnit, r: UnitState, n: nat) {
    && OutcomeOfAttempt(w, run, pu, n) != OutcomeSucceeded && OutcomeOfAttempt(w, run, pu, n) != OutcomeTimedOut
    && AllowsMore(pu, n)
    && 1 <= n <= |r.attempts| && r.attempts[n - 1].status == FailedAttempt
  }

  // Attempts after the first `done` ones: all but the last failed and some policy allows another, and
  // the last one's outcome is the unit's; a unit fails only when no policy allows a further attempt.
  ghost predicate FollowsOracle(w: World, run: Run, pu: PlanUnit, done: nat, r: UnitState) {
    var k := |r.attempts|;
    && done < k
    && (forall n :: done < n < k ==> FailsAndRetries(w, run, pu, r, n))
    && EndsAs(OutcomeOfAttempt(w, run, pu, k), pu, r)
  }

  // How a unit stands after its last attempt had this outcome.
  ghost predicate EndsAs(outcome: Outcome, pu: PlanUnit, r: UnitState)
    requires r.attempts != []
  {
    var last := r.attempts[|r.attempts| - 1].status;
    match outcome
    case OutcomeSucceeded => r.status == Succeeded && last == SucceededAttempt
    case OutcomeTimedOut => r.status == TimedOut && last == TimedOutAttempt
    case _ => r.status == Failed && last == FailedAttempt && !AllowsMore(pu, |r.attempts|)
  }

  lemma AttemptedStatus(w: World, view: Run, pu: PlanUnit, u: UnitState)
    requires Sound(u) && u.status == Pending
    ensures var after, n := Attempted(w, view, pu, u), |u.attempts| + 1;
            && |after.attempts| == n
            && match OutcomeOfAttempt(w, view, pu, n)
               case OutcomeSucceeded => after.status == Succeeded && after.attempts[n - 1].status == SucceededAttempt
               case OutcomeTimedOut => after.status == TimedOut && after.attempts[n - 1].status == TimedOutAttempt
               case _ => after.status == Failed && after.attempts[n - 1].status == FailedAttempt
  {
    hide RetriesAfter, AttemptIndex, DeclaredOutputs, ToFailure, AttemptResult, NextAttemptNumber, RunningUnit;
    NumberedNext(u.attempts);
    RunningUnitIs(ReadyUnit(u));
    NumberedIndex(RunningUnit(ReadyUnit(u)).attempts, |u.attempts| + 1);
  }

  lemma {:induction false} AllAttemptsFollow(w: World, view: Run, pu: PlanUnit, u: UnitState)
    requires Sound(u) && u.status == Pending
    ensures FollowsOracle(w, view, pu, |u.attempts|, AllAttempts(w, view, pu, u))
    ensures |AllAttempts(w, view, pu, u).attempts| > |u.attempts|
    ensures AllAttempts(w, view, pu, u).attempts[..|u.attempts|] == u.attempts
    decreases MaxAttempts(pu) - |u.attempts|
  {
    hide Attempted, AttemptResult, Sound, AllowsMore;
    AttemptedStatus(w, view, pu, u);
    AttemptedIs(w, view, pu, u);
    var after, k := Attempted(w, view, pu, u), |u.attempts|;
    if after.nextRetryAt.Some? {
      assert Sound(Woken(after)) && Woken(after).status == Pending by {
        WokenIsSound(after);
      }
      RetriesWithinLimit(pu, k + 1);
      AllAttemptsFollow(w, view, pu, Woken(after));
      var r := AllAttempts(w, view, pu, Woken(after));
      assert AllAttempts(w, view, pu, u) == r;
      assert r.attempts[..k + 1][..k] == r.attempts[..k] && r.attempts[k] == r.attempts[..k + 1][k];
      assert r.attempts[k] == after.attempts[k];
      forall n | k < n < |r.attempts|
        ensures FailsAndRetries(w, view, pu, r, n)
      {
        assert n == k + 1 || FailsAndRetries(w, view, pu, r, n);
      }
    }
  }

  // The local equation of one unit of a finished run: it was skipped for the reason its
  // dependencies and conditions give in the finished run itself, or its attempts follow the
  // executor's answers on the inputs the finished run holds.
  ghost predicate Solves(w: World, r: Run, pu: PlanUnit, done: nat, u: UnitState) {
    match Decide(r, pu)
    case Skip(reason) => u.status == Skipped && u.skipReason == Some(reason) && |u.attempts| == done
    case Waiting => false
    case ReadyToRun => FollowsOracle(w, r, pu, done, u)
  }

  lemma OracleLocal(w: World, a: Run, b: Run, pu: PlanUnit, done: nat, u: UnitState)
    requires SelfContained(pu) && AgreeOn(a, b, pu.dependencies) && a.runId == b.runId
    requires FollowsOracle(w, a, pu, done, u)
    ensures FollowsOracle(w, b, pu, done, u)
  {
    hide FindUnit, ResolveInputs, AllowsMore;
    InputsLocal(a, b, pu, pu.declaration.inputs);
    forall n
      ensures OutcomeOfAttempt(w, a, pu, n) == OutcomeOfAttempt(w, b, pu, n)
    {
    }
    forall n | done < n < |u.attempts|
      ensures FailsAndRetries(w, b, pu, u, n)
    {
      assert FailsAndRetries(w, a, pu, u, n);
    }
  }

  lemma ResolvedSolves(w: World, view: Run, pu: PlanUnit, u: UnitState)
    requires Sound(u) && u.status == Pending && !Decide(view, pu).Waiting?
    ensures Solves(w, view, pu, |u.attempts|, Resolved(w, view, pu, u))
  {
    hide Decide, FollowsOracle, Sound;
    if Decide(view, pu) == ReadyToRun {
      AllAttemptsFollow(w, view, pu, u);
    }
  }

  // The final run shows the states its own meaning was computed from.
  lemma FinalView(w: World, initial: Run, r: Run, id: UnitId)
    requires Resumable(initial) && CarriedOut(w, initial, r) && id in PlanIds(r.plan)
    ensures var pu := UnitWithId(r.plan, id);
            && AgreeOn(DependencyView(w, initial, id), r, pu.dependencies)
            && Decide(DependencyView(w, initial, id), pu) == Decide(r, pu) && !Decide(r, pu).Waiting?
  {
    hide FindUnit, UnitWithId, Decide, AllSettled, FinalizeRun, Finished, Sound, InFlight, Settled, Accepted;
    var pu, view := UnitWithId(r.plan, id), DependencyView(w, initial, id);
    forall d | d in pu.dependencies
      ensures FindUnit(view.units, d) == FindUnit(r.units, d) && FindUnit(r.units, d).Some? && Settled(FindUnit(r.units, d).value)
    {
      ViewShows(w, initial, id, d);
      assert StateOf(r, d) == Meaning(w, initial, d);
    }
    PlanUnitSelfContained(r.plan, id);
    DecideLocal(view, r, pu);
    SettledNeverWaits(r, pu);
  }

  // Every unit of an advanced run of an accepted plan solves its local equation, so the result can
  // be read off the plan and the executor's answers alone.
  lemma FinalStateSolves(w: World, initial: Run, r: Run, id: UnitId)
    requires Resumable(initial) && CarriedOut(w, initial, r) && id in PlanIds(r.plan)
    ensures if Settled(StateOf(initial, id)) then StateOf(r, id) == StateOf(initial, id)
            else Solves(w, r, UnitWithId(r.plan, id), |StateOf(initial, id).attempts|, StateOf(r, id))
  {
    hide FindUnit, UnitWithId, Decide, AllSettled, FinalizeRun, Finished, Sound, InFlight, Settled, Accepted, Resolved,
      FollowsOracle;
    var pu, view, u := UnitWithId(r.plan, id), DependencyView(w, initial, id), StateOf(initial, id);
    MeaningIs(w, initial, id);
    if !Settled(u) {
      FinalView(w, initial, r, id);
      ResolvedSolves(w, view, pu, Awake(u));
      PlanUnitSelfContained(r.plan, id);
      if Decide(r, pu) == ReadyToRun {
        OracleLocal(w, view, r, pu, |Awake(u).attempts|, StateOf(r, id));
      }
    }
  }

  // ----- failure propagation in plans without conditions

  ghost predicate NoConditions(plan: Plan) {
    forall pu :: pu in plan.units ==> pu.declaration.conditions == []
  }

  // A run that has been activated and nothing else.
  ghost predicate Untouched(run: Run) {
    run.status == RunningRun && Resumable(run) && forall u :: u in run.units ==> u.status == Pending && u.attempts == []
  }

  ghost predicate StatusIn(r: Run, id: UnitId, status: UnitStatus) {
    FindUnit(r.units, id).Some? && FindUnit(r.units, id).value.status == status
  }

  ghost predicate Broke(r: Run, id: UnitId) {
    StatusIn(r, id, Failed) || StatusIn(r, id, TimedOut)
  }

  lemma NoConditionsDecision(r: Run, pu: PlanUnit)
    requires pu.declaration.conditions == []
    requires forall d :: d in pu.dependencies ==> FindUnit(r.units, d).Some? && Settled(FindUnit(r.units, d).value)
    ensures Decide(r, pu).Skip? <==> exists d :: d in pu.dependencies && !StatusIn(r, d, Succeeded)
    ensures !Decide(r, pu).Waiting?
  {
    hide FindUnit;
    FirstBlockingMeans(r.units, pu, pu.dependencies);
  }

  // A unit gets all the attempts its policies allow: it ends failed only when no policy allows
  // another, and in a first process only after exactly as many failed attempts as the most generous
  // policy allows, or one without a policy.
  lemma FailsOnlyWhenExhausted(w: World, initial: Run, r: Run, id: UnitId)
    requires Resumable(initial) && CarriedOut(w, initial, r) && id in PlanIds(r.plan)
    requires !Settled(StateOf(initial, id)) && StateOf(r, id).status == Failed
    ensures !AllowsMore(UnitWithId(r.plan, id), |StateOf(r, id).attempts|)
    ensures StateOf(initial, id).attempts == [] ==>
              && LargestLimit(UnitWithId(r.plan, id), |StateOf(r, id).attempts|)
              && forall i :: 0 <= i < |StateOf(r, id).attempts| ==> StateOf(r, id).attempts[i].status == FailedAttempt
  {
    hide FindUnit, UnitWithId, Decide, CarriedOut, Accepted, AtRest, AllowsMore, LargestLimit;
    SamePlanAs(w, initial, r);
    FinalStateSolves(w, initial, r, id);
    var u, pu, done := StateOf(r, id), UnitWithId(r.plan, id), |StateOf(initial, id).attempts|;
    assert FollowsOracle(w, r, pu, done, u);
    var k := |u.attempts|;
    assert EndsAs(OutcomeOfAttempt(w, r, pu, k), pu, u);
    if done == 0 {
      assert k > 1 ==> FailsAndRetries(w, r, pu, u, k - 1);
      LimitReached(pu, k);
      forall i | 0 <= i < k
        ensures u.attempts[i].status == FailedAttempt
      {
        assert i < k - 1 ==> FailsAndRetries(w, r, pu, u, i + 1);
      }
    }
  }

  lemma LimitReached(pu: PlanUnit, k: nat)
    requires k >= 1 && !AllowsMore(pu, k) && (k > 1 ==> AllowsMore(pu, k - 1))
    ensures LargestLimit(pu, k)
  {
    if m: nat :| RetryPolicy(m) in pu.declaration.policies && m > k {
      assert AllowsMore(pu, k);
    }
  }

  lemma SamePlanAs(w: World, initial: Run, r: Run)
    requires Resumable(initial) && CarriedOut(w, initial, r)
    ensures r.plan == initial.plan && Aligned(r) && Aligned(initial) && Accepted(r.plan)
  {
    hide Accepted, FinalizeRun, AllSettled, Meaning, Sound, InFlight;
  }

  // In a finished run of a plan without conditions: a unit is skipped exactly when some dependency
  // did not succeed, and otherwise it was attempted.
  lemma SkippedIffBlocked(w: World, initial: Run, r: Run, id: UnitId)
    requires Untouched(initial) && NoConditions(initial.plan) && CarriedOut(w, initial, r)
    requires id in PlanIds(r.plan)
    ensures StatusIn(r, id, Skipped) <==> exists d :: d in UnitWithId(r.plan, id).dependencies && !StatusIn(r, d, Succeeded)
    ensures !StatusIn(r, id, Skipped) ==> StateOf(r, id).attempts != []
    ensures StatusIn(r, id, Skipped) || StatusIn(r, id, Succeeded) || Broke(r, id)
  {
    hide FindUnit, UnitWithId, Decide, AllSettled, FinalizeRun, Sound, InFlight, Accepted, OutcomeOfAttempt;
    var pu := UnitWithId(r.plan, id);
    FinalStateSolves(w, initial, r, id);
    forall d | d in pu.dependencies
      ensures FindUnit(r.units, d).Some? && Settled(FindUnit(r.units, d).value)
    {
      DependenciesDescend(r.plan, id, d);
      assert StateOf(r, d) == Meaning(w, initial, d);
    }
    NoConditionsDecision(r, pu);
    assert StateOf(initial, id).status == Pending;
  }

  lemma {:induction false} SkippedHasBrokenAncestor(w: World, initial: Run, r: Run, id: UnitId) returns (p: seq<UnitId>)
    requires Untouched(initial) && NoConditions(initial.plan) && CarriedOut(w, initial, r)
    requires id in PlanIds(r.plan) && StatusIn(r, id, Skipped)
    ensures IsPath(DependencyGraph(r.plan), p) && |p| >= 2 && p[0] == id && Broke(r, p[|p| - 1])
    decreases Rank(DependencyGraph(r.plan), id)
  {
    hide FindUnit, UnitWithId, Rank, CarriedOut, Untouched, Accepted, NoConditions, StatusIn;
    SkippedIffBlocked(w, initial, r, id);
    SamePlan(w, initial, r);
    var d :| d in UnitWithId(r.plan, id).dependencies && !StatusIn(r, d, Succeeded);
    DependenciesDescend(r.plan, id, d);
    SkippedIffBlocked(w, initial, r, d);
    if Broke(r, d) {
      p := [id, d];
    } else {
      var q := SkippedHasBrokenAncestor(w, initial, r, d);
      p := [id] + q;
    }
  }

  lemma SamePlan(w: World, initial: Run, r: Run)
    requires Untouched(initial) && CarriedOut(w, initial, r)
    ensures r.plan == initial.plan && Accepted(r.plan)
  {
    hide Accepted, AtRest, FinalizeRun, AllSettled, Meaning;
  }

  lemma {:induction false} BrokenAncestorSkips(w: World, initial: Run, r: Run, p: seq<UnitId>)
    requires Untouched(initial) && NoConditions(initial.plan) && CarriedOut(w, initial, r)
    requires IsPath(DependencyGraph(r.plan), p) && |p| >= 2 && Broke(r, p[|p| - 1])
    ensures p[0] in PlanIds(r.plan) && StatusIn(r, p[0], Skipped)
    decreases |p|
  {
    hide FindUnit, UnitWithId, Rank, CarriedOut, Untouched, Accepted, NoConditions;
    var g := DependencyGraph(r.plan);
    assert p[0] in g && p[1] in g[p[0]];
    if |p| > 2 {
      PathSuffix(g, p, 1);
      BrokenAncestorSkips(w, initial, r, p[1..]);
    }
    assert !StatusIn(r, p[1], Succeeded);
    SkippedIffBlocked(w, initial, r, p[0]);
  }

  // Failure propagation in closed form: the skipped units are exactly the transitive dependents of
  // failed and timed-out units; every other unit was attempted.
  lemma FailurePropagation(w: World, initial: Run, r: Run, id: UnitId)
    requires Untouched(initial) && NoConditions(initial.plan) && CarriedOut(w, initial, r)
    requires id in PlanIds(r.plan)
    ensures StatusIn(r, id, Skipped) <==>
            exists p :: IsPath(DependencyGraph(r.plan), p) && |p| >= 2 && p[0] == id && Broke(r, p[|p| - 1])
    ensures !StatusIn(r, id, Skipped) ==> StateOf(r, id).attempts != []
  {
    hide FindUnit, UnitWithId, Rank, CarriedOut, Untouched, Accepted, NoConditions, StatusIn;
    SkippedIffBlocked(w, initial, r, id);
    if StatusIn(r, id, Skipped) {
      var p := SkippedHasBrokenAncestor(w, initial, r, id);
    }
    if p :| IsPath(DependencyGraph(r.plan), p) && |p| >= 2 && p[0] == id && Broke(r, p[|p| - 1]) {
      BrokenAncestorSkips(w, initial, r, p);
    }
  }
}

// What a restart and a cancellation make of a stored run, unit by unit and attempt by attempt.

module Recovery {
  import opened Basics
  import opened Plans
  import opened RunState
  import opened Decision
  import opened SkipFixpoint
  import opened Dispatch
  import opened Preservation
  import opened History
  import opened Invariants
  import opened Lifecycle

  // The attempts with their running one, if any, in this status instead.
  ghost predicate StopsAttempts(before: seq<Attempt>, after: seq<Attempt>, status: AttemptStatus) {
    |after| == |before| && forall i :: 0 <= i < |before| ==>
      after[i] == if before[i].status == RunningAttempt then before[i].(status := status) else before[i]
  }

  // A unit over a restart: succeeded, failed, skipped and canceled ones stay exactly as they are. Any
  // other is pending again without failure, skip reason and outputs, and its running attempt was
  // interrupted.
  ghost predicate Recovers(u: UnitState, v: UnitState) {
    if u.status == Succeeded || u.status == Failed || u.status == Skipped || u.status == Canceled then v == u
    else
      && v.status == Pending && v.failure == None && v.skipReason == None && v.outputs == []
      && StopsAttempts(u.attempts, v.attempts, InterruptedAttempt)
      && v.unitId == u.unitId && v.nextRetryAt == u.nextRetryAt && v.logs == u.logs && v.artifacts == u.artifacts
  }

  // A unit over a cancellation: one that ended stays exactly as it is. Any other is canceled without
  // failure and skip reason, and its running attempt with it.
  ghost predicate Cancels(u: UnitState, v: UnitState) {
    if u.status == Succeeded || u.status == Failed || u.status == TimedOut || u.status == Skipped || u.status == Canceled then v == u
    else
      && v.status == Canceled && v.failure == None && v.skipReason == None
      && StopsAttempts(u.attempts, v.attempts, CanceledAttempt)
      && v.unitId == u.unitId && v.nextRetryAt == u.nextRetryAt && v.outputs == u.outputs
      && v.logs == u.logs && v.artifacts == u.artifacts
  }

  lemma AttemptsStop(attempts: seq<Attempt>)
    ensures StopsAttempts(attempts, MapAttempts(attempts, InterruptAttempt), InterruptedAttempt)
    ensures StopsAttempts(attempts, MapAttempts(attempts, CancelAttempt), CanceledAttempt)
  {
    forall i | 0 <= i < |attempts|
      ensures MapAttempts(attempts, InterruptAttempt)[i] == InterruptAttempt(attempts[i])
      ensures MapAttempts(attempts, CancelAttempt)[i] == CancelAttempt(attempts[i])
    {
    }
  }

  lemma NothingStops(before: seq<Attempt>, after: seq<Attempt>, status: AttemptStatus)
    requires StopsAttempts(before, after, status)
    requires forall i :: 0 <= i < |before| ==> before[i].status != RunningAttempt
    ensures after == before
  {
  }

  lemma UnitRecovers(u: UnitState)
    requires Sound(u)
    ensures Recovers(u, RecoverUnit(u)) && Cancels(u, CancelUnit(u))
  {
    hide MapAttempts, StopsAttempts;
    AttemptsStop(u.attempts);
    if u.status != Running {
      NothingStops(u.attempts, MapAttempts(u.attempts, InterruptAttempt), InterruptedAttempt);
      NothingStops(u.attempts, MapAttempts(u.attempts, CancelAttempt), CanceledAttempt);
    }
  }

  // What stays of a run when its units are replaced: everything but the summaries of the units.
  ghost predicate KeepsRecord(a: Run, b: Run) {
    a.runId == b.runId && a.plan == b.plan && a.inputs == b.inputs && a.logs == b.logs && a.artifacts == b.artifacts
  }

  // A crash at any point, then recovery: the run is running without a failure and each unit recovers.
  lemma RecoveryMeans(w: World, s: Stored, i: nat)
    requires Reachable(w, s) && i < |s.run.units|
    ensures var r := RecoverRun(s.run);
            && r.status == RunningRun && r.failure == None && KeepsRecord(s.run, r)
            && |r.units| == |s.run.units| && Recovers(s.run.units[i], r.units[i])
  {
    hide Reachable, UnitsFit, RecoverUnit, SummarizeProgress, ResolveOutputs, Recovers, Sound;
    SoundAt(w, s, i);
    UnitRecovers(s.run.units[i]);
  }

  // A cancellation at any point: the run is canceled without a failure and each unit is canceled
  // unless it ended before.
  lemma CancellationMeans(w: World, s: Stored, i: nat)
    requires Reachable(w, s) && i < |s.run.units|
    ensures var r := CancelRunState(s.run);
            && r.status == CanceledRun && r.failure == None && KeepsRecord(s.run, r)
            && |r.units| == |s.run.units| && Cancels(s.run.units[i], r.units[i])
  {
    hide Reachable, UnitsFit, CancelUnit, SummarizeProgress, ResolveOutputs, Cancels, Sound;
    SoundAt(w, s, i);
    UnitRecovers(s.run.units[i]);
  }

  lemma SoundAt(w: World, s: Stored, i: nat)
    requires Reachable(w, s) && i < |s.run.units|
    ensures Sound(s.run.units[i])
  {
    hide Reachable, Sound, Bounded, Safe, UnitWithId, Restarts, Coherent, FindUnit;
    ReachableFits(w, s);
    assert UnitFits(s.run, Restarts(s.log), s.run.units[i]);
  }
}

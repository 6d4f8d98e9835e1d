// Payloads are marked missing between engine steps: while references name the attempt that
// registered them, all payload lists stay in agreement.

module Marking {
  import opened Basics
  import opened Plans
  import opened RunState
  import opened Decision
  import opened SkipFixpoint
  import opened Dispatch
  import opened Preservation
  import opened History
  import opened Invariants
  import opened Lifecycle
  import opened PayloadLevels

  // The unit and number of the attempt a reference names.
  type Owner = string -> (UnitId, nat)

  datatype Change =
    | Advance(step: Step)
    | MarkArtifact(ref: string)
    | MarkLog(ref: string)
    | MarkPayloads

  // Every entry names this attempt, and no two different entries share a reference.
  ghost predicate OwnedBy(owner: Owner, id: UnitId, number: nat, list: seq<Payload>) {
    RefsAgree(list) && forall p :: p in list ==> owner(p.ref) == (id, number)
  }

  ghost predicate UnitOwned(kind: Kind, owner: Owner, u: UnitState) {
    forall i :: 0 <= i < |u.attempts| ==> OwnedBy(owner, u.unitId, i + 1, OfAttempt(kind, u.attempts[i]))
  }

  ghost predicate AllOwned(kind: Kind, owner: Owner, run: Run) {
    forall u :: u in run.units ==> UnitOwned(kind, owner, u)
  }

  // What an attempt reports names that attempt.
  ghost predicate NamesAttempt(owner: Owner, run: Run, step: Step) {
    step.Complete? && FindUnit(run.units, step.id).Some? ==>
      && OwnedBy(owner, step.id, |UnitOf(run, step.id).attempts|, step.result.logs)
      && OwnedBy(owner, step.id, |UnitOf(run, step.id).attempts|, step.result.artifacts)
  }

  ghost predicate Permitted(owner: Owner, s: Stored, change: Change) {
    change.Advance? ==> Enabled(s, change.step) && NamesAttempt(owner, s.run, change.step)
  }

  ghost function Changed(w: World, owner: Owner, s: Stored, change: Change): Stored
    requires Permitted(owner, s, change)
  {
    match change
    case Advance(step) => Apply(w, s, step)
    case MarkArtifact(ref) => s.(run := MarkArtifactUnavailable(s.run, ref))
    case MarkLog(ref) => s.(run := MarkLogUnavailable(s.run, ref))
    case MarkPayloads => s.(run := MarkRunPayloadsUnavailable(s.run))
  }

  ghost predicate Changes(w: World, owner: Owner, a: Stored, changes: seq<Change>, b: Stored)
    decreases |changes|
  {
    if changes == [] then a == b
    else Permitted(owner, a, changes[0]) && Changes(w, owner, Changed(w, owner, a, changes[0]), changes[1..], b)
  }

  // ----- owned references agree

  lemma {:induction false} InSomeAttempt(kind: Kind, attempts: seq<Attempt>, p: Payload) returns (i: nat)
    requires p in OfAttempts(kind, attempts)
    ensures i < |attempts| && p in OfAttempt(kind, attempts[i])
  {
    hide OfAttempt;
    var n := |attempts| - 1;
    if p in OfAttempt(kind, attempts[n]) {
      i := n;
    } else {
      i := InSomeAttempt(kind, attempts[..n], p);
    }
  }

  lemma {:induction false} InSomeUnit(kind: Kind, units: seq<UnitState>, p: Payload) returns (u: UnitState)
    requires p in OfUnits(kind, units)
    ensures u in units && p in OfUnit(kind, u)
  {
    hide OfUnit;
    var n := |units| - 1;
    if p in OfUnit(kind, units[n]) {
      u := units[n];
    } else {
      u := InSomeUnit(kind, units[..n], p);
    }
  }

  lemma InRun(kind: Kind, owner: Owner, run: Run, p: Payload) returns (u: UnitState, i: nat)
    requires LevelsAgree(kind, run) && AllOwned(kind, owner, run) && p in OfRun(kind, run)
    ensures u in run.units && i < |u.attempts| && p in OfAttempt(kind, u.attempts[i])
    ensures owner(p.ref) == (u.unitId, i + 1) && RefsAgree(OfAttempt(kind, u.attempts[i]))
  {
    hide OfUnit, OfAttempt, OfRun, OfUnits, OfAttempts, RefsAgree;
    assert p in multiset(OfRun(kind, run));
    assert p in OfUnits(kind, run.units);
    u := InSomeUnit(kind, run.units, p);
    assert UnitLevel(kind, u) && UnitOwned(kind, owner, u);
    i := InSomeAttempt(kind, u.attempts, p);
  }

  lemma OwnedAgree(kind: Kind, owner: Owner, run: Run)
    requires Aligned(run) && LevelsAgree(kind, run) && AllOwned(kind, owner, run)
    ensures RefsAgree(OfRun(kind, run))
  {
    hide OfAttempt, OfRun, LevelsAgree, AllOwned, Aligned;
    forall p, q | p in OfRun(kind, run) && q in OfRun(kind, run) && p.ref == q.ref
      ensures p == q
    {
      var u, i := InRun(kind, owner, run, p);
      var v, j := InRun(kind, owner, run, q);
      FindMember(run, u);
      FindMember(run, v);
    }
  }

  // ----- engine steps

  lemma ReplaceKeepsOwned(kind: Kind, owner: Owner, a: Run, b: Run, next: UnitState)
    requires AllOwned(kind, owner, a) && Replaced(a, b, next) && UnitOwned(kind, owner, next)
    ensures AllOwned(kind, owner, b)
  {
    hide UnitOwned, ReplaceIn;
    ReplaceMembers(a.units, next);
  }

  lemma SameAttemptsOwned(kind: Kind, owner: Owner, u: UnitState, v: UnitState)
    requires UnitOwned(kind, owner, u) && v.unitId == u.unitId && v.attempts == u.attempts
    ensures UnitOwned(kind, owner, v)
  {
    hide OfAttempt, OwnedBy;
  }

  lemma RunningOwned(kind: Kind, owner: Owner, u: UnitState)
    requires UnitOwned(kind, owner, u) && Numbered(u.attempts)
    ensures UnitOwned(kind, owner, RunningUnit(u))
  {
    hide RunningUnit;
    RunningUnitIs(u);
  }

  lemma CompletedOwned(kind: Kind, owner: Owner, w: World, runId: RunId, pu: PlanUnit, u: UnitState, result: ExecutorResult)
    requires UnitOwned(kind, owner, u) && Numbered(u.attempts) && u.attempts != []
    requires OwnedBy(owner, u.unitId, |u.attempts|, ResultPayloads(kind, result))
    ensures UnitOwned(kind, owner, CompletedUnit(w, runId, pu, u, |u.attempts|, result))
  {
    hide CompletedUnit, OwnedBy;
    var c, n := CompletedUnit(w, runId, pu, u, |u.attempts|, result), |u.attempts|;
    CompletedPayloads(w, runId, pu, u, result);
    CompletedUnitIs(w, runId, pu, u, result);
    forall i | 0 <= i < n
      ensures OwnedBy(owner, c.unitId, i + 1, OfAttempt(kind, c.attempts[i]))
    {
      assert i < n - 1 ==> c.attempts[i] == c.attempts[..n - 1][i] == u.attempts[..n - 1][i] == u.attempts[i];
    }
  }

  lemma MappedOwned(kind: Kind, owner: Owner, u: UnitState)
    requires UnitOwned(kind, owner, u)
    ensures UnitOwned(kind, owner, RecoverUnit(u)) && UnitOwned(kind, owner, CancelUnit(u))
  {
    hide OwnedBy;
    forall i | 0 <= i < |u.attempts|
      ensures OfAttempt(kind, RecoverUnit(u).attempts[i]) == OfAttempt(kind, u.attempts[i])
      ensures OfAttempt(kind, CancelUnit(u).attempts[i]) == OfAttempt(kind, u.attempts[i])
    {
      assert RecoverUnit(u).attempts[i] == InterruptAttempt(u.attempts[i]);
      assert CancelUnit(u).attempts[i] == CancelAttempt(u.attempts[i]);
    }
  }

  lemma MapsKeepOwned(kind: Kind, owner: Owner, run: Run)
    requires AllOwned(kind, owner, run)
    ensures AllOwned(kind, owner, RecoverRun(run)) && AllOwned(kind, owner, CancelRunState(run))
  {
    hide UnitOwned, RecoverUnit, CancelUnit, SummarizeProgress, ResolveOutputs;
    MapMembers(run.units, RecoverUnit);
    MapMembers(run.units, CancelUnit);
    forall u | u in run.units
      ensures UnitOwned(kind, owner, RecoverUnit(u)) && UnitOwned(kind, owner, CancelUnit(u))
    {
      MappedOwned(kind, owner, u);
    }
  }

  lemma {:induction false} SkipsKeepOwned(kind: Kind, owner: Owner, run: Run, skips: seq<SkipRecord>)
    requires AllOwned(kind, owner, run) && LegalSkips(run, skips)
    ensures AllOwned(kind, owner, ApplySkips(run, skips))
    decreases |skips|
  {
    hide FindUnit, Decide, UnitWithId, UnitOwned, ApplySkip;
    if skips != [] {
      var u := UnitOf(run, skips[0].unitId);
      var next := SkippedUnit(u, skips[0].reason);
      SkipReplaces(run, skips[0]);
      SameAttemptsOwned(kind, owner, u, next);
      ReplaceKeepsOwned(kind, owner, run, ApplySkip(run, skips[0]), next);
      SkipsKeepOwned(kind, owner, ApplySkip(run, skips[0]), skips[1..]);
    }
  }

  lemma UnitStepKeepsOwned(kind: Kind, owner: Owner, w: World, s: Stored, step: Step)
    requires AllOwned(kind, owner, s.run) && UnitsFit(s.run, Restarts(s.log)) && Enabled(s, step) && NamesAttempt(owner, s.run, step)
    requires step.MakeReady? || step.DispatchUnit? || step.Complete? || step.WakeUnit?
    ensures AllOwned(kind, owner, RunAfter(w, s.run, step))
  {
    hide FindUnit, Decide, UnitWithId, UnitOwned, OwnedBy, UnitsFit, SummarizeProgress, ResolveOutputs, ReplaceIn,
      RunningUnit, CompletedUnit, Restarts, Bounded, Safe;
    var run := s.run;
    var u := UnitOf(run, step.id);
    FitUnit(run, Restarts(s.log), step.id);
    match step {
      case MakeReady(_) =>
        SameAttemptsOwned(kind, owner, u, ReadyUnit(u));
        ReplaceKeepsOwned(kind, owner, run, RunAfter(w, run, step), ReadyUnit(u));
      case DispatchUnit(_) =>
        RunningOwned(kind, owner, u);
        RunningUnitIs(u);
        ReplaceKeepsOwned(kind, owner, run, RunAfter(w, run, step), RunningUnit(u));
      case Complete(id, result) =>
        CompletedOwned(kind, owner, w, run.runId, UnitWithId(run.plan, id), u, result);
        CompleteReplaces(w, run, id, result);
        ReplaceKeepsOwned(kind, owner, run, RunAfter(w, run, step),
          CompletedUnit(w, run.runId, UnitWithId(run.plan, id), u, |u.attempts|, result));
      case WakeUnit(_) =>
        SameAttemptsOwned(kind, owner, u, Woken(u));
        ReplaceKeepsOwned(kind, owner, run, RunAfter(w, run, step), Woken(u));
    }
  }

  lemma StepKeepsOwned(kind: Kind, owner: Owner, w: World, s: Stored, step: Step)
    requires AllOwned(kind, owner, s.run) && UnitsFit(s.run, Restarts(s.log)) && Enabled(s, step) && NamesAttempt(owner, s.run, step)
    ensures AllOwned(kind, owner, Apply(w, s, step).run)
  {
    hide FindUnit, Decide, UnitWithId, UnitOwned, UnitsFit, Restarts, EventsAfter, ReplaceUnit, CompletedRun, ReadyRun,
      RecoverRun, CancelRunState, LegalSkips, ApplySkips, FirstWithStatus, SummarizeProgress, ResolveOutputs,
      NamesAttempt;
    match step {
      case SkipUnits(skips) => SkipsKeepOwned(kind, owner, s.run, skips);
      case FinishCancel => MapsKeepOwned(kind, owner, s.run);
      case Restart => MapsKeepOwned(kind, owner, s.run);
      case MakeReady(_) => UnitStepKeepsOwned(kind, owner, w, s, step);
      case DispatchUnit(_) => UnitStepKeepsOwned(kind, owner, w, s, step);
      case Complete(_, _) => UnitStepKeepsOwned(kind, owner, w, s, step);
      case WakeUnit(_) => UnitStepKeepsOwned(kind, owner, w, s, step);
      case _ =>
    }
  }

  // ----- marks

  lemma ByRefKeeps(next: seq<Payload>, p: Payload)
    ensures ByRef(next, p).ref == p.ref
  {
    FindRefIs(next, p.ref);
  }

  lemma MappedListOwned(owner: Owner, id: UnitId, number: nat, list: seq<Payload>, next: seq<Payload>)
    requires OwnedBy(owner, id, number, list)
    ensures OwnedBy(owner, id, number, MapByRef(list, next))
  {
    hide ByRef;
    var mapped := MapByRef(list, next);
    forall i | 0 <= i < |mapped|
      ensures mapped[i].ref == list[i].ref && list[i] in list && mapped[i] == ByRef(next, list[i])
    {
      ByRefKeeps(next, list[i]);
    }
    forall p | p in mapped
      ensures owner(p.ref) == (id, number)
    {
      var i :| 0 <= i < |mapped| && mapped[i] == p;
    }
    forall p, q | p in mapped && q in mapped && p.ref == q.ref
      ensures p == q
    {
      var i :| 0 <= i < |mapped| && mapped[i] == p;
      var j :| 0 <= j < |mapped| && mapped[j] == q;
      assert list[i] == list[j];
    }
  }

  lemma UnitUpdateOwned(kind: Kind, owner: Owner, u: UnitState, logs: seq<Payload>, artifacts: seq<Payload>)
    requires UnitOwned(kind, owner, u)
    ensures UnitOwned(kind, owner, WithUnitPayloads(u, logs, artifacts))
  {
    hide MapByRef, OwnedBy;
    var v, next := WithUnitPayloads(u, logs, artifacts), NextOf(kind, logs, artifacts);
    forall i | 0 <= i < |u.attempts|
      ensures OwnedBy(owner, v.unitId, i + 1, OfAttempt(kind, v.attempts[i]))
    {
      assert v.attempts[i] == WithAttemptPayloads(u.attempts[i], logs, artifacts);
      MappedListOwned(owner, u.unitId, i + 1, OfAttempt(kind, u.attempts[i]), next);
    }
  }

  lemma UnitUpdateFits(pu: PlanUnit, restarts: nat, u: UnitState, logs: seq<Payload>, artifacts: seq<Payload>)
    requires Sound(u) && Bounded(pu, restarts, u)
    ensures var v := WithUnitPayloads(u, logs, artifacts);
            v.unitId == u.unitId && |v.attempts| == |u.attempts| && v.status == u.status && Sound(v) && Bounded(pu, restarts, v)
  {
    hide MapByRef, MaxAttempts;
    var v := WithUnitPayloads(u, logs, artifacts);
    forall i | 0 <= i < |u.attempts|
      ensures v.attempts[i].number == u.attempts[i].number && v.attempts[i].status == u.attempts[i].status
    {
      assert v.attempts[i] == WithAttemptPayloads(u.attempts[i], logs, artifacts);
    }
  }

  // Rewriting payload lists touches neither statuses nor attempt numbers.
  lemma UpdateFits(run: Run, restarts: nat, logs: seq<Payload>, artifacts: seq<Payload>)
    requires UnitsFit(run, restarts)
    ensures UnitsFit(WithRunPayloadUpdates(run, logs, artifacts), restarts)
  {
    hide FindUnit, Sound, Bounded, UnitWithId, WithUnitPayloads, Safe;
    var f := (u: UnitState) => WithUnitPayloads(u, logs, artifacts);
    assert WithRunPayloadUpdates(run, logs, artifacts).units == MapUnits(run.units, f);
    forall u | u in run.units
      ensures f(u).unitId == u.unitId && |f(u).attempts| == |u.attempts| && f(u).status == u.status
      ensures Sound(f(u)) && Bounded(UnitWithId(run.plan, u.unitId), restarts, f(u))
    {
      assert UnitFits(run, restarts, u);
      UnitUpdateFits(UnitWithId(run.plan, u.unitId), restarts, u, logs, artifacts);
    }
    MappedFits(run, WithRunPayloadUpdates(run, logs, artifacts), f, restarts, restarts);
  }

  lemma UpdateKeepsOwned(kind: Kind, owner: Owner, run: Run, logs: seq<Payload>, artifacts: seq<Payload>)
    requires AllOwned(kind, owner, run)
    ensures AllOwned(kind, owner, WithRunPayloadUpdates(run, logs, artifacts))
  {
    hide UnitOwned, WithUnitPayloads;
    var r := WithRunPayloadUpdates(run, logs, artifacts);
    forall v | v in r.units
      ensures UnitOwned(kind, owner, v)
    {
      var i :| 0 <= i < |r.units| && r.units[i] == v;
      UnitUpdateOwned(kind, owner, run.units[i], logs, artifacts);
    }
  }

  // ----- every history

  ghost predicate Consistent(kind: Kind, owner: Owner, s: Stored) {
    UnitsFit(s.run, Restarts(s.log)) && LevelsAgree(kind, s.run) && AllOwned(kind, owner, s.run)
  }

  lemma ChangeKeepsConsistent(kind: Kind, w: World, owner: Owner, s: Stored, change: Change)
    requires Consistent(kind, owner, s) && Permitted(owner, s, change)
    ensures Consistent(kind, owner, Changed(w, owner, s, change))
  {
    hide FindUnit, UnitsFit, LevelsAgree, AllOwned, RefsAgree, Restarts, Enabled, Apply, NamesAttempt,
      WithRunPayloadUpdates, SucceededIn, Aligned;
    var run := s.run;
    FitAligned(run, Restarts(s.log));
    OwnedAgree(kind, owner, run);
    match change {
      case Advance(step) =>
        StepFits(w, s, step);
        StepKeepsLevels(kind, w, s, step);
        StepKeepsOwned(kind, owner, w, s, step);
      case MarkArtifact(ref) =>
        MarkingKeepsLevels(kind, run, ref);
        UpdateFits(run, Restarts(s.log), run.logs, MarkRef(run.artifacts, ref));
        UpdateKeepsOwned(kind, owner, run, run.logs, MarkRef(run.artifacts, ref));
      case MarkLog(ref) =>
        MarkingKeepsLevels(kind, run, ref);
        UpdateFits(run, Restarts(s.log), MarkRef(run.logs, ref), run.artifacts);
        UpdateKeepsOwned(kind, owner, run, MarkRef(run.logs, ref), run.artifacts);
      case MarkPayloads =>
        MarkingKeepsLevels(kind, run, "");
        UpdateFits(run, Restarts(s.log), MarkAll(run.logs), MarkAll(run.artifacts));
        UpdateKeepsOwned(kind, owner, run, MarkAll(run.logs), MarkAll(run.artifacts));
    }
  }

  lemma {:induction false} ChangesKeepConsistent(kind: Kind, w: World, owner: Owner, a: Stored, changes: seq<Change>, b: Stored)
    requires Consistent(kind, owner, a) && Changes(w, owner, a, changes, b)
    ensures Consistent(kind, owner, b)
    decreases |changes|
  {
    hide Consistent, Changed, Permitted;
    if changes != [] {
      ChangeKeepsConsistent(kind, w, owner, a, changes[0]);
      ChangesKeepConsistent(kind, w, owner, Changed(w, owner, a, changes[0]), changes[1..], b);
    }
  }

  lemma InitialOwned(kind: Kind, owner: Owner, plan: Plan, runId: RunId, inputs: seq<NamedValue>)
    ensures AllOwned(kind, owner, InitialRun(plan, runId, inputs))
  {
    hide SummarizeProgress, ResolveOutputs, EnsureTrigger;
    var run := InitialRun(plan, runId, inputs);
    forall u | u in run.units
      ensures u.attempts == []
    {
      var i :| 0 <= i < |run.units| && run.units[i] == u;
    }
  }

  // While every attempt's references name that attempt and are not shared inside it: in every state
  // a run gets into, through engine steps, restarts and marks in any order, the payload lists of the
  // run, its units and its attempts agree, and a reference stands for one entry.
  lemma LevelsSurviveMarking(kind: Kind, w: World, owner: Owner, plan: Plan, runId: RunId, inputs: seq<NamedValue>, changes: seq<Change>, s: Stored)
    requires Sensible(plan) && Changes(w, owner, Created(plan, runId, inputs), changes, s)
    ensures LevelsAgree(kind, s.run) && RefsAgree(OfRun(kind, s.run))
  {
    hide Sensible, InitialRun, UnitsFit, Coherent, Restarts, LevelsAgree, RefsAgree, AllOwned, Changes, Aligned;
    InitialFits(plan, runId, inputs);
    NoRestarts([RunCreated]);
    InitialLevels(kind, plan, runId, inputs);
    InitialOwned(kind, owner, plan, runId, inputs);
    ChangesKeepConsistent(kind, w, owner, Created(plan, runId, inputs), changes, s);
    FitAligned(s.run, Restarts(s.log));
    OwnedAgree(kind, owner, s.run);
  }
}

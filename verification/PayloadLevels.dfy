// Logs and artifacts are listed on the run, on each unit and on each attempt; the three levels agree.

module PayloadLevels {
  import opened Basics
  import opened Plans
  import opened RunState
  import opened Decision
  import opened SkipFixpoint
  import opened Dispatch
  import opened Preservation
  import opened History
  import opened Invariants
  import opened Lifecycle

  // Which of the two payload lists is meant; both are kept in the same way.
  datatype Kind = Logs | Artifacts

  function OfAttempt(kind: Kind, a: Attempt): seq<Payload> {
    if kind == Logs then a.logs else a.artifacts
  }

  function OfUnit(kind: Kind, u: UnitState): seq<Payload> {
    if kind == Logs then u.logs else u.artifacts
  }

  function OfRun(kind: Kind, run: Run): seq<Payload> {
    if kind == Logs then run.logs else run.artifacts
  }

  function OfAttempts(kind: Kind, attempts: seq<Attempt>): seq<Payload> {
    if attempts == [] then []
    else OfAttempts(kind, attempts[..|attempts| - 1]) + OfAttempt(kind, attempts[|attempts| - 1])
  }

  function OfUnits(kind: Kind, units: seq<UnitState>): seq<Payload> {
    if units == [] then []
    else OfUnits(kind, units[..|units| - 1]) + OfUnit(kind, units[|units| - 1])
  }

  // A unit lists exactly its attempts' payloads, in order; an attempt still running has none.
  ghost predicate UnitLevel(kind: Kind, u: UnitState) {
    && OfUnit(kind, u) == OfAttempts(kind, u.attempts)
    && forall i :: 0 <= i < |u.attempts| && u.attempts[i].status == RunningAttempt ==> OfAttempt(kind, u.attempts[i]) == []
  }

  // The run lists, as a multiset, exactly its units' payloads.
  ghost predicate RunLevel(kind: Kind, run: Run) {
    multiset(OfRun(kind, run)) == multiset(OfUnits(kind, run.units))
  }

  ghost predicate LevelsAgree(kind: Kind, run: Run) {
    RunLevel(kind, run) && forall u :: u in run.units ==> UnitLevel(kind, u)
  }

  lemma SumMoves(a: multiset<Payload>, b: multiset<Payload>, c: multiset<Payload>, d: multiset<Payload>, last: multiset<Payload>)
    requires a + b == c + d
    ensures (a + last) + b == (c + last) + d
  {
    forall p
      ensures ((a + last) + b)[p] == ((c + last) + d)[p]
    {
      assert (a + b)[p] == (c + d)[p];
    }
  }

  lemma LastUnit(kind: Kind, us: seq<UnitState>)
    requires us != []
    ensures multiset(OfUnits(kind, us)) == multiset(OfUnits(kind, us[..|us| - 1])) + multiset(OfUnit(kind, us[|us| - 1]))
  {
    hide OfUnit;
  }

  lemma {:induction false} OfUnitsUpdated(kind: Kind, us: seq<UnitState>, i: nat, next: UnitState)
    requires i < |us|
    ensures multiset(OfUnits(kind, us[i := next])) + multiset(OfUnit(kind, us[i]))
            == multiset(OfUnits(kind, us)) + multiset(OfUnit(kind, next))
  {
    hide OfUnit, OfUnits;
    var n := |us| - 1;
    LastUnit(kind, us);
    LastUnit(kind, us[i := next]);
    var front, last := multiset(OfUnits(kind, us[..n])), multiset(OfUnit(kind, us[n]));
    if i < n {
      assert us[i := next][..n] == us[..n][i := next] && us[i := next][n] == us[n] && us[..n][i] == us[i];
      OfUnitsUpdated(kind, us[..n], i, next);
      SumMoves(multiset(OfUnits(kind, us[..n][i := next])), multiset(OfUnit(kind, us[i])), front, multiset(OfUnit(kind, next)), last);
    } else {
      assert us[i := next][..n] == us[..n] && us[i := next][n] == next;
      SumSwaps(front, multiset(OfUnit(kind, next)), last);
    }
  }

  lemma SumSwaps(a: multiset<Payload>, b: multiset<Payload>, c: multiset<Payload>)
    ensures (a + b) + c == (a + c) + b
  {
  }

  lemma {:induction false} OfUnitsMapped(kind: Kind, us: seq<UnitState>, vs: seq<UnitState>)
    requires |us| == |vs| && forall i :: 0 <= i < |us| ==> OfUnit(kind, us[i]) == OfUnit(kind, vs[i])
    ensures OfUnits(kind, us) == OfUnits(kind, vs)
  {
    hide OfUnit;
    if us != [] {
      OfUnitsMapped(kind, us[..|us| - 1], vs[..|us| - 1]);
    }
  }

  lemma {:induction false} OfAttemptsMapped(kind: Kind, a: seq<Attempt>, b: seq<Attempt>)
    requires |a| == |b| && forall i :: 0 <= i < |a| ==> OfAttempt(kind, a[i]) == OfAttempt(kind, b[i])
    ensures OfAttempts(kind, a) == OfAttempts(kind, b)
  {
    hide OfAttempt;
    if a != [] {
      OfAttemptsMapped(kind, a[..|a| - 1], b[..|a| - 1]);
    }
  }

  lemma ReplaceAtIndex(run: Run, next: UnitState) returns (i: nat)
    requires Aligned(run) && FindUnit(run.units, next.unitId).Some?
    ensures i < |run.units| && ReplaceIn(run.units, next) == run.units[i := next] && UnitOf(run, next.unitId) == run.units[i]
  {
    hide FindUnit;
    i :| 0 <= i < |run.units| && run.units[i] == UnitOf(run, next.unitId);
    var u := UnitOf(run, next.unitId);
    assert run.units[i] == u && u.unitId == next.unitId;
    assert Distinct(UnitIds(run.units)) && UnitIds(run.units)[i] == next.unitId;
    forall j | 0 <= j < |run.units| && j != i
      ensures run.units[j].unitId != next.unitId
    {
      assert UnitIds(run.units)[j] == run.units[j].unitId;
    }
  }

  lemma SumCancels(total: multiset<Payload>, part: multiset<Payload>, before: multiset<Payload>, added: multiset<Payload>)
    requires total + part == before + (part + added)
    ensures total == before + added
  {
    forall p
      ensures total[p] == (before + added)[p]
    {
      assert (total + part)[p] == (before + (part + added))[p];
    }
  }

  // Adding the same payloads to one unit and to the run keeps the levels in agreement.
  lemma ReplaceKeepsLevels(kind: Kind, a: Run, b: Run, next: UnitState, added: seq<Payload>)
    requires LevelsAgree(kind, a) && Aligned(a) && Replaced(a, b, next) && FindUnit(a.units, next.unitId).Some?
    requires OfRun(kind, b) == OfRun(kind, a) + added && UnitLevel(kind, next)
    requires OfUnit(kind, next) == OfUnit(kind, UnitOf(a, next.unitId)) + added
    ensures LevelsAgree(kind, b)
  {
    hide FindUnit, ReplaceIn, UnitLevel, OfUnit, OfRun, OfUnits;
    var i := ReplaceAtIndex(a, next);
    OfUnitsUpdated(kind, a.units, i, next);
    ReplaceMembers(a.units, next);
    assert multiset(OfUnit(kind, next)) == multiset(OfUnit(kind, a.units[i])) + multiset(added);
    SumCancels(multiset(OfUnits(kind, b.units)), multiset(OfUnit(kind, a.units[i])), multiset(OfUnits(kind, a.units)), multiset(added));
    assert multiset(OfRun(kind, b)) == multiset(OfRun(kind, a)) + multiset(added);
  }

  lemma SameAttemptsLevel(kind: Kind, u: UnitState, v: UnitState)
    requires UnitLevel(kind, u) && v.attempts == u.attempts && v.logs == u.logs && v.artifacts == u.artifacts
    ensures UnitLevel(kind, v) && OfUnit(kind, v) == OfUnit(kind, u) + []
  {
    hide OfAttempts;
  }

  lemma RunningLevel(kind: Kind, u: UnitState)
    requires UnitLevel(kind, u) && Numbered(u.attempts)
    ensures UnitLevel(kind, RunningUnit(u)) && OfUnit(kind, RunningUnit(u)) == OfUnit(kind, u) + []
  {
    hide RunningUnit;
    RunningUnitIs(u);
    var r := RunningUnit(u);
    assert r.attempts[..|r.attempts| - 1] == u.attempts;
  }

  lemma CompletedPayloads(w: World, runId: RunId, pu: PlanUnit, u: UnitState, result: ExecutorResult)
    requires Numbered(u.attempts) && u.attempts != []
    ensures var c, n := CompletedUnit(w, runId, pu, u, |u.attempts|, result), |u.attempts|;
            && c.logs == u.logs + result.logs && c.artifacts == u.artifacts + result.artifacts
            && |c.attempts| == n && c.attempts[..n - 1] == u.attempts[..n - 1]
            && c.attempts[n - 1].logs == result.logs && c.attempts[n - 1].artifacts == result.artifacts
            && c.attempts[n - 1].status != RunningAttempt
  {
    hide RetriesAfter, DeclaredOutputs, ToFailure, AttemptIndex;
    NumberedIndex(u.attempts, |u.attempts|);
  }

  function ResultPayloads(kind: Kind, result: ExecutorResult): seq<Payload> {
    if kind == Logs then result.logs else result.artifacts
  }

  lemma CompletedLevel(kind: Kind, w: World, runId: RunId, pu: PlanUnit, u: UnitState, result: ExecutorResult)
    requires UnitLevel(kind, u) && Sound(u) && u.status == Running
    ensures var c := CompletedUnit(w, runId, pu, u, |u.attempts|, result);
            UnitLevel(kind, c) && OfUnit(kind, c) == OfUnit(kind, u) + ResultPayloads(kind, result)
  {
    hide CompletedUnit;
    CompletedPayloads(w, runId, pu, u, result);
    var c, n := CompletedUnit(w, runId, pu, u, |u.attempts|, result), |u.attempts|;
    assert OfAttempt(kind, u.attempts[n - 1]) == [];
    assert OfAttempts(kind, u.attempts) == OfAttempts(kind, u.attempts[..n - 1]);
    forall i | 0 <= i < n && c.attempts[i].status == RunningAttempt
      ensures OfAttempt(kind, c.attempts[i]) == []
    {
      if i < n - 1 {
        assert c.attempts[i] == c.attempts[..n - 1][i] == u.attempts[..n - 1][i] == u.attempts[i];
      }
    }
  }

  lemma MappedUnitLevels(kind: Kind, u: UnitState)
    requires UnitLevel(kind, u)
    ensures UnitLevel(kind, RecoverUnit(u)) && OfUnit(kind, RecoverUnit(u)) == OfUnit(kind, u)
    ensures UnitLevel(kind, CancelUnit(u)) && OfUnit(kind, CancelUnit(u)) == OfUnit(kind, u)
  {
    hide OfAttempts;
    var r, c := RecoverUnit(u), CancelUnit(u);
    forall i | 0 <= i < |u.attempts|
      ensures r.attempts[i] == InterruptAttempt(u.attempts[i]) && c.attempts[i] == CancelAttempt(u.attempts[i])
    {
    }
    OfAttemptsMapped(kind, u.attempts, r.attempts);
    OfAttemptsMapped(kind, u.attempts, c.attempts);
  }

  lemma MapsKeepLevels(kind: Kind, run: Run)
    requires LevelsAgree(kind, run)
    ensures LevelsAgree(kind, RecoverRun(run)) && LevelsAgree(kind, CancelRunState(run))
  {
    hide UnitLevel, OfUnit, RecoverUnit, CancelUnit, SummarizeProgress, ResolveOutputs, OfUnits;
    MapMembers(run.units, RecoverUnit);
    MapMembers(run.units, CancelUnit);
    forall u | u in run.units
      ensures UnitLevel(kind, RecoverUnit(u)) && OfUnit(kind, RecoverUnit(u)) == OfUnit(kind, u)
      ensures UnitLevel(kind, CancelUnit(u)) && OfUnit(kind, CancelUnit(u)) == OfUnit(kind, u)
    {
      MappedUnitLevels(kind, u);
    }
    OfUnitsMapped(kind, run.units, MapUnits(run.units, RecoverUnit));
    OfUnitsMapped(kind, run.units, MapUnits(run.units, CancelUnit));
  }

  lemma {:induction false} SkipsKeepLevels(kind: Kind, run: Run, restarts: nat, skips: seq<SkipRecord>)
    requires LevelsAgree(kind, run) && UnitsFit(run, restarts) && LegalSkips(run, skips)
    ensures LevelsAgree(kind, ApplySkips(run, skips))
    decreases |skips|
  {
    hide FindUnit, Decide, UnitWithId, UnitLevel, RunLevel, UnitsFit, OfUnit, SummarizeProgress, ResolveOutputs,
      ReplaceIn;
    if skips != [] {
      var u := UnitOf(run, skips[0].unitId);
      var next := SkippedUnit(u, skips[0].reason);
      FitUnit(run, restarts, skips[0].unitId);
      SkipReplaces(run, skips[0]);
      SameAttemptsLevel(kind, u, next);
      FitAligned(run, restarts);
      assert OfRun(kind, ApplySkip(run, skips[0])) == OfRun(kind, run) + [];
      ReplaceKeepsLevels(kind, run, ApplySkip(run, skips[0]), next, []);
      SkipFits(run, restarts, skips[0]);
      SkipsKeepLevels(kind, ApplySkip(run, skips[0]), restarts, skips[1..]);
    }
  }

  lemma UnitStepKeepsLevels(kind: Kind, w: World, s: Stored, step: Step)
    requires LevelsAgree(kind, s.run) && UnitsFit(s.run, Restarts(s.log)) && Enabled(s, step)
    requires step.MakeReady? || step.DispatchUnit? || step.WakeUnit?
    ensures LevelsAgree(kind, RunAfter(w, s.run, step))
  {
    hide LegalSkips, ApplySkips, RecoverRun, CancelRunState, FinalizeRun, CompletedRun, FailFast, Possible, FindUnit,
      Decide, UnitWithId, UnitLevel, RunLevel, UnitsFit, OfUnit, SummarizeProgress, ResolveOutputs, ReplaceIn,
      RunningUnit, Restarts, Bounded, Safe;
    var run := s.run;
    var u := UnitOf(run, step.id);
    FitUnit(run, Restarts(s.log), step.id);
    FitAligned(run, Restarts(s.log));
    assert OfRun(kind, RunAfter(w, run, step)) == OfRun(kind, run) + [];
    match step {
      case MakeReady(_) =>
        SameAttemptsLevel(kind, u, ReadyUnit(u));
        ReplaceKeepsLevels(kind, run, RunAfter(w, run, step), ReadyUnit(u), []);
      case DispatchUnit(_) =>
        RunningLevel(kind, u);
        RunningUnitIs(u);
        ReplaceKeepsLevels(kind, run, RunAfter(w, run, step), RunningUnit(u), []);
      case WakeUnit(_) =>
        SameAttemptsLevel(kind, u, Woken(u));
        ReplaceKeepsLevels(kind, run, RunAfter(w, run, step), Woken(u), []);
    }
  }

  lemma CompleteKeepsLevels(kind: Kind, w: World, s: Stored, id: UnitId, result: ExecutorResult)
    requires LevelsAgree(kind, s.run) && UnitsFit(s.run, Restarts(s.log)) && Enabled(s, Complete(id, result))
    ensures LevelsAgree(kind, RunAfter(w, s.run, Complete(id, result)))
  {
    hide FindUnit, Decide, UnitWithId, UnitLevel, RunLevel, UnitsFit, OfUnit, SummarizeProgress, ResolveOutputs,
      ReplaceIn, CompletedUnit, Restarts, Bounded, Safe;
    var run, pu := s.run, UnitWithId(s.run.plan, id);
    var u := UnitOf(run, id);
    FitUnit(run, Restarts(s.log), id);
    FitAligned(run, Restarts(s.log));
    CompletedLevel(kind, w, run.runId, pu, u, result);
    CompleteReplaces(w, run, id, result);
    CompletedFits(w, run.runId, pu, u, result, Restarts(s.log));
    assert OfRun(kind, RunAfter(w, run, Complete(id, result))) == OfRun(kind, run) + ResultPayloads(kind, result);
    ReplaceKeepsLevels(kind, run, RunAfter(w, run, Complete(id, result)),
      CompletedUnit(w, run.runId, pu, u, |u.attempts|, result), ResultPayloads(kind, result));
  }

  lemma StepKeepsLevels(kind: Kind, w: World, s: Stored, step: Step)
    requires LevelsAgree(kind, s.run) && UnitsFit(s.run, Restarts(s.log)) && Enabled(s, step)
    ensures LevelsAgree(kind, Apply(w, s, step).run)
  {
    hide FindUnit, Decide, UnitWithId, UnitLevel, UnitsFit, Restarts, EventsAfter, ReplaceUnit, CompletedRun, ReadyRun,
      RecoverRun, CancelRunState, LegalSkips, ApplySkips, FirstWithStatus, SummarizeProgress, ResolveOutputs;
    match step {
      case SkipUnits(skips) => SkipsKeepLevels(kind, s.run, Restarts(s.log), skips);
      case FinishCancel => MapsKeepLevels(kind, s.run);
      case Restart => MapsKeepLevels(kind, s.run);
      case Complete(id, result) => CompleteKeepsLevels(kind, w, s, id, result);
      case MakeReady(_) => UnitStepKeepsLevels(kind, w, s, step);
      case DispatchUnit(_) => UnitStepKeepsLevels(kind, w, s, step);
      case WakeUnit(_) => UnitStepKeepsLevels(kind, w, s, step);
      case _ =>
    }
  }

  lemma {:induction false} PlayedLevels(kind: Kind, w: World, a: Stored, steps: seq<Step>, b: Stored)
    requires LevelsAgree(kind, a.run) && UnitsFit(a.run, Restarts(a.log)) && Plays(w, a, steps, b)
    ensures LevelsAgree(kind, b.run)
    decreases |steps|
  {
    hide Enabled, Apply, LevelsAgree, UnitsFit, Restarts, SucceededIn;
    if steps != [] {
      StepKeepsLevels(kind, w, a, steps[0]);
      StepFits(w, a, steps[0]);
      PlayedLevels(kind, w, Apply(w, a, steps[0]), steps[1..], b);
    }
  }

  lemma {:induction false} NoPayloads(kind: Kind, units: seq<UnitState>)
    requires forall u :: u in units ==> OfUnit(kind, u) == []
    ensures OfUnits(kind, units) == []
  {
    hide OfUnit;
    if units != [] {
      NoPayloads(kind, units[..|units| - 1]);
      assert units[|units| - 1] in units;
    }
  }

  lemma InitialLevels(kind: Kind, plan: Plan, runId: RunId, inputs: seq<NamedValue>)
    ensures LevelsAgree(kind, InitialRun(plan, runId, inputs))
  {
    hide SummarizeProgress, ResolveOutputs, OfAttempts, OfUnits, EnsureTrigger;
    var run := InitialRun(plan, runId, inputs);
    forall u | u in run.units
      ensures OfUnit(kind, u) == [] && u.attempts == []
    {
      var i :| 0 <= i < |run.units| && run.units[i] == u;
    }
    assert OfAttempts(kind, []) == [] by {
      NoAttempts(kind);
    }
    NoPayloads(kind, run.units);
    assert OfRun(kind, run) == [];
  }

  lemma NoAttempts(kind: Kind)
    ensures OfAttempts(kind, []) == []
  {
  }

  // In every reachable state the run's, the units' and the attempts' payload lists agree.
  lemma PayloadsAgree(kind: Kind, w: World, s: Stored)
    requires Reachable(w, s)
    ensures LevelsAgree(kind, s.run)
  {
    hide Plays, Sensible, InitialRun, UnitsFit, Coherent, Restarts, LevelsAgree;
    var plan, runId, inputs, steps :| Sensible(plan) && Plays(w, Created(plan, runId, inputs), steps, s);
    InitialFits(plan, runId, inputs);
    NoRestarts([RunCreated]);
    InitialLevels(kind, plan, runId, inputs);
    PlayedLevels(kind, w, Created(plan, runId, inputs), steps, s);
  }

  // ----- marking payloads missing

  function FindRef(list: seq<Payload>, ref: string): Option<Payload> {
    if list == [] then None
    else if list[|list| - 1].ref == ref then Some(list[|list| - 1])
    else FindRef(list[..|list| - 1], ref)
  }

  // Each entry is replaced by the last entry of `next` with its reference.
  function MapByRef(current: seq<Payload>, next: seq<Payload>): seq<Payload> {
    seq(|current|, i requires 0 <= i < |current| => ByRef(next, current[i]))
  }

  function ByRef(next: seq<Payload>, p: Payload): Payload {
    match FindRef(next, p.ref) case None => p case Some(q) => q
  }

  function NextOf(kind: Kind, logs: seq<Payload>, artifacts: seq<Payload>): seq<Payload> {
    if kind == Logs then logs else artifacts
  }

  function WithAttemptPayloads(a: Attempt, logs: seq<Payload>, artifacts: seq<Payload>): Attempt {
    a.(logs := MapByRef(a.logs, logs), artifacts := MapByRef(a.artifacts, artifacts))
  }

  function WithUnitPayloads(u: UnitState, logs: seq<Payload>, artifacts: seq<Payload>): UnitState {
    u.(
    logs := MapByRef(u.logs, logs),
    artifacts := MapByRef(u.artifacts, artifacts),
    attempts := seq(|u.attempts|, i requires 0 <= i < |u.attempts| => WithAttemptPayloads(u.attempts[i], logs, artifacts)))
  }

  // The run takes the new lists; units and attempts look their entries up in them by reference.
  function WithRunPayloadUpdates(run: Run, logs: seq<Payload>, artifacts: seq<Payload>): Run {
    run.(
    units := seq(|run.units|, i requires 0 <= i < |run.units| => WithUnitPayloads(run.units[i], logs, artifacts)),
    logs := logs,
    artifacts := artifacts)
  }

  function MarkArtifactUnavailable(run: Run, ref: string): Run {
    WithRunPayloadUpdates(run, run.logs, MarkRef(run.artifacts, ref))
  }

  function MarkLogUnavailable(run: Run, ref: string): Run {
    WithRunPayloadUpdates(run, MarkRef(run.logs, ref), run.artifacts)
  }

  function MarkRunPayloadsUnavailable(run: Run): Run {
    WithRunPayloadUpdates(run, MarkAll(run.logs), MarkAll(run.artifacts))
  }

  function Mark(p: Payload): Payload {
    p.(status := MissingPayload)
  }

  function MarkRef(list: seq<Payload>, ref: string): seq<Payload> {
    seq(|list|, i requires 0 <= i < |list| => if list[i].ref == ref then Mark(list[i]) else list[i])
  }

  function MarkAll(list: seq<Payload>): seq<Payload> {
    seq(|list|, i requires 0 <= i < |list| => Mark(list[i]))
  }

  // Entries with one reference are the same entry.
  ghost predicate RefsAgree(list: seq<Payload>) {
    forall p, q :: p in list && q in list && p.ref == q.ref ==> p == q
  }

  // `next` is `list` with entries rewritten in place and references untouched, as marking does.
  ghost predicate Rewrites(list: seq<Payload>, next: seq<Payload>) {
    |next| == |list| && forall i :: 0 <= i < |list| ==> next[i].ref == list[i].ref
  }

  lemma {:induction false} FindRefIs(list: seq<Payload>, ref: string)
    ensures FindRef(list, ref).None? <==> forall p :: p in list ==> p.ref != ref
    ensures FindRef(list, ref).Some? ==> FindRef(list, ref).value in list && FindRef(list, ref).value.ref == ref
  {
    if list != [] {
      FindRefIs(list[..|list| - 1], ref);
      assert list == list[..|list| - 1] + [list[|list| - 1]];
    }
  }

  lemma MapByRefConcat(a: seq<Payload>, b: seq<Payload>, next: seq<Payload>)
    ensures MapByRef(a + b, next) == MapByRef(a, next) + MapByRef(b, next)
  {
    hide ByRef;
  }

  lemma {:induction false} AttemptsMapped(kind: Kind, attempts: seq<Attempt>, mapped: seq<Attempt>, next: seq<Payload>)
    requires |mapped| == |attempts|
    requires forall i :: 0 <= i < |attempts| ==> OfAttempt(kind, mapped[i]) == MapByRef(OfAttempt(kind, attempts[i]), next)
    ensures OfAttempts(kind, mapped) == MapByRef(OfAttempts(kind, attempts), next)
  {
    hide MapByRef, OfAttempt;
    var n := |attempts| - 1;
    if n < 0 {
      NothingMapped(next);
    } else {
      AttemptsMapped(kind, attempts[..n], mapped[..n], next);
      MapByRefConcat(OfAttempts(kind, attempts[..n]), OfAttempt(kind, attempts[n]), next);
    }
  }

  lemma NothingMapped(next: seq<Payload>)
    ensures MapByRef([], next) == []
  {
  }

  lemma {:induction false} UnitsMapped(kind: Kind, units: seq<UnitState>, mapped: seq<UnitState>, next: seq<Payload>)
    requires |mapped| == |units|
    requires forall i :: 0 <= i < |units| ==> OfUnit(kind, mapped[i]) == MapByRef(OfUnit(kind, units[i]), next)
    ensures OfUnits(kind, mapped) == MapByRef(OfUnits(kind, units), next)
  {
    hide MapByRef, OfUnit;
    var n := |units| - 1;
    if n < 0 {
      NothingMapped(next);
    } else {
      UnitsMapped(kind, units[..n], mapped[..n], next);
      MapByRefConcat(OfUnits(kind, units[..n]), OfUnit(kind, units[n]), next);
    }
  }

  lemma FirstOf(a: seq<Payload>, b: seq<Payload>) returns (j: nat)
    requires a != [] && multiset(a) == multiset(b)
    ensures j < |b| && b[j] == a[0]
  {
    assert a[0] in multiset(a);
    assert a[0] in b;
    j :| 0 <= j < |b| && b[j] == a[0];
  }

  lemma FirstIsIn(a: seq<Payload>, b: seq<Payload>) returns (j: nat)
    requires a != [] && multiset(a) == multiset(b)
    ensures j < |b| && b[j] == a[0] && multiset(a[1..]) == multiset(b[..j] + b[j + 1..])
  {
    j := FirstOf(a, b);
    WithoutOne(b, j);
    assert multiset(a[1..]) == multiset(a) - multiset{a[0]} by {
      assert a == [a[0]] + a[1..];
    }
  }

  // Mapping two arrangements of one collection gives two arrangements of one collection.
  lemma {:induction false} MapPermuted(a: seq<Payload>, b: seq<Payload>, next: seq<Payload>)
    requires multiset(a) == multiset(b)
    ensures multiset(MapByRef(a, next)) == multiset(MapByRef(b, next))
    decreases |a|
  {
    hide ByRef, MapByRef;
    if a == [] {
      assert |multiset(b)| == 0;
      assert b == [];
    } else {
      var j := FirstIsIn(a, b);
      MapPermuted(a[1..], b[..j] + b[j + 1..], next);
      MappedParts(a, b, j, next);
    }
  }

  lemma WithoutOne(s: seq<Payload>, j: nat)
    requires j < |s|
    ensures multiset(s[..j] + s[j + 1..]) == multiset(s) - multiset{s[j]}
  {
    assert s == s[..j] + [s[j]] + s[j + 1..];
  }

  lemma MappedParts(a: seq<Payload>, b: seq<Payload>, j: nat, next: seq<Payload>)
    requires a != [] && j < |b|
    ensures multiset(MapByRef(a, next)) == multiset{ByRef(next, a[0])} + multiset(MapByRef(a[1..], next))
    ensures multiset(MapByRef(b, next)) == multiset{ByRef(next, b[j])} + multiset(MapByRef(b[..j] + b[j + 1..], next))
  {
    hide ByRef;
    assert MapByRef(a, next) == [ByRef(next, a[0])] + MapByRef(a[1..], next);
    assert MapByRef(b, next) == MapByRef(b[..j], next) + [ByRef(next, b[j])] + MapByRef(b[j + 1..], next);
    assert MapByRef(b[..j] + b[j + 1..], next) == MapByRef(b[..j], next) + MapByRef(b[j + 1..], next);
  }

  // A rewritten list looked up in itself gives itself back, as a collection, exactly when its
  // references agree.
  lemma SelfLookup(list: seq<Payload>, next: seq<Payload>)
    requires Rewrites(list, next)
    ensures multiset(MapByRef(list, next)) == multiset(next) <==> RefsAgree(next)
  {
    hide FindRef;
    var looked := MapByRef(list, next);
    forall i | 0 <= i < |next|
      ensures FindRef(next, next[i].ref).Some? && looked[i] == FindRef(next, next[i].ref).value
    {
      FindRefIs(next, next[i].ref);
    }
    if RefsAgree(next) {
      forall i | 0 <= i < |next|
        ensures looked[i] == next[i]
      {
        FindRefIs(next, next[i].ref);
      }
      assert looked == next;
    }
    if multiset(looked) == multiset(next) {
      forall p, q | p in next && q in next && p.ref == q.ref
        ensures p == q
      {
        LookedIsFound(looked, next, p);
        LookedIsFound(looked, next, q);
      }
    }
  }

  lemma LookedIsFound(looked: seq<Payload>, next: seq<Payload>, p: Payload)
    requires multiset(looked) == multiset(next) && p in next
    requires |looked| == |next|
    requires forall i :: 0 <= i < |next| ==> FindRef(next, next[i].ref).Some? && looked[i] == FindRef(next, next[i].ref).value
    ensures FindRef(next, p.ref) == Some(p)
  {
    hide FindRef;
    assert p in multiset(looked);
    var i :| 0 <= i < |looked| && looked[i] == p;
    FindRefIs(next, next[i].ref);
  }

  lemma UnitRewritten(kind: Kind, u: UnitState, logs: seq<Payload>, artifacts: seq<Payload>)
    requires UnitLevel(kind, u)
    ensures UnitLevel(kind, WithUnitPayloads(u, logs, artifacts))
    ensures OfUnit(kind, WithUnitPayloads(u, logs, artifacts)) == MapByRef(OfUnit(kind, u), NextOf(kind, logs, artifacts))
  {
    hide MapByRef, OfAttempts;
    var v, next := WithUnitPayloads(u, logs, artifacts), NextOf(kind, logs, artifacts);
    forall i | 0 <= i < |u.attempts|
      ensures OfAttempt(kind, v.attempts[i]) == MapByRef(OfAttempt(kind, u.attempts[i]), next)
      ensures v.attempts[i].status == u.attempts[i].status
    {
      assert v.attempts[i] == WithAttemptPayloads(u.attempts[i], logs, artifacts);
    }
    AttemptsMapped(kind, u.attempts, v.attempts, next);
    NothingMapped(next);
  }

  // Rewriting payload lists keeps units and attempts in agreement always, and the run in agreement
  // with its units exactly when the new list's references agree.
  lemma RewriteKeepsLevels(kind: Kind, run: Run, logs: seq<Payload>, artifacts: seq<Payload>)
    requires LevelsAgree(kind, run) && Rewrites(OfRun(kind, run), NextOf(kind, logs, artifacts))
    ensures forall u :: u in WithRunPayloadUpdates(run, logs, artifacts).units ==> UnitLevel(kind, u)
    ensures LevelsAgree(kind, WithRunPayloadUpdates(run, logs, artifacts)) <==> RefsAgree(NextOf(kind, logs, artifacts))
  {
    hide MapByRef, OfUnits, RefsAgree, Rewrites, UnitLevel, WithUnitPayloads, OfUnit;
    var r, next := WithRunPayloadUpdates(run, logs, artifacts), NextOf(kind, logs, artifacts);
    forall i | 0 <= i < |run.units|
      ensures UnitLevel(kind, r.units[i])
      ensures OfUnit(kind, r.units[i]) == MapByRef(OfUnit(kind, run.units[i]), next)
    {
      assert run.units[i] in run.units;
      UnitRewritten(kind, run.units[i], logs, artifacts);
    }
    UnitsMapped(kind, run.units, r.units, next);
    MapPermuted(OfRun(kind, run), OfUnits(kind, run.units), next);
    SelfLookup(OfRun(kind, run), next);
  }

  lemma MarkedRefs(list: seq<Payload>, ref: string)
    ensures Rewrites(list, list) && Rewrites(list, MarkRef(list, ref)) && Rewrites(list, MarkAll(list))
    ensures RefsAgree(list) ==> RefsAgree(MarkRef(list, ref)) && RefsAgree(MarkAll(list))
  {
  }

  // Marking one payload, or all of a run's, missing keeps all levels in agreement exactly when entries
  // of the marked lists with one reference are the same entry.
  lemma MarkingKeepsLevelsIff(run: Run, ref: string)
    requires LevelsAgree(Logs, run) && LevelsAgree(Artifacts, run)
    ensures LevelsAgree(Artifacts, MarkArtifactUnavailable(run, ref)) <==> RefsAgree(MarkRef(run.artifacts, ref))
    ensures LevelsAgree(Logs, MarkLogUnavailable(run, ref)) <==> RefsAgree(MarkRef(run.logs, ref))
    ensures LevelsAgree(Artifacts, MarkRunPayloadsUnavailable(run)) <==> RefsAgree(MarkAll(run.artifacts))
    ensures LevelsAgree(Logs, MarkRunPayloadsUnavailable(run)) <==> RefsAgree(MarkAll(run.logs))
  {
    hide LevelsAgree, RefsAgree, Rewrites, MarkRef, MarkAll;
    MarkedRefs(run.logs, ref);
    MarkedRefs(run.artifacts, ref);
    RewriteKeepsLevels(Artifacts, run, run.logs, MarkRef(run.artifacts, ref));
    RewriteKeepsLevels(Logs, run, MarkRef(run.logs, ref), run.artifacts);
    RewriteKeepsLevels(Artifacts, run, MarkAll(run.logs), MarkAll(run.artifacts));
    RewriteKeepsLevels(Logs, run, MarkAll(run.logs), MarkAll(run.artifacts));
  }

  // Marking one payload, or all of a run's, missing keeps all levels in agreement when the run's
  // references agree.
  lemma MarkingKeepsLevels(kind: Kind, run: Run, ref: string)
    requires LevelsAgree(kind, run) && RefsAgree(OfRun(kind, run))
    ensures LevelsAgree(kind, MarkArtifactUnavailable(run, ref)) && RefsAgree(OfRun(kind, MarkArtifactUnavailable(run, ref)))
    ensures LevelsAgree(kind, MarkLogUnavailable(run, ref)) && RefsAgree(OfRun(kind, MarkLogUnavailable(run, ref)))
    ensures LevelsAgree(kind, MarkRunPayloadsUnavailable(run)) && RefsAgree(OfRun(kind, MarkRunPayloadsUnavailable(run)))
  {
    hide LevelsAgree, RefsAgree, Rewrites, MarkRef, MarkAll;
    MarkedRefs(run.logs, ref);
    MarkedRefs(run.artifacts, ref);
    RewriteKeepsLevels(kind, run, run.logs, MarkRef(run.artifacts, ref));
    RewriteKeepsLevels(kind, run, MarkRef(run.logs, ref), run.artifacts);
    RewriteKeepsLevels(kind, run, MarkAll(run.logs), MarkAll(run.artifacts));
  }

  // Two different artifacts that share a reference tear the levels apart as soon as an artifact with
  // another reference is marked: the lookup turns both into the later one in units and attempts, while
  // the run keeps both.
  lemma SharedRefTearsLevels(run: Run, p: Payload, q: Payload, ref: string)
    requires LevelsAgree(Logs, run) && LevelsAgree(Artifacts, run)
    requires p in run.artifacts && q in run.artifacts && p != q && p.ref == q.ref && p.ref != ref
    ensures !LevelsAgree(Artifacts, MarkArtifactUnavailable(run, ref))
  {
    hide LevelsAgree;
    MarkingKeepsLevelsIff(run, ref);
    OthersUnmarked(run.artifacts, ref, p);
    OthersUnmarked(run.artifacts, ref, q);
  }

  lemma OthersUnmarked(list: seq<Payload>, ref: string, p: Payload)
    requires p in list && p.ref != ref
    ensures p in MarkRef(list, ref)
  {
    var i :| 0 <= i < |list| && list[i] == p;
    assert MarkRef(list, ref)[i] == p;
  }
}

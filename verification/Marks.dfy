// Marking a payload missing marks exactly that payload, on the run, its units and its attempts.

module Marks {
  import opened Basics
  import opened Plans
  import opened RunState
  import opened Dispatch
  import opened History
  import opened PayloadLevels
  import opened Marking

  // How one entry is rewritten; its reference is never touched.
  type Rewriting = Payload -> Payload

  ghost predicate KeepsRefs(m: Rewriting) {
    forall p :: m(p).ref == p.ref
  }

  ghost predicate IsMapped(before: seq<Payload>, after: seq<Payload>, m: Rewriting) {
    |after| == |before| && forall i :: 0 <= i < |before| ==> after[i] == m(before[i])
  }

  // Every list of this kind, on the run, its units and its attempts, is the former one rewritten.
  ghost predicate MappedEverywhere(kind: Kind, a: Run, b: Run, m: Rewriting) {
    && IsMapped(OfRun(kind, a), OfRun(kind, b), m)
    && |b.units| == |a.units|
    && (forall i :: 0 <= i < |a.units| ==> IsMapped(OfUnit(kind, a.units[i]), OfUnit(kind, b.units[i]), m))
    && (forall i :: 0 <= i < |a.units| ==> |b.units[i].attempts| == |a.units[i].attempts|)
    && (forall i, j :: 0 <= i < |a.units| && 0 <= j < |a.units[i].attempts| ==>
          IsMapped(OfAttempt(kind, a.units[i].attempts[j]), OfAttempt(kind, b.units[i].attempts[j]), m))
  }

  // Nothing but payload lists differs.
  ghost predicate OnlyPayloads(a: Run, b: Run) {
    && b.(units := a.units, logs := a.logs, artifacts := a.artifacts) == a
    && |b.units| == |a.units|
    && forall i :: 0 <= i < |a.units| ==>
         var u, v := a.units[i], b.units[i];
         && v.(attempts := u.attempts, logs := u.logs, artifacts := u.artifacts) == u
         && |v.attempts| == |u.attempts|
         && forall j :: 0 <= j < |u.attempts| ==>
              v.attempts[j].(logs := u.attempts[j].logs, artifacts := u.attempts[j].artifacts) == u.attempts[j]
  }

  lemma LookedUp(list: seq<Payload>, next: seq<Payload>, m: Rewriting, p: Payload)
    requires IsMapped(list, next, m) && KeepsRefs(m) && RefsAgree(list) && p in list
    ensures ByRef(next, p) == m(p)
  {
    hide FindRef;
    FindRefIs(next, p.ref);
    var i :| 0 <= i < |list| && list[i] == p;
    assert next[i] == m(p) && next[i] in next;
    var q := FindRef(next, p.ref).value;
    var j :| 0 <= j < |next| && next[j] == q;
    assert list[j] in list && list[j].ref == p.ref;
  }

  lemma LookupMaps(list: seq<Payload>, next: seq<Payload>, m: Rewriting, current: seq<Payload>)
    requires IsMapped(list, next, m) && KeepsRefs(m) && RefsAgree(list) && forall p :: p in current ==> p in list
    ensures IsMapped(current, MapByRef(current, next), m)
  {
    hide ByRef, RefsAgree, KeepsRefs;
    forall i | 0 <= i < |current|
      ensures MapByRef(current, next)[i] == m(current[i])
    {
      LookedUp(list, next, m, current[i]);
    }
  }

  lemma {:induction false} UnitListed(kind: Kind, units: seq<UnitState>, u: UnitState, p: Payload)
    requires u in units && p in OfUnit(kind, u)
    ensures p in OfUnits(kind, units)
  {
    hide OfUnit;
    var n := |units| - 1;
    assert units == units[..n] + [units[n]];
    if u != units[n] {
      UnitListed(kind, units[..n], u, p);
    }
  }

  lemma {:induction false} AttemptListed(kind: Kind, attempts: seq<Attempt>, a: Attempt, p: Payload)
    requires a in attempts && p in OfAttempt(kind, a)
    ensures p in OfAttempts(kind, attempts)
  {
    hide OfAttempt;
    var n := |attempts| - 1;
    assert attempts == attempts[..n] + [attempts[n]];
    if a != attempts[n] {
      AttemptListed(kind, attempts[..n], a, p);
    }
  }

  // Every entry of a unit or an attempt is an entry of the run.
  lemma AllListed(kind: Kind, run: Run, u: UnitState)
    requires LevelsAgree(kind, run) && u in run.units
    ensures forall p :: p in OfUnit(kind, u) ==> p in OfRun(kind, run)
    ensures forall j, p :: 0 <= j < |u.attempts| && p in OfAttempt(kind, u.attempts[j]) ==> p in OfRun(kind, run)
  {
    hide OfUnit, OfRun, OfUnits, OfAttempt, OfAttempts;
    assert UnitLevel(kind, u);
    forall p | p in OfUnit(kind, u)
      ensures p in OfRun(kind, run)
    {
      UnitListed(kind, run.units, u, p);
      assert p in multiset(OfUnits(kind, run.units));
    }
    forall j, p | 0 <= j < |u.attempts| && p in OfAttempt(kind, u.attempts[j])
      ensures p in OfUnit(kind, u)
    {
      AttemptListed(kind, u.attempts, u.attempts[j], p);
    }
  }

  lemma UpdateMaps(kind: Kind, run: Run, logs: seq<Payload>, artifacts: seq<Payload>, m: Rewriting)
    requires LevelsAgree(kind, run) && RefsAgree(OfRun(kind, run)) && KeepsRefs(m)
    requires IsMapped(OfRun(kind, run), NextOf(kind, logs, artifacts), m)
    ensures MappedEverywhere(kind, run, WithRunPayloadUpdates(run, logs, artifacts), m)
  {
    hide MapByRef, RefsAgree, KeepsRefs, IsMapped, LevelsAgree;
    var r, next := WithRunPayloadUpdates(run, logs, artifacts), NextOf(kind, logs, artifacts);
    forall i | 0 <= i < |run.units|
      ensures IsMapped(OfUnit(kind, run.units[i]), OfUnit(kind, r.units[i]), m)
      ensures |r.units[i].attempts| == |run.units[i].attempts|
      ensures forall j :: 0 <= j < |run.units[i].attempts| ==>
                IsMapped(OfAttempt(kind, run.units[i].attempts[j]), OfAttempt(kind, r.units[i].attempts[j]), m)
    {
      var u := run.units[i];
      AllListed(kind, run, u);
      LookupMaps(OfRun(kind, run), next, m, OfUnit(kind, u));
      forall j | 0 <= j < |u.attempts|
        ensures IsMapped(OfAttempt(kind, u.attempts[j]), OfAttempt(kind, r.units[i].attempts[j]), m)
      {
        LookupMaps(OfRun(kind, run), next, m, OfAttempt(kind, u.attempts[j]));
        assert r.units[i].attempts[j] == WithAttemptPayloads(u.attempts[j], logs, artifacts);
      }
    }
  }

  lemma UpdateTouchesPayloads(run: Run, logs: seq<Payload>, artifacts: seq<Payload>)
    ensures OnlyPayloads(run, WithRunPayloadUpdates(run, logs, artifacts))
  {
    hide MapByRef;
    var r := WithRunPayloadUpdates(run, logs, artifacts);
    forall i, j | 0 <= i < |run.units| && 0 <= j < |run.units[i].attempts|
      ensures r.units[i].attempts[j] == WithAttemptPayloads(run.units[i].attempts[j], logs, artifacts)
    {
    }
  }

  // The entry is missing if it has this reference, and as it was otherwise.
  function MissingIf(ref: string): Rewriting {
    (p: Payload) => if p.ref == ref then Payload(p.ref, p.name, MissingPayload) else p
  }

  function Missing(): Rewriting {
    (p: Payload) => Payload(p.ref, p.name, MissingPayload)
  }

  function Unchanged(): Rewriting {
    (p: Payload) => p
  }

  lemma MarksMap(list: seq<Payload>, ref: string)
    ensures IsMapped(list, MarkRef(list, ref), MissingIf(ref)) && IsMapped(list, MarkAll(list), Missing()) && IsMapped(list, list, Unchanged())
    ensures KeepsRefs(MissingIf(ref)) && KeepsRefs(Missing()) && KeepsRefs(Unchanged())
  {
  }

  // In a run whose levels and references agree: marking an artifact makes the entries with its
  // reference missing, on the run, its units and its attempts, and changes nothing else; marking a
  // log likewise; and marking all payloads makes every entry missing.
  lemma MarksAreExact(run: Run, ref: string)
    requires forall kind :: LevelsAgree(kind, run) && RefsAgree(OfRun(kind, run))
    ensures var r := MarkArtifactUnavailable(run, ref);
            OnlyPayloads(run, r) && MappedEverywhere(Artifacts, run, r, MissingIf(ref)) && MappedEverywhere(Logs, run, r, Unchanged())
    ensures var r := MarkLogUnavailable(run, ref);
            OnlyPayloads(run, r) && MappedEverywhere(Logs, run, r, MissingIf(ref)) && MappedEverywhere(Artifacts, run, r, Unchanged())
    ensures var r := MarkRunPayloadsUnavailable(run);
            OnlyPayloads(run, r) && MappedEverywhere(Logs, run, r, Missing()) && MappedEverywhere(Artifacts, run, r, Missing())
  {
    hide LevelsAgree, RefsAgree, KeepsRefs, IsMapped, MarkRef, MarkAll, MissingIf, Missing, Unchanged,
      MappedEverywhere, OnlyPayloads, WithRunPayloadUpdates;
    MarksMap(run.logs, ref);
    MarksMap(run.artifacts, ref);
    assert LevelsAgree(Logs, run) && LevelsAgree(Artifacts, run);
    UpdateTouchesPayloads(run, run.logs, MarkRef(run.artifacts, ref));
    UpdateMaps(Artifacts, run, run.logs, MarkRef(run.artifacts, ref), MissingIf(ref));
    UpdateMaps(Logs, run, run.logs, MarkRef(run.artifacts, ref), Unchanged());
    UpdateTouchesPayloads(run, MarkRef(run.logs, ref), run.artifacts);
    UpdateMaps(Logs, run, MarkRef(run.logs, ref), run.artifacts, MissingIf(ref));
    UpdateMaps(Artifacts, run, MarkRef(run.logs, ref), run.artifacts, Unchanged());
    UpdateTouchesPayloads(run, MarkAll(run.logs), MarkAll(run.artifacts));
    UpdateMaps(Logs, run, MarkAll(run.logs), MarkAll(run.artifacts), Missing());
    UpdateMaps(Artifacts, run, MarkAll(run.logs), MarkAll(run.artifacts), Missing());
  }

  // ----- without agreeing references

  // References stay in place, and entries whose reference passes the test are missing.
  ghost predicate IsMarked(before: seq<Payload>, after: seq<Payload>, marked: string -> bool) {
    |after| == |before| && forall i :: 0 <= i < |before| ==>
      after[i].ref == before[i].ref && (marked(before[i].ref) ==> after[i].status == MissingPayload)
  }

  ghost predicate MarkedEverywhere(kind: Kind, a: Run, b: Run, marked: string -> bool) {
    && IsMarked(OfRun(kind, a), OfRun(kind, b), marked)
    && |b.units| == |a.units|
    && (forall i :: 0 <= i < |a.units| ==> IsMarked(OfUnit(kind, a.units[i]), OfUnit(kind, b.units[i]), marked))
    && (forall i :: 0 <= i < |a.units| ==> |b.units[i].attempts| == |a.units[i].attempts|)
    && (forall i, j :: 0 <= i < |a.units| && 0 <= j < |a.units[i].attempts| ==>
          IsMarked(OfAttempt(kind, a.units[i].attempts[j]), OfAttempt(kind, b.units[i].attempts[j]), marked))
  }

  lemma LookupMarks(list: seq<Payload>, next: seq<Payload>, marked: string -> bool, current: seq<Payload>)
    requires IsMarked(list, next, marked) && forall p :: p in current ==> p in list
    ensures IsMarked(current, MapByRef(current, next), marked)
  {
    hide FindRef;
    forall i | 0 <= i < |current|
      ensures MapByRef(current, next)[i].ref == current[i].ref
      ensures marked(current[i].ref) ==> MapByRef(current, next)[i].status == MissingPayload
    {
      var p := current[i];
      FindRefIs(next, p.ref);
      assert p in current && p in list;
      var k :| 0 <= k < |list| && list[k] == p;
      assert next[k] in next && next[k].ref == p.ref;
      var q := FindRef(next, p.ref).value;
      var j :| 0 <= j < |next| && next[j] == q;
      assert list[j].ref == p.ref;
    }
  }

  // Even where two entries share a reference, every entry with a marked reference is missing
  // afterwards, on the run, its units and its attempts.
  lemma MarkedIsMissing(kind: Kind, run: Run, logs: seq<Payload>, artifacts: seq<Payload>, marked: string -> bool)
    requires LevelsAgree(kind, run) && IsMarked(OfRun(kind, run), NextOf(kind, logs, artifacts), marked)
    ensures MarkedEverywhere(kind, run, WithRunPayloadUpdates(run, logs, artifacts), marked)
  {
    hide MapByRef, IsMarked, LevelsAgree;
    var r, next := WithRunPayloadUpdates(run, logs, artifacts), NextOf(kind, logs, artifacts);
    forall i | 0 <= i < |run.units|
      ensures IsMarked(OfUnit(kind, run.units[i]), OfUnit(kind, r.units[i]), marked)
      ensures |r.units[i].attempts| == |run.units[i].attempts|
      ensures forall j :: 0 <= j < |run.units[i].attempts| ==>
                IsMarked(OfAttempt(kind, run.units[i].attempts[j]), OfAttempt(kind, r.units[i].attempts[j]), marked)
    {
      var u := run.units[i];
      AllListed(kind, run, u);
      LookupMarks(OfRun(kind, run), next, marked, OfUnit(kind, u));
      forall j | 0 <= j < |u.attempts|
        ensures IsMarked(OfAttempt(kind, u.attempts[j]), OfAttempt(kind, r.units[i].attempts[j]), marked)
      {
        LookupMarks(OfRun(kind, run), next, marked, OfAttempt(kind, u.attempts[j]));
        assert r.units[i].attempts[j] == WithAttemptPayloads(u.attempts[j], logs, artifacts);
      }
    }
  }

  lemma MarksAreMissing(run: Run, ref: string)
    requires LevelsAgree(Logs, run) && LevelsAgree(Artifacts, run)
    ensures MarkedEverywhere(Artifacts, run, MarkArtifactUnavailable(run, ref), x => x == ref)
    ensures MarkedEverywhere(Logs, run, MarkLogUnavailable(run, ref), x => x == ref)
    ensures MarkedEverywhere(Artifacts, run, MarkRunPayloadsUnavailable(run), x => true)
    ensures MarkedEverywhere(Logs, run, MarkRunPayloadsUnavailable(run), x => true)
  {
    hide LevelsAgree, MarkedEverywhere, WithRunPayloadUpdates;
    MarkedIsMissing(Artifacts, run, run.logs, MarkRef(run.artifacts, ref), x => x == ref);
    MarkedIsMissing(Logs, run, MarkRef(run.logs, ref), run.artifacts, x => x == ref);
    MarkedIsMissing(Artifacts, run, MarkAll(run.logs), MarkAll(run.artifacts), x => true);
    MarkedIsMissing(Logs, run, MarkAll(run.logs), MarkAll(run.artifacts), x => true);
  }

  // So in every state of a history of steps and marks with owned references, the next mark is exact.
  lemma MarksStayExact(w: World, owner: Owner, plan: Plan, runId: RunId, inputs: seq<NamedValue>, changes: seq<Change>, s: Stored,
                       ref: string)
    requires Sensible(plan) && Changes(w, owner, Created(plan, runId, inputs), changes, s)
    ensures var r := MarkArtifactUnavailable(s.run, ref);
            OnlyPayloads(s.run, r) && MappedEverywhere(Artifacts, s.run, r, MissingIf(ref)) && MappedEverywhere(Logs, s.run, r, Unchanged())
    ensures var r := MarkLogUnavailable(s.run, ref);
            OnlyPayloads(s.run, r) && MappedEverywhere(Logs, s.run, r, MissingIf(ref)) && MappedEverywhere(Artifacts, s.run, r, Unchanged())
    ensures var r := MarkRunPayloadsUnavailable(s.run);
            OnlyPayloads(s.run, r) && MappedEverywhere(Logs, s.run, r, Missing()) && MappedEverywhere(Artifacts, s.run, r, Missing())
  {
    hide Sensible, Changes, LevelsAgree, RefsAgree, MappedEverywhere, OnlyPayloads, Created, OfRun;
    forall kind
      ensures LevelsAgree(kind, s.run) && RefsAgree(OfRun(kind, s.run))
    {
      LevelsSurviveMarking(kind, w, owner, plan, runId, inputs, changes, s);
    }
    MarksAreExact(s.run, ref);
  }
}

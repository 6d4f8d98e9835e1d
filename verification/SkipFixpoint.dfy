// Skipping pending units until none is left to skip, and why the visiting order does not matter.

module SkipFixpoint {
  import opened Basics
  import opened Sorting
  import opened Plans
  import opened RunState
  import opened Decision

  datatype SkipRecord = SkipRecord(unitId: UnitId, reason: SkipReason)

  function SkippedUnit(u: UnitState, reason: SkipReason): UnitState {
    u.(status := Skipped, skipReason := Some(reason))
  }

  predicate IsPending(run: Run, id: UnitId) {
    FindUnit(run.units, id).Some? && FindUnit(run.units, id).value.status == Pending
  }

  function ApplySkip(run: Run, skip: SkipRecord): Run {
    if !IsPending(run, skip.unitId) then run
    else ReplaceUnit(run, SkippedUnit(FindUnit(run.units, skip.unitId).value, skip.reason))
  }

  // The unit is pending and the decision on it is to skip it for this reason.
  predicate Skips(run: Run, skip: SkipRecord) {
    && skip.unitId in PlanIds(run.plan)
    && IsPending(run, skip.unitId)
    && Decide(run, UnitWithId(run.plan, skip.unitId)) == Skip(skip.reason)
  }

  function ApplySkips(run: Run, skips: seq<SkipRecord>): Run
    decreases |skips|
  {
    if skips == [] then run else ApplySkips(ApplySkip(run, skips[0]), skips[1..])
  }

  // Each skip is justified by the state it is applied in.
  ghost predicate LegalSkips(run: Run, skips: seq<SkipRecord>)
    decreases |skips|
  {
    skips == [] || (Skips(run, skips[0]) && LegalSkips(ApplySkip(run, skips[0]), skips[1..]))
  }

  ghost predicate NothingToSkip(run: Run) {
    forall skip :: !Skips(run, skip)
  }

  // A skip sets the status and the reason of one unit and leaves everything else alone.
  lemma SkipOthers(run: Run, skip: SkipRecord, id: UnitId)
    requires Skips(run, skip)
    ensures FindUnit(ApplySkip(run, skip).units, id)
            == if id == skip.unitId then
                 Some(FindUnit(run.units, id).value.(status := Skipped, skipReason := Some(skip.reason)))
               else FindUnit(run.units, id)
  {
    hide Decide;
    FindReplaced(run.units, SkippedUnit(FindUnit(run.units, skip.unitId).value, skip.reason), id);
  }

  lemma SkipExtends(run: Run, skip: SkipRecord)
    requires Skips(run, skip)
    ensures Extends(run, ApplySkip(run, skip))
    ensures Aligned(run) ==> Aligned(ApplySkip(run, skip))
  {
    hide Decide, FindUnit, SummarizeProgress, ResolveOutputs;
    ReplaceIds(run.units, SkippedUnit(FindUnit(run.units, skip.unitId).value, skip.reason));
    forall id | FindUnit(run.units, id).Some? && Fixed(FindUnit(run.units, id).value)
      ensures FindUnit(ApplySkip(run, skip).units, id) == FindUnit(run.units, id)
    {
      SkipOthers(run, skip, id);
    }
  }

  // A skip decision outlives the skipping of any other unit.
  lemma SkipStable(run: Run, a: SkipRecord, b: SkipRecord)
    requires Skips(run, a) && Skips(run, b) && a.unitId != b.unitId
    ensures Skips(ApplySkip(run, b), a)
  {
    hide FindUnit, SummarizeProgress, ResolveOutputs, FirstBlocking, EvaluateConditions;
    SkipOthers(run, b, a.unitId);
    SkipExtends(run, b);
    DecisionStable(run, ApplySkip(run, b), UnitWithId(run.plan, a.unitId));
  }

  lemma ReplacesCommute(units: seq<UnitState>, a: UnitState, b: UnitState)
    requires a.unitId != b.unitId
    ensures ReplaceIn(ReplaceIn(units, a), b) == ReplaceIn(ReplaceIn(units, b), a)
  {
  }

  lemma SkipsCommute(run: Run, a: SkipRecord, b: SkipRecord)
    requires Skips(run, a) && Skips(run, b) && a.unitId != b.unitId
    ensures ApplySkip(ApplySkip(run, a), b) == ApplySkip(ApplySkip(run, b), a)
  {
    hide Decide, FindUnit, SummarizeProgress, ResolveOutputs, ReplaceIn;
    SkipOthers(run, a, b.unitId);
    SkipOthers(run, b, a.unitId);
    ReplacesCommute(run.units,
      SkippedUnit(FindUnit(run.units, a.unitId).value, a.reason), SkippedUnit(FindUnit(run.units, b.unitId).value, b.reason));
  }

  lemma {:induction false} SkipSurvives(run: Run, skips: seq<SkipRecord>, a: SkipRecord)
    requires LegalSkips(run, skips) && Skips(run, a) && a !in skips
    ensures Skips(ApplySkips(run, skips), a)
    decreases |skips|
  {
    hide Decide, FindUnit, ApplySkip;
    if skips != [] {
      SkipStable(run, a, skips[0]);
      SkipSurvives(ApplySkip(run, skips[0]), skips[1..], a);
    }
  }

  function Without(skips: seq<SkipRecord>, a: SkipRecord): seq<SkipRecord> {
    if skips == [] then [] else if skips[0] == a then skips[1..] else [skips[0]] + Without(skips[1..], a)
  }

  // A unit that can be skipped now may as well be skipped first.
  lemma {:induction false} SkipFirst(run: Run, skips: seq<SkipRecord>, a: SkipRecord)
    requires LegalSkips(run, skips) && Skips(run, a) && a in skips
    ensures LegalSkips(ApplySkip(run, a), Without(skips, a))
    ensures ApplySkips(ApplySkip(run, a), Without(skips, a)) == ApplySkips(run, skips)
    decreases |skips|
  {
    hide Decide, FindUnit, ApplySkip;
    if skips[0] != a {
      var b := skips[0];
      SkipsCommute(run, a, b);
      SkipStable(run, a, b);
      SkipStable(run, b, a);
      SkipFirst(ApplySkip(run, b), skips[1..], a);
      assert Without(skips, a)[1..] == Without(skips[1..], a);
    }
  }

  // The fixpoint is unique: any two exhaustive orders of skipping end in the same run, with the
  // same units skipped for the same reasons.
  lemma {:induction false} FixpointUnique(run: Run, s: seq<SkipRecord>, t: seq<SkipRecord>)
    requires LegalSkips(run, s) && NothingToSkip(ApplySkips(run, s))
    requires LegalSkips(run, t) && NothingToSkip(ApplySkips(run, t))
    ensures ApplySkips(run, s) == ApplySkips(run, t)
    decreases |s|
  {
    hide Decide, FindUnit, ApplySkip;
    if s == [] {
      assert t == [];
    } else {
      var a := s[0];
      if a !in t {
        SkipSurvives(run, t, a);
        assert false;
      }
      SkipFirst(run, t, a);
      FixpointUnique(ApplySkip(run, a), s[1..], Without(t, a));
    }
  }

  lemma {:induction false} SkipsAppend(run: Run, skips: seq<SkipRecord>, a: SkipRecord)
    requires LegalSkips(run, skips) && Skips(ApplySkips(run, skips), a)
    ensures LegalSkips(run, skips + [a])
    ensures ApplySkips(run, skips + [a]) == ApplySkip(ApplySkips(run, skips), a)
    decreases |skips|
  {
    hide Decide, FindUnit, ApplySkip;
    if skips != [] {
      SkipsAppend(ApplySkip(run, skips[0]), skips[1..], a);
      assert (skips + [a])[1..] == skips[1..] + [a];
    }
  }

  lemma ExtendsTransitive(a: Run, b: Run, c: Run)
    requires Extends(a, b) && Extends(b, c)
    ensures Extends(a, c)
  {
    hide FindUnit;
  }

  lemma {:induction false} SkipsExtend(run: Run, skips: seq<SkipRecord>)
    requires LegalSkips(run, skips)
    ensures Extends(run, ApplySkips(run, skips))
    ensures Aligned(run) ==> Aligned(ApplySkips(run, skips))
    decreases |skips|
  {
    hide Decide, FindUnit, ApplySkip;
    if skips != [] {
      SkipExtends(run, skips[0]);
      SkipsExtend(ApplySkip(run, skips[0]), skips[1..]);
      ExtendsTransitive(run, ApplySkip(run, skips[0]), ApplySkips(run, skips));
    }
  }

  // ----- choosing units by a test

  function Select(units: seq<UnitState>, test: UnitState -> bool): seq<UnitId> {
    if units == [] then []
    else (if test(units[0]) then [units[0].unitId] else []) + Select(units[1..], test)
  }

  lemma {:induction false} SelectMembers(units: seq<UnitState>, test: UnitState -> bool, id: UnitId)
    ensures id in Select(units, test) <==> exists u :: u in units && test(u) && u.unitId == id
  {
    if units != [] {
      SelectMembers(units[1..], test, id);
      assert units == [units[0]] + units[1..];
      assert forall u :: u in units <==> u == units[0] || u in units[1..];
    }
  }

  lemma {:induction false} SelectDistinct(units: seq<UnitState>, test: UnitState -> bool)
    requires Distinct(UnitIds(units))
    ensures Distinct(Select(units, test))
  {
    if units != [] {
      var ids := UnitIds(units);
      assert UnitIds(units[1..]) == ids[1..];
      SelectDistinct(units[1..], test);
      SelectMembers(units[1..], test, units[0].unitId);
      forall u | u in units[1..]
        ensures u.unitId != units[0].unitId
      {
        var i :| 0 <= i < |units[1..]| && units[1..][i] == u;
        assert ids[0] != ids[i + 1];
      }
    }
  }

  // The ids of the units passing a test, in id order.
  function SortedSelect(units: seq<UnitState>, test: UnitState -> bool): seq<UnitId> {
    Sort(StringLess, Select(units, test))
  }

  lemma SortedSelectIs(run: Run, test: UnitState -> bool)
    requires Aligned(run)
    ensures Distinct(SortedSelect(run.units, test)) && InOrder(SortedSelect(run.units, test))
    ensures forall id :: id in SortedSelect(run.units, test) <==>
                         FindUnit(run.units, id).Some? && test(FindUnit(run.units, id).value)
  {
    SelectDistinct(run.units, test);
    SortIds(Select(run.units, test));
    SortedInOrder(SortedSelect(run.units, test));
    StringOrder();
    SameMembers(SortedSelect(run.units, test), Select(run.units, test));
    forall id
      ensures id in SortedSelect(run.units, test) <==> FindUnit(run.units, id).Some? && test(FindUnit(run.units, id).value)
    {
      assert id in SortedSelect(run.units, test) <==> id in Elements(Select(run.units, test));
      SelectMembers(run.units, test, id);
      if u :| u in run.units && test(u) && u.unitId == id {
        FindMember(run, u);
      }
    }
  }

  // ----- the loop

  ghost function PendingIds(run: Run): set<UnitId> {
    set u | u in run.units && u.status == Pending :: u.unitId
  }

  lemma SkipShrinksPending(run: Run, skip: SkipRecord)
    requires Skips(run, skip)
    ensures PendingIds(ApplySkip(run, skip)) < PendingIds(run)
  {
    hide Decide, SummarizeProgress, ResolveOutputs;
    var u := FindUnit(run.units, skip.unitId).value;
    ReplaceMembers(run.units, SkippedUnit(u, skip.reason));
    assert u in run.units && u.unitId in PendingIds(run);
    assert skip.unitId !in PendingIds(ApplySkip(run, skip));
  }

  predicate IsPendingUnit(u: UnitState) {
    u.status == Pending
  }

  // The run reached from `start` by justified skips, with the units still pending.
  ghost predicate SkippingFrom(start: Run, run: Run, skips: seq<SkipRecord>) {
    Aligned(run) && LegalSkips(start, skips) && run == ApplySkips(start, skips)
  }

  lemma SkippingStep(start: Run, run: Run, skips: seq<SkipRecord>, a: SkipRecord)
    requires SkippingFrom(start, run, skips) && Skips(run, a)
    ensures SkippingFrom(start, ApplySkip(run, a), skips + [a])
    ensures ApplySkip(run, a).plan == run.plan
    ensures forall id :: id != a.unitId ==> FindUnit(ApplySkip(run, a).units, id) == FindUnit(run.units, id)
    ensures PendingIds(ApplySkip(run, a)) < PendingIds(run)
  {
    hide Decide, FindUnit, ApplySkip;
    SkipsAppend(start, skips, a);
    SkipExtends(run, a);
    SkipShrinksPending(run, a);
    forall id | id != a.unitId
      ensures FindUnit(ApplySkip(run, a).units, id) == FindUnit(run.units, id)
    {
      SkipOthers(run, a, id);
    }
  }

  lemma PassFoundNothing(run: Run, batch: seq<UnitId>)
    requires forall id :: id in batch <==> IsPending(run, id)
    requires forall j, reason :: 0 <= j < |batch| ==> !Skips(run, SkipRecord(batch[j], reason))
    ensures NothingToSkip(run)
  {
    hide Decide, FindUnit;
    forall skip: SkipRecord | skip.unitId in batch
      ensures !Skips(run, skip)
    {
      var j :| 0 <= j < |batch| && batch[j] == skip.unitId;
      assert !Skips(run, SkipRecord(batch[j], skip.reason));
    }
  }

  // What was skipped since then precedes, in id order, what is still to be looked at.
  ghost predicate AddedInOrder(skips: seq<SkipRecord>, since: nat, batch: seq<UnitId>, k: nat) {
    && (forall i, j :: since <= i < |skips| && k <= j < |batch| ==> Precedes(skips[i].unitId, batch[j]))
    && (forall i, j :: since <= i < j < |skips| ==> Precedes(skips[i].unitId, skips[j].unitId))
  }

  lemma AddedNext(skips: seq<SkipRecord>, since: nat, batch: seq<UnitId>, k: nat, skip: SkipRecord)
    requires AddedInOrder(skips, since, batch, k) && k < |batch| && skip.unitId == batch[k] && InOrder(batch)
    ensures AddedInOrder(skips, since, batch, k + 1) && AddedInOrder(skips + [skip], since, batch, k + 1)
  {
    hide Precedes;
  }

  lemma NoneAdded(skips: seq<SkipRecord>, batch: seq<UnitId>)
    ensures AddedInOrder(skips, |skips|, batch, 0)
  {
  }

  lemma StillInOrder(skips: seq<SkipRecord>, since: nat, batch: seq<UnitId>, k: nat)
    requires AddedInOrder(skips, since, batch, k)
    ensures AddedInOrder(skips, since, batch, k + 1)
    ensures forall i, j :: since <= i < j < |skips| ==> Precedes(skips[i].unitId, skips[j].unitId)
  {
    hide Precedes;
  }

  // One pass over the units that were pending when the pass began.
  method SkipPass(ghost start: Run, run0: Run, skips0: seq<SkipRecord>) returns (run: Run, skips: seq<SkipRecord>)
    requires SkippingFrom(start, run0, skips0)
    ensures SkippingFrom(start, run, skips)
    ensures |skips| >= |skips0| && skips[..|skips0|] == skips0
    ensures forall i, j :: |skips0| <= i < j < |skips| ==> Precedes(skips[i].unitId, skips[j].unitId)
    ensures |skips| == |skips0| ==> run == run0 && NothingToSkip(run)
    ensures |skips| > |skips0| ==> PendingIds(run) < PendingIds(run0)
  {
    hide Decide, FindUnit, ApplySkip, ApplySkips, LegalSkips, SortedSelect, Aligned, Precedes, AddedInOrder, InOrder;
    run, skips := run0, skips0;
    var batch := SortedSelect(run0.units, IsPendingUnit);
    SortedSelectIs(run0, IsPendingUnit);
    assert forall id :: id in batch <==> IsPending(run0, id);
    NoneAdded(skips0, batch);
    for k := 0 to |batch|
      invariant SkippingFrom(start, run, skips)
      invariant run.plan == run0.plan
      invariant forall j :: k <= j < |batch| ==> IsPending(run, batch[j])
      invariant |skips| >= |skips0| && skips[..|skips0|] == skips0
      invariant AddedInOrder(skips, |skips0|, batch, k)
      invariant |skips| == |skips0| ==> run == run0
      invariant |skips| == |skips0| ==> forall j, reason :: 0 <= j < k ==> !Skips(run0, SkipRecord(batch[j], reason))
      invariant |skips| > |skips0| ==> PendingIds(run) < PendingIds(run0)
    {
      var id := batch[k];
      FindPlanned(run, id);
      var decision := Decide(run, UnitWithId(run.plan, id));
      StillInOrder(skips, |skips0|, batch, k);
      if decision.Skip? {
        var skip := SkipRecord(id, decision.reason);
        SkippingStep(start, run, skips, skip);
        AddedNext(skips, |skips0|, batch, k, skip);
        run := ApplySkip(run, skip);
        skips := skips + [skip];
      }
    }
    StillInOrder(skips, |skips0|, batch, |batch|);
    if |skips| == |skips0| {
      PassFoundNothing(run0, batch);
    }
  }

  // Skips until nothing is left to skip; `skips` lists what was skipped, in order, and why.
  method EvaluatePendingUnits(run0: Run) returns (run: Run, skips: seq<SkipRecord>)
    requires Aligned(run0)
    ensures LegalSkips(run0, skips) && run == ApplySkips(run0, skips) && NothingToSkip(run)
  {
    hide Decide, FindUnit, ApplySkip, Skips;
    run, skips := run0, [];
    var changed := true;
    while changed
      invariant SkippingFrom(run0, run, skips)
      invariant !changed ==> NothingToSkip(run)
      decreases PendingIds(run), changed
    {
      var next, more := SkipPass(run0, run, skips);
      changed := |more| > |skips|;
      run, skips := next, more;
    }
  }
}

// The dashboard's layering of a run's units into stages.

module Stages {
  import opened Basics
  import opened Graphs

  datatype StageUnit = StageUnit(unitId: UnitId, dependencies: seq<UnitId>)

  // The order of units inside a stage is presentation only and is not modelled.
  datatype Stage = Stage(depth: nat, units: set<UnitId>)

  // A later unit with the same id replaces an earlier one.
  function ById(units: seq<StageUnit>): map<UnitId, StageUnit> {
    if units == [] then map[]
    else
      var last := units[|units| - 1];
      ById(units[..|units| - 1])[last.unitId := last]
  }

  ghost function DependencyGraph(units: seq<StageUnit>): Graph {
    var byId := ById(units);
    map v | v in byId :: Elements(byId[v].dependencies)
  }

  // The last unit listed under an id is the one that counts.
  ghost predicate LastListed(units: seq<StageUnit>, u: StageUnit) {
    exists i :: 0 <= i < |units| && units[i] == u && forall j :: i < j < |units| ==> units[j].unitId != u.unitId
  }

  lemma LastListedMore(front: seq<StageUnit>, last: StageUnit, u: StageUnit)
    ensures LastListed(front + [last], last)
    ensures LastListed(front, u) && last.unitId != u.unitId ==> LastListed(front + [last], u)
  {
    var units := front + [last];
    assert units[|front|] == last;
    if i :| 0 <= i < |front| && front[i] == u && forall j :: i < j < |front| ==> front[j].unitId != u.unitId {
      assert units[i] == u;
    }
  }

  lemma {:induction false} ByIdMeans(units: seq<StageUnit>, v: UnitId)
    ensures v in ById(units) <==> exists i :: 0 <= i < |units| && units[i].unitId == v
    ensures v in ById(units) ==> ById(units)[v].unitId == v && LastListed(units, ById(units)[v])
  {
    hide LastListed;
    if units != [] {
      var front, last := units[..|units| - 1], units[|units| - 1];
      ByIdMeans(front, v);
      assert units == front + [last];
      assert forall i :: 0 <= i < |front| ==> units[i] == front[i];
      assert units[|front|] == last;
      LastListedMore(front, last, if v in ById(front) then ById(front)[v] else last);
    }
  }

  // The graph that is layered: each listed id, with the dependencies of its last listed unit.
  lemma GraphMeans(units: seq<StageUnit>, v: UnitId)
    ensures v in DependencyGraph(units) <==> exists i :: 0 <= i < |units| && units[i].unitId == v
    ensures v in DependencyGraph(units) ==>
              exists u: StageUnit :: u.unitId == v && LastListed(units, u) && DependencyGraph(units)[v] == Elements(u.dependencies)
  {
    hide LastListed;
    ByIdMeans(units, v);
  }

  // Units whose longest dependency chain visits exactly n units.
  ghost function AtDepth(g: Graph, n: nat): set<UnitId> {
    set v | v in g.Keys && !Doomed(g, v) && Rank(g, v) == n
  }

  ghost function DoomedUnits(g: Graph): set<UnitId> {
    set v | v in g.Keys && Doomed(g, v)
  }

  lemma LayerIsDepth(g: Graph, k: nat)
    ensures Level(g, k + 1) - Level(g, k) == AtDepth(g, k + 1)
  {
    LevelMonotone(g, k);
    forall v | v in g
      ensures v in Level(g, k + 1) - Level(g, k) <==> !Doomed(g, v) && Rank(g, v) == k + 1
    {
      if v in Level(g, k + 1) - Level(g, k) {
        LevelRank(g, v, k + 1);
        LayeredNotDoomed(g, v);
        if Rank(g, v) <= k {
          LevelUpTo(g, Rank(g, v), k);
          assert false;
        }
      } else if !Doomed(g, v) && Rank(g, v) == k + 1 {
        if v !in Level(g, |g|) {
          UnlayeredIsDoomed(g, v);
          assert false;
        }
      }
    }
  }

  lemma RestIsDoomed(g: Graph, k: nat)
    requires Level(g, k + 1) == Level(g, k)
    ensures g.Keys - Level(g, k) == DoomedUnits(g)
  {
    LevelSettles(g);
    if k <= |g| {
      LevelStable(g, k, |g|);
    } else {
      LevelStable(g, |g|, k);
    }
    forall v | v in g
      ensures v !in Level(g, |g|) <==> Doomed(g, v)
    {
      if v in Level(g, |g|) {
        LayeredNotDoomed(g, v);
      } else {
        UnlayeredIsDoomed(g, v);
      }
    }
  }

  function ReadyNow(pending: map<UnitId, StageUnit>, completed: set<UnitId>): set<UnitId> {
    set v | v in pending && Elements(pending[v].dependencies) <= completed
  }

  // What the loop has left to place is what the first layers do not hold.
  ghost predicate Unplaced(g: Graph, pending: map<UnitId, StageUnit>, completed: set<UnitId>, layer: set<UnitId>) {
    && completed == layer
    && pending.Keys == g.Keys - completed
    && forall v :: v in pending ==> Elements(pending[v].dependencies) == g[v]
  }

  lemma ReadyIsNextLayer(g: Graph, pending: map<UnitId, StageUnit>, completed: set<UnitId>, k: nat)
    requires Unplaced(g, pending, completed, Level(g, k))
    ensures ReadyNow(pending, completed) == AtDepth(g, k + 1)
    ensures completed + ReadyNow(pending, completed) == Level(g, k + 1)
  {
    LevelMonotone(g, k);
    LayerIsDepth(g, k);
    ReadyIsUnplaced(g, pending, completed, Level(g, k));
    var next := set v | v in g.Keys && g[v] <= Level(g, k);
    assert Level(g, k + 1) == next;
    assert ReadyNow(pending, completed) == next - completed;
  }

  lemma ReadyIsUnplaced(g: Graph, pending: map<UnitId, StageUnit>, completed: set<UnitId>, layer: set<UnitId>)
    requires Unplaced(g, pending, completed, layer)
    ensures ReadyNow(pending, completed) == set v | v in g.Keys - layer && g[v] <= layer
  {
  }

  lemma PlaceReady(g: Graph, pending: map<UnitId, StageUnit>, completed: set<UnitId>, layer: set<UnitId>)
    requires Unplaced(g, pending, completed, layer)
    ensures var ready := ReadyNow(pending, completed);
            Unplaced(g, pending - ready, completed + ready, layer + ready)
  {
  }

  ghost predicate Layered(g: Graph, stages: seq<Stage>) {
    forall i :: 0 <= i < |stages| ==> stages[i] == Stage(i, AtDepth(g, i + 1)) && stages[i].units != {}
  }

  // Stage i holds the units whose longest dependency chain visits i + 1 units. One last stage holds
  // the units that reach a cycle or an unknown id, and exists only when there are such units.
  ghost predicate FullyStaged(g: Graph, stages: seq<Stage>) {
    var n := if DoomedUnits(g) == {} then |stages| else |stages| - 1;
    && 0 <= n
    && Layered(g, stages[..n])
    && (n < |stages| ==> stages[n] == Stage(n, DoomedUnits(g)))
    && (forall v :: v in g && !Doomed(g, v) ==> 1 <= Rank(g, v) <= n)
  }

  lemma NoneLeft(g: Graph, stages: seq<Stage>)
    requires Layered(g, stages) && g.Keys <= Level(g, |stages|)
    ensures FullyStaged(g, stages)
  {
    LevelMonotone(g, |stages|);
    SettledLayers(g, |stages|);
    assert stages[..|stages|] == stages;
  }

  lemma OnlyDoomedLeft(g: Graph, stages: seq<Stage>, rest: set<UnitId>)
    requires Layered(g, stages) && rest != {} && rest == g.Keys - Level(g, |stages|)
    requires Level(g, |stages| + 1) == Level(g, |stages|)
    ensures FullyStaged(g, stages + [Stage(|stages|, rest)])
  {
    SettledLayers(g, |stages|);
    assert (stages + [Stage(|stages|, rest)])[..|stages|] == stages;
  }

  ghost predicate Progress(g: Graph, pending: map<UnitId, StageUnit>, completed: set<UnitId>, stages: seq<Stage>) {
    Unplaced(g, pending, completed, Level(g, |stages|)) && Layered(g, stages)
  }

  lemma StageStep(g: Graph, pending: map<UnitId, StageUnit>, completed: set<UnitId>, stages: seq<Stage>)
    requires Progress(g, pending, completed, stages)
    ensures var ready := ReadyNow(pending, completed);
            && ready <= pending.Keys
            && (ready != {} ==> Progress(g, pending - ready, completed + ready, stages + [Stage(|stages|, ready)]))
            && (ready == {} && pending.Keys != {} ==> FullyStaged(g, stages + [Stage(|stages|, pending.Keys)]))
  {
    var ready := ReadyNow(pending, completed);
    ReadyIsNextLayer(g, pending, completed, |stages|);
    PlaceReady(g, pending, completed, Level(g, |stages|));
    assert completed + ready == Level(g, |stages| + 1);
    if ready == {} && pending.Keys != {} {
      assert completed + ready == completed;
      OnlyDoomedLeft(g, stages, pending.Keys);
    }
  }

  method DeriveStages(units: seq<StageUnit>) returns (stages: seq<Stage>)
    ensures FullyStaged(DependencyGraph(units), stages)
  {
    ghost var g := DependencyGraph(units);
    var pending := ById(units);
    var completed: set<UnitId> := {};
    stages := [];

    while pending.Keys != {}
      invariant Progress(g, pending, completed, stages)
      decreases |pending.Keys|
    {
      var ready := ReadyNow(pending, completed);
      StageStep(g, pending, completed, stages);
      if ready == {} {
        stages := stages + [Stage(|stages|, pending.Keys)];
        return;
      }

      SubsetCardinality(pending.Keys - ready, pending.Keys);
      pending := pending - ready;
      completed := completed + ready;
      stages := stages + [Stage(|stages|, ready)];
    }
    NoneLeft(g, stages);
  }

  lemma SettledLayers(g: Graph, k: nat)
    requires Level(g, k + 1) == Level(g, k)
    ensures g.Keys - Level(g, k) == DoomedUnits(g)
    ensures forall v :: v in g && !Doomed(g, v) ==> 1 <= Rank(g, v) <= k
  {
    RestIsDoomed(g, k);
    forall v | v in g && !Doomed(g, v)
      ensures 1 <= Rank(g, v) <= k
    {
      assert v !in g.Keys - Level(g, k);
      LevelRank(g, v, k);
    }
  }

  // A stage number is the length of a longest chain of dependencies, and the last stage of the
  // fallback branch is unreachable when every dependency is known and none is circular.
  lemma StageIsLongestChain(g: Graph, v: UnitId) returns (p: seq<UnitId>)
    requires Closed(g) && !Cyclic(g) && v in g
    ensures DoomedUnits(g) == {} && v in AtDepth(g, Rank(g, v))
    ensures IsPath(g, p) && p[0] == v && |p| == Rank(g, v)
    ensures forall q :: IsPath(g, q) && q[0] == v ==> |q| <= Rank(g, v)
  {
    AcyclicIsLayered(g);
    forall u | u in g
      ensures !Doomed(g, u)
    {
      LayeredNotDoomed(g, u);
    }
    p := RankIsLongestWalk(g, v);
  }
}

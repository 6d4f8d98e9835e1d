// The planner's depth-first cycle check over the declared dependencies.

module CycleCheck {
  import opened Basics
  import opened Graphs

  // Each declared unit links to the targets of its outgoing edges.
  function SuccessorGraph(ids: seq<UnitId>, edges: seq<Edge>): Graph {
    map v | v in Elements(ids) :: Targets(edges, v)
  }

  function Targets(edges: seq<Edge>, v: UnitId): set<UnitId> {
    set e | e in edges && e.from == v :: e.to
  }

  lemma TargetsAppend(edges: seq<Edge>, e: Edge, v: UnitId)
    ensures Targets(edges + [e], v) == Targets(edges, v) + if e.from == v then {e.to} else {}
  {
    assert forall x :: x in edges + [e] <==> x in edges || x == e;
  }

  // Each unit in the list comes after all of its successors.
  ghost predicate Topological(g: Graph, order: seq<UnitId>) {
    forall i :: 0 <= i < |order| && order[i] in g ==> g[order[i]] <= Elements(order[..i])
  }

  lemma {:induction false} TopologicalDescends(g: Graph, order: seq<UnitId>, p: seq<UnitId>, k: nat, j: nat) returns (i: nat)
    requires Topological(g, order) && IsPath(g, p)
    requires k < |order| && p[0] == order[k] && j < |p|
    ensures i + j <= k && p[j] == order[i]
  {
    if j == 0 {
      i := k;
    } else {
      var h := TopologicalDescends(g, order, p, k, j - 1);
      assert p[j] in Elements(order[..h]);
      i :| 0 <= i < h && order[i] == p[j];
    }
  }

  lemma {:induction false} NoClosedPathFrom(g: Graph, order: seq<UnitId>, p: seq<UnitId>, k: nat)
    requires Topological(g, order) && IsClosedPath(g, p)
    requires k < |order| && p[0] == order[k]
    ensures false
  {
    var i := TopologicalDescends(g, order, p, k, |p| - 1);
    NoClosedPathFrom(g, order, p, i);
  }

  lemma TopologicalIsAcyclic(g: Graph, order: seq<UnitId>)
    requires Topological(g, order) && g.Keys <= Elements(order)
    ensures !Cyclic(g)
  {
    forall p | IsClosedPath(g, p)
      ensures false
    {
      assert p[0] in g;
      var k :| 0 <= k < |order| && order[k] == p[0];
      NoClosedPathFrom(g, order, p, k);
    }
  }

  lemma TopologicalAppend(g: Graph, order: seq<UnitId>, v: UnitId)
    requires Topological(g, order)
    requires v in g ==> g[v] <= Elements(order)
    ensures Topological(g, order + [v])
  {
    var next := order + [v];
    forall i | 0 <= i < |next| && next[i] in g
      ensures g[next[i]] <= Elements(next[..i])
    {
      assert next[..i] == order[..i];
    }
  }

  lemma StackCloses(g: Graph, stack: seq<UnitId>, v: UnitId)
    requires IsPath(g, stack) && v in stack
    requires stack[|stack| - 1] in g && v in g[stack[|stack| - 1]]
    ensures Cyclic(g)
  {
    var i :| 0 <= i < |stack| && stack[i] == v;
    PathSuffix(g, stack, i);
    assert IsClosedPath(g, stack[i..] + [v]);
  }

  // The two sets of the search, with the stack of open visits and the order of closed ones as ghosts.
  class CycleDetector {
    const adjacency: map<UnitId, seq<UnitId>>
    var visiting: set<UnitId>
    var visited: set<UnitId>
    ghost var stack: seq<UnitId>
    ghost var finished: seq<UnitId>

    ghost function Links(): Graph {
      map v | v in adjacency :: Elements(adjacency[v])
    }

    ghost function Universe(): set<UnitId> {
      adjacency.Keys + set v, w | v in adjacency && w in adjacency[v] :: w
    }

    ghost predicate Valid()
      reads this
    {
      && Elements(stack) == visiting
      && (stack == [] || IsPath(Links(), stack))
      && Elements(finished) == visited
      && Topological(Links(), finished)
      && visiting !! visited
      && visiting <= Universe()
    }

    constructor (adjacency: map<UnitId, seq<UnitId>>)
      ensures Valid() && this.adjacency == adjacency
      ensures visiting == {} && visited == {} && stack == []
    {
      this.adjacency := adjacency;
      visiting, visited := {}, {};
      stack, finished := [], [];
    }

    method Visit(unitId: UnitId) returns (cycle: bool)
      requires Valid()
      requires unitId in Universe()
      requires stack != [] ==> stack[|stack| - 1] in adjacency && unitId in adjacency[stack[|stack| - 1]]
      modifies this
      ensures cycle ==> Cyclic(Links())
      ensures !cycle ==> Valid() && stack == old(stack) && visiting == old(visiting)
      ensures !cycle ==> unitId in visited && old(visited) <= visited
      decreases Universe() - visiting
    {
      if unitId in visiting {
        StackCloses(Links(), stack, unitId);
        return true;
      }
      if unitId in visited {
        return false;
      }

      ElementsAppend(stack, unitId);
      visiting := visiting + {unitId};
      stack := stack + [unitId];
      var successors := if unitId in adjacency then adjacency[unitId] else [];
      for k := 0 to |successors|
        invariant Valid()
        invariant stack == old(stack) + [unitId] && visiting == old(visiting) + {unitId}
        invariant old(visited) <= visited
        invariant Elements(successors[..k]) <= visited
      {
        assert unitId in adjacency && successors[k] in adjacency[unitId];
        var found := Visit(successors[k]);
        if found {
          return true;
        }
        ElementsPrefix(successors, k);
      }
      assert successors[..|successors|] == successors;
      ElementsAppend(finished, unitId);
      TopologicalAppend(Links(), finished, unitId);
      visiting := visiting - {unitId};
      stack := stack[..|stack| - 1];
      visited := visited + {unitId};
      finished := finished + [unitId];
      assert stack == old(stack) && visiting == old(visiting);
      return false;
    }
  }

  // True exactly when the declared dependencies, read as links from declared units, have a closed path.
  method HasCycle(ids: seq<UnitId>, edges: seq<Edge>) returns (cycle: bool)
    ensures cycle <==> Cyclic(SuccessorGraph(ids, edges))
  {
    var adjacency: map<UnitId, seq<UnitId>> := map[];
    for i := 0 to |ids|
      invariant adjacency.Keys == Elements(ids[..i])
      invariant forall v :: v in adjacency ==> adjacency[v] == []
    {
      adjacency := adjacency[ids[i] := []];
      ElementsPrefix(ids, i);
    }
    assert ids[..|ids|] == ids;
    for i := 0 to |edges|
      invariant adjacency.Keys == Elements(ids)
      invariant forall v :: v in adjacency ==> Elements(adjacency[v]) == Targets(edges[..i], v)
    {
      var e := edges[i];
      forall v
        ensures Targets(edges[..i + 1], v) == Targets(edges[..i], v) + if e.from == v then {e.to} else {}
      {
        assert edges[..i + 1] == edges[..i] + [e];
        TargetsAppend(edges[..i], e, v);
      }
      if e.from in adjacency {
        ElementsAppend(adjacency[e.from], e.to);
        adjacency := adjacency[e.from := adjacency[e.from] + [e.to]];
      }
    }
    assert edges[..|edges|] == edges;

    var detector := new CycleDetector(adjacency);
    assert detector.Links() == SuccessorGraph(ids, edges);
    for i := 0 to |ids|
      invariant detector.Valid() && detector.stack == [] && detector.visiting == {}
      invariant Elements(ids[..i]) <= detector.visited
    {
      var found := detector.Visit(ids[i]);
      if found {
        return true;
      }
      ElementsPrefix(ids, i);
    }
    TopologicalIsAcyclic(detector.Links(), detector.finished);
    return false;
  }
}

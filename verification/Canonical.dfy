// Building the canonical plan, and what an accepted plan guarantees.

module Canonical {
  import opened Basics
  import opened Graphs
  import opened Sorting
  import opened Plans
  import opened CycleCheck
  import opened Planner

  predicate DeclarationLess(a: UnitDeclaration, b: UnitDeclaration) {
    StringLess(a.unitId, b.unitId)
  }

  function Declarations(units: seq<PlanUnit>): seq<UnitDeclaration> {
    seq(|units|, i requires 0 <= i < |units| => units[i].declaration)
  }

  function Sources(edges: seq<Edge>, v: UnitId): set<UnitId> {
    set e | e in edges && e.to == v :: e.from
  }

  // The plan holds the definition's units and edges in sorted order, and each unit's dependency
  // list is the sorted list of the sources of its incoming edges.
  ghost predicate PlanOf(def: Definition, plan: Plan) {
    && plan.inputs == def.inputs && plan.outputs == def.outputs && plan.trigger == def.trigger
    && multiset(plan.dependencies) == multiset(def.dependencies)
    && StrictlySorted(EdgeLess, plan.dependencies)
    && multiset(Declarations(plan.units)) == multiset(def.units)
    && StrictlySorted(DeclarationLess, Declarations(plan.units))
    && forall i :: 0 <= i < |plan.units| ==> DependsOnSources(def, plan.units[i])
  }

  ghost predicate DependsOnSources(def: Definition, unit: PlanUnit) {
    && StrictlySorted(StringLess, unit.dependencies)
    && Elements(unit.dependencies) == Sources(def.dependencies, unit.Id())
  }

  lemma EdgeLessMeans(e: Edge, f: Edge)
    ensures EdgeLess(e, f) <==> Precedes(e.from, f.from) || (e.from == f.from && Precedes(e.to, f.to))
  {
    StringLessMeans(e.from, f.from);
    StringLessMeans(e.to, f.to);
  }

  // A plan lists its units by id, its edges by source and then by target, and each unit's
  // dependencies by id.
  lemma PlanIsSorted(def: Definition, plan: Plan)
    requires PlanOf(def, plan)
    ensures InOrder(PlanIds(plan))
    ensures forall u :: u in plan.units ==> InOrder(u.dependencies)
    ensures var es := plan.dependencies;
            forall i, j :: 0 <= i < j < |es| ==>
              Precedes(es[i].from, es[j].from) || (es[i].from == es[j].from && Precedes(es[i].to, es[j].to))
  {
    hide StringLess, Precedes;
    forall i, j | 0 <= i < j < |plan.units|
      ensures StringLess(PlanIds(plan)[i], PlanIds(plan)[j])
    {
      assert DeclarationLess(Declarations(plan.units)[i], Declarations(plan.units)[j]);
    }
    SortedInOrder(PlanIds(plan));
    forall u | u in plan.units
      ensures InOrder(u.dependencies)
    {
      assert DependsOnSources(def, u);
      SortedInOrder(u.dependencies);
    }
    var es := plan.dependencies;
    forall i, j | 0 <= i < j < |es|
      ensures Precedes(es[i].from, es[j].from) || (es[i].from == es[j].from && Precedes(es[i].to, es[j].to))
    {
      EdgeLessMeans(es[i], es[j]);
    }
  }

  ghost predicate Permuted(a: Definition, b: Definition) {
    && multiset(a.units) == multiset(b.units)
    && multiset(a.dependencies) == multiset(b.dependencies)
    && a.inputs == b.inputs && a.outputs == b.outputs && a.trigger == b.trigger
  }

  lemma SourcesPermuted(a: seq<Edge>, b: seq<Edge>, v: UnitId)
    requires multiset(a) == multiset(b)
    ensures Sources(a, v) == Sources(b, v)
  {
    SameMembers(a, b);
    assert forall e :: e in a <==> e in Elements(a);
    assert forall e :: e in b <==> e in Elements(b);
  }

  lemma DeclarationOrder()
    ensures StrictOrder(DeclarationLess)
  {
    StringOrder();
  }

  // Planning is canonical: reordering units and dependencies does not change the plan.
  lemma PlanIsCanonical(a: Definition, p: Plan, b: Definition, q: Plan)
    requires Permuted(a, b)
    requires PlanOf(a, p) && PlanOf(b, q)
    ensures p == q
  {
    EdgeOrder();
    SortedUnique(EdgeLess, p.dependencies, q.dependencies);
    DeclarationOrder();
    SortedUnique(DeclarationLess, Declarations(p.units), Declarations(q.units));
    assert |p.units| == |Declarations(p.units)| == |q.units|;
    forall i | 0 <= i < |p.units|
      ensures p.units[i] == q.units[i]
    {
      assert Declarations(p.units)[i] == Declarations(q.units)[i];
      SourcesPermuted(a.dependencies, b.dependencies, p.units[i].Id());
      assert DependsOnSources(a, p.units[i]) && DependsOnSources(b, q.units[i]);
      SortedListing(p.units[i].dependencies, q.units[i].dependencies);
    }
  }

  // The edge list of a plan and the per-unit dependency lists carry the same relation.
  lemma EdgesMatchLists(def: Definition, plan: Plan, u: PlanUnit, d: UnitId)
    requires PlanOf(def, plan) && u in plan.units
    ensures d in u.dependencies <==> Edge(d, u.Id()) in plan.dependencies
  {
    SameMembers(plan.dependencies, def.dependencies);
    var i :| 0 <= i < |plan.units| && plan.units[i] == u;
    assert DependsOnSources(def, u);
    assert d in u.dependencies <==> d in Elements(u.dependencies);
    assert d in Sources(def.dependencies, u.Id()) <==> Edge(d, u.Id()) in Elements(def.dependencies);
    assert Edge(d, u.Id()) in plan.dependencies <==> Edge(d, u.Id()) in Elements(plan.dependencies);
  }

  lemma SameDeclarations(def: Definition, plan: Plan)
    requires PlanOf(def, plan)
    ensures forall u :: u in plan.units ==> u.declaration in def.units
    ensures Elements(PlanIds(plan)) == Elements(Ids(def))
    ensures Sensible(plan)
  {
    var ds := Declarations(plan.units);
    SameMembers(ds, def.units);
    assert forall u :: u in ds <==> u in Elements(ds);
    assert forall u :: u in def.units <==> u in Elements(def.units);
    forall u | u in plan.units
      ensures u.declaration in def.units
    {
      var i :| 0 <= i < |plan.units| && plan.units[i] == u;
      assert ds[i] == u.declaration;
    }
    forall id
      ensures id in PlanIds(plan) <==> id in Ids(def)
    {
      if id in PlanIds(plan) {
        var i :| 0 <= i < |plan.units| && PlanIds(plan)[i] == id;
        var j :| 0 <= j < |def.units| && def.units[j] == plan.units[i].declaration;
        assert Ids(def)[j] == id;
      }
      if id in Ids(def) {
        var j :| 0 <= j < |def.units| && Ids(def)[j] == id;
        assert def.units[j] in ds;
        var i :| 0 <= i < |ds| && ds[i] == def.units[j];
        assert PlanIds(plan)[i] == id;
      }
    }
    StringOrder();
    forall i, j | 0 <= i < j < |plan.units|
      ensures PlanIds(plan)[i] != PlanIds(plan)[j]
    {
      assert DeclarationLess(ds[i], ds[j]);
    }
  }

  lemma GraphsConverse(def: Definition, plan: Plan)
    requires PlanOf(def, plan) && EdgesKnown(def)
    ensures Closed(DependencyGraph(plan))
    ensures Converse(DependencyGraph(plan), SuccessorGraph(Ids(def), def.dependencies))
  {
    SameDeclarations(def, plan);
    var g, h := DependencyGraph(plan), SuccessorGraph(Ids(def), def.dependencies);
    assert g.Keys == Elements(PlanIds(plan)) && h.Keys == Elements(Ids(def));
    forall v | v in g
      ensures g[v] == Sources(def.dependencies, v)
    {
      var u := UnitWithId(plan, v);
      var i :| 0 <= i < |plan.units| && plan.units[i] == u;
      assert DependsOnSources(def, u);
    }
    forall v, w | v in g && w in g[v]
      ensures w in g
    {
      var e :| e in def.dependencies && e.to == v && e.from == w;
      assert w in Elements(Ids(def));
    }
    forall v, w | v in g && w in g
      ensures w in g[v] <==> v in h[w]
    {
      assert w in Sources(def.dependencies, v) <==> Edge(w, v) in def.dependencies;
      assert v in Targets(def.dependencies, w) <==> Edge(w, v) in def.dependencies;
    }
  }

  // The planner's checks give the orchestrator everything it relies on.
  lemma PlanIsAccepted(def: Definition, plan: Plan)
    requires Structured(def) && PlanOf(def, plan)
    ensures Accepted(plan)
  {
    SameDeclarations(def, plan);
    GraphsConverse(def, plan);
    if Cyclic(DependencyGraph(plan)) {
      ConverseCycle(DependencyGraph(plan), SuccessorGraph(Ids(def), def.dependencies));
      assert false;
    }
    forall u | u in plan.units
      ensures forall c :: c in u.declaration.conditions && c.UpstreamStatus? ==> c.unitId in u.dependencies
      ensures forall s :: s in u.declaration.inputs && s.from.UnitOutput? ==> s.from.unitId in u.dependencies
    {
      assert UnitOk(def, ByEdge(def), u.declaration);
      forall d | Edge(d, u.Id()) in def.dependencies
        ensures d in u.dependencies
      {
        SameMembers(plan.dependencies, def.dependencies);
        assert Edge(d, u.Id()) in Elements(plan.dependencies);
        EdgesMatchLists(def, plan, u, d);
      }
    }
  }

  lemma SourcesAppend(edges: seq<Edge>, e: Edge, v: UnitId)
    ensures Sources(edges + [e], v) == Sources(edges, v) + if e.to == v then {e.from} else {}
  {
    assert forall x :: x in edges + [e] <==> x in edges || x == e;
  }

  // The sources of each unit's incoming edges, gathered edge by edge.
  method GatherSources(ids: seq<UnitId>, edges: seq<Edge>) returns (byUnit: map<UnitId, seq<UnitId>>)
    requires Distinct(edges)
    ensures byUnit.Keys == Elements(ids)
    ensures forall v :: v in byUnit ==> Elements(byUnit[v]) == Sources(edges, v) && Distinct(byUnit[v])
  {
    byUnit := map v | v in ids :: [];
    for i := 0 to |edges|
      invariant byUnit.Keys == Elements(ids)
      invariant forall v :: v in byUnit ==> Elements(byUnit[v]) == Sources(edges[..i], v) && Distinct(byUnit[v])
    {
      var e := edges[i];
      assert edges[..i + 1] == edges[..i] + [e];
      forall v
        ensures Sources(edges[..i + 1], v) == Sources(edges[..i], v) + if e.to == v then {e.from} else {}
      {
        SourcesAppend(edges[..i], e, v);
      }
      if e.to in byUnit {
        assert e.from !in Sources(edges[..i], e.to);
        assert e.from !in Elements(byUnit[e.to]);
        ElementsAppend(byUnit[e.to], e.from);
        byUnit := byUnit[e.to := byUnit[e.to] + [e.from]];
      }
    }
    assert edges[..|edges|] == edges;
  }

  lemma PlannedUnit(def: Definition, sources: seq<UnitId>, u: UnitDeclaration)
    requires Distinct(sources) && Elements(sources) == Sources(def.dependencies, u.unitId)
    ensures DependsOnSources(def, PlanUnit(u, Sort(StringLess, sources)))
  {
    SortIds(sources);
    SameMembers(Sort(StringLess, sources), sources);
  }

  lemma SortedSources(def: Definition, sorted: seq<Edge>)
    requires multiset(sorted) == multiset(def.dependencies)
    ensures forall v :: Sources(sorted, v) == Sources(def.dependencies, v)
  {
    forall v
      ensures Sources(sorted, v) == Sources(def.dependencies, v)
    {
      SourcesPermuted(sorted, def.dependencies, v);
    }
  }

  lemma SortedEdges(edges: seq<Edge>)
    requires Distinct(edges)
    ensures StrictlySorted(EdgeLess, Sort(EdgeLess, edges)) && Distinct(Sort(EdgeLess, edges))
  {
    SortEdges(edges);
    EdgeOrder();
  }

  method CreatePlan(def: Definition) returns (plan: Plan)
    requires Distinct(Ids(def)) && Distinct(def.dependencies)
    ensures PlanOf(def, plan)
  {
    var dependencies := Sort(EdgeLess, def.dependencies);
    SortedEdges(def.dependencies);
    var byUnit := GatherSources(Ids(def), dependencies);
    SortedSources(def, dependencies);

    var sorted := Sort(DeclarationLess, def.units);
    SortDeclarations(def);
    SameMembers(sorted, def.units);
    var units := PlanUnits(def, sorted, byUnit);
    plan := Plan(units, dependencies, def.inputs, def.outputs, def.trigger);
  }

  method PlanUnits(def: Definition, sorted: seq<UnitDeclaration>, byUnit: map<UnitId, seq<UnitId>>) returns (units: seq<PlanUnit>)
    requires Elements(sorted) == Elements(def.units)
    requires byUnit.Keys == Elements(Ids(def))
    requires forall v :: v in byUnit ==> Elements(byUnit[v]) == Sources(def.dependencies, v) && Distinct(byUnit[v])
    ensures Declarations(units) == sorted
    ensures forall i :: 0 <= i < |units| ==> DependsOnSources(def, units[i])
  {
    hide Sources, Sort, DependsOnSources, StringLess;
    units := [];
    for i := 0 to |sorted|
      invariant |units| == i
      invariant forall j :: 0 <= j < i ==> units[j].declaration == sorted[j] && DependsOnSources(def, units[j])
    {
      var u := sorted[i];
      assert u in Elements(sorted);
      DeclaredId(def, u);
      PlannedUnit(def, byUnit[u.unitId], u);
      units := units + [PlanUnit(u, Sort(StringLess, byUnit[u.unitId]))];
    }
  }

  lemma DeclaredId(def: Definition, u: UnitDeclaration)
    requires u in Elements(def.units)
    ensures u.unitId in Elements(Ids(def))
  {
    var i :| 0 <= i < |def.units| && def.units[i] == u;
    assert Ids(def)[i] == u.unitId;
  }

  lemma SortDeclarations(def: Definition)
    requires Distinct(Ids(def))
    ensures StrictlySorted(DeclarationLess, Sort(DeclarationLess, def.units))
  {
    StringOrder();
    forall i, j | 0 <= i < j < |def.units|
      ensures DeclarationLess(def.units[i], def.units[j]) || DeclarationLess(def.units[j], def.units[i])
    {
      assert Ids(def)[i] != Ids(def)[j];
    }
    DeclarationOrder();
    SortSorts(DeclarationLess, def.units);
  }

  lemma KeyedEdgesDiffer(edges: seq<Edge>)
    requires DistinctKeys(edges)
    ensures Distinct(edges)
  {
    forall i, j | 0 <= i < j < |edges|
      ensures edges[i] != edges[j]
    {
      assert DependencyKey(edges[i].from, edges[i].to) != DependencyKey(edges[j].from, edges[j].to);
    }
  }

  // Planning succeeds exactly for the definitions validation accepts, and when the keys of the unit
  // ids do not collide those are the structured ones and the plan is safe to run.
  method PlanDefinition(def: Definition) returns (r: Result<Plan, PlanError>)
    ensures r.Success? <==> StructuredByKey(def)
    ensures r.Success? ==> PlanOf(def, r.value)
    ensures !KeysCollide(Elements(Ids(def))) ==>
              (r.Success? <==> Structured(def)) && (r.Success? ==> Accepted(r.value))
  {
    var error := Validate(def);
    if error.Some? {
      return Failure(error.value);
    }
    KeyedEdgesDiffer(def.dependencies);
    var plan := CreatePlan(def);
    if Structured(def) {
      PlanIsAccepted(def, plan);
    }
    return Success(plan);
  }
}

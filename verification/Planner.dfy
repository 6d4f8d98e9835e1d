// The planner: structural validation of a definition, and the canonical plan built from it.

module Planner {
  import opened Basics
  import opened Graphs
  import opened Sorting
  import opened Plans
  import opened CycleCheck

  datatype PlanError =
    | NoUnits
    | DuplicateUnit(unitId: UnitId)
    | UnknownDependencySource(edge: Edge)
    | UnknownDependencyTarget(edge: Edge)
    | SelfDependency(edge: Edge)
    | DuplicateDependency(edge: Edge)
    | DependencyCycle
    | InvalidInput(unitId: UnitId, input: NamedSource)
    | InvalidCondition(unitId: UnitId, condition: Condition)
    | InvalidOutput(output: NamedSource)

  function Ids(def: Definition): seq<UnitId> {
    DeclaredIds(def.units)
  }

  // The planner recognises an edge by this joined text.
  function DependencyKey(from: UnitId, to: UnitId): string {
    from + "\0" + to
  }

  function Keys(edges: seq<Edge>): set<string> {
    set e | e in edges :: DependencyKey(e.from, e.to)
  }

  ghost predicate Produces(def: Definition, id: UnitId, output: string) {
    exists u :: u in def.units && u.unitId == id && output in u.outputs
  }

  ghost predicate SourceKnown(def: Definition, from: Source) {
    match from
    case WorkflowInput(name) => name in def.inputs
    case UnitOutput(id, output) => Produces(def, id, output)
  }

  // The code points of white space and line ends, which trimming a text removes.
  const WHITE_SPACE := {
    0x9, 0xA, 0xB, 0xC, 0xD, 0x20, 0xA0, 0x1680, 0x2000, 0x2001, 0x2002, 0x2003, 0x2004, 0x2005, 0x2006, 0x2007, 0x2008,
    0x2009, 0x200A, 0x2028, 0x2029, 0x202F, 0x205F, 0x3000, 0xFEFF
  }

  ghost predicate IsBlank(text: string) {
    forall c :: c in text ==> c as int in WHITE_SPACE
  }

  predicate IsSpace(c: char) {
    c as int in WHITE_SPACE
  }

  function TrimStart(text: string): string {
    if text != "" && IsSpace(text[0]) then TrimStart(text[1..]) else text
  }

  function TrimEnd(text: string): string {
    if text != "" && IsSpace(text[|text| - 1]) then TrimEnd(text[..|text| - 1]) else text
  }

  function Trim(text: string): string {
    TrimEnd(TrimStart(text))
  }

  lemma {:induction false} TrimStartIs(text: string)
    ensures TrimStart(text) == "" <==> IsBlank(text)
    ensures TrimStart(text) != "" ==> !IsSpace(TrimStart(text)[0])
  {
    if text != "" && IsSpace(text[0]) {
      TrimStartIs(text[1..]);
      assert forall c :: c in text <==> c == text[0] || c in text[1..];
    } else if text != "" {
      assert text[0] in text;
    }
  }

  lemma {:induction false} TrimEndKeeps(text: string)
    requires text != "" && !IsSpace(text[0])
    ensures TrimEnd(text) != ""
  {
    if IsSpace(text[|text| - 1]) {
      TrimEndKeeps(text[..|text| - 1]);
    }
  }

  // Trimming leaves nothing of exactly the blank texts.
  lemma TrimIs(text: string)
    ensures Trim(text) == "" <==> IsBlank(text)
  {
    TrimStartIs(text);
    if TrimStart(text) != "" {
      TrimEndKeeps(TrimStart(text));
    }
  }

  // `linked` says which pairs of units count as joined by a declared dependency.
  ghost predicate InputOk(def: Definition, linked: (UnitId, UnitId) -> bool, unitId: UnitId, input: NamedSource) {
    SourceKnown(def, input.from) && (input.from.UnitOutput? ==> linked(input.from.unitId, unitId))
  }

  ghost predicate ConditionOk(def: Definition, linked: (UnitId, UnitId) -> bool, unitId: UnitId, condition: Condition) {
    && (condition.TriggerBranch? ==> !IsBlank(condition.branch))
    && (condition.TriggerRef? ==> !IsBlank(condition.ref))
    && (condition.TriggerTag? ==> !IsBlank(condition.tag))
    && (condition.InputEquals? ==> condition.inputName in def.inputs)
    && (condition.UpstreamStatus? ==> condition.unitId in Ids(def) && linked(condition.unitId, unitId))
  }

  ghost predicate UnitOk(def: Definition, linked: (UnitId, UnitId) -> bool, unit: UnitDeclaration) {
    && (forall input :: input in unit.inputs ==> InputOk(def, linked, unit.unitId, input))
    && (forall condition :: condition in unit.conditions ==> ConditionOk(def, linked, unit.unitId, condition))
  }

  ghost predicate EdgesKnown(def: Definition) {
    forall e :: e in def.dependencies ==> e.from in Ids(def) && e.to in Ids(def) && e.from != e.to
  }

  ghost predicate StructuredUnder(def: Definition, linked: (UnitId, UnitId) -> bool) {
    && def.units != [] && Distinct(Ids(def))
    && EdgesKnown(def)
    && !Cyclic(SuccessorGraph(Ids(def), def.dependencies))
    && (forall u :: u in def.units ==> UnitOk(def, linked, u))
    && (forall o :: o in def.outputs ==> SourceKnown(def, o.from))
  }

  ghost function ByEdge(def: Definition): (UnitId, UnitId) -> bool {
    (from, to) => Edge(from, to) in def.dependencies
  }

  ghost function ByKey(def: Definition): (UnitId, UnitId) -> bool {
    (from, to) => DependencyKey(from, to) in Keys(def.dependencies)
  }

  ghost predicate DistinctKeys(edges: seq<Edge>) {
    forall i, j :: 0 <= i < j < |edges| ==> DependencyKey(edges[i].from, edges[i].to) != DependencyKey(edges[j].from, edges[j].to)
  }

  // A well-structured definition: what validation is meant to accept.
  ghost predicate Structured(def: Definition) {
    StructuredUnder(def, ByEdge(def)) && Distinct(def.dependencies)
  }

  // What validation accepts when edges are recognised by their joined text.
  ghost predicate StructuredByKey(def: Definition) {
    StructuredUnder(def, ByKey(def)) && DistinctKeys(def.dependencies)
  }

  ghost predicate NoNul(id: UnitId) {
    '\0' !in id
  }

  lemma FirstNul(a: UnitId, b: UnitId)
    requires NoNul(a)
    ensures var k := DependencyKey(a, b);
            && |k| > |a| && k[|a|] == '\0'
            && (forall i :: 0 <= i < |a| ==> k[i] != '\0')
            && k[..|a|] == a && k[|a| + 1..] == b
  {
  }

  lemma KeyInjective(a: UnitId, b: UnitId, c: UnitId, d: UnitId)
    requires NoNul(a) && NoNul(c)
    requires DependencyKey(a, b) == DependencyKey(c, d)
    ensures a == c && b == d
  {
    FirstNul(a, b);
    FirstNul(c, d);
    assert |a| == |c|;
  }

  // Two different ordered pairs of these ids share their joined text.
  ghost predicate KeysCollide(ids: set<UnitId>) {
    exists a, b, c, d :: a in ids && b in ids && c in ids && d in ids && SharedKey(a, b, c, d)
  }

  predicate SharedKey(a: UnitId, b: UnitId, c: UnitId, d: UnitId) {
    Edge(a, b) != Edge(c, d) && DependencyKey(a, b) == DependencyKey(c, d)
  }

  // Ids without the separator never collide.
  lemma NoNulNoCollision(ids: set<UnitId>)
    requires forall id :: id in ids ==> NoNul(id)
    ensures !KeysCollide(ids)
  {
    if a, b, c, d :| a in ids && b in ids && c in ids && d in ids && SharedKey(a, b, c, d) {
      KeyInjective(a, b, c, d);
      assert false;
    }
  }

  lemma LinkedAgree(def: Definition, from: UnitId, to: UnitId)
    requires !KeysCollide(Elements(Ids(def))) && EdgesKnown(def) && from in Ids(def) && to in Ids(def)
    ensures ByKey(def)(from, to) <==> ByEdge(def)(from, to)
  {
    hide DependencyKey;
    if ByKey(def)(from, to) {
      var e :| e in def.dependencies && DependencyKey(from, to) == DependencyKey(e.from, e.to);
      assert {from, to, e.from, e.to} <= Elements(Ids(def));
      assert !SharedKey(from, to, e.from, e.to);
      assert e == Edge(from, to);
    }
    if ByEdge(def)(from, to) {
      assert DependencyKey(from, to) in Keys(def.dependencies);
    }
  }

  lemma ProducerDeclared(def: Definition, id: UnitId, output: string)
    requires Produces(def, id, output)
    ensures id in Ids(def)
  {
    var u :| u in def.units && u.unitId == id && output in u.outputs;
    var i :| 0 <= i < |def.units| && def.units[i] == u;
    assert Ids(def)[i] == id;
  }

  lemma UnitsAgree(def: Definition, u: UnitDeclaration)
    requires !KeysCollide(Elements(Ids(def))) && EdgesKnown(def) && u.unitId in Ids(def)
    ensures UnitOk(def, ByKey(def), u) <==> UnitOk(def, ByEdge(def), u)
  {
    hide KeysCollide;
    forall input | input in u.inputs
      ensures InputOk(def, ByKey(def), u.unitId, input) <==> InputOk(def, ByEdge(def), u.unitId, input)
    {
      if SourceKnown(def, input.from) && input.from.UnitOutput? {
        ProducerDeclared(def, input.from.unitId, input.from.outputName);
        LinkedAgree(def, input.from.unitId, u.unitId);
      }
    }
    forall c | c in u.conditions
      ensures ConditionOk(def, ByKey(def), u.unitId, c) <==> ConditionOk(def, ByEdge(def), u.unitId, c)
    {
      if c.UpstreamStatus? && c.unitId in Ids(def) {
        LinkedAgree(def, c.unitId, u.unitId);
      }
    }
  }

  lemma UnitDeclared(def: Definition, u: UnitDeclaration)
    requires u in def.units
    ensures u.unitId in Ids(def)
  {
    var i :| 0 <= i < |def.units| && def.units[i] == u;
    assert Ids(def)[i] == u.unitId;
  }

  // Recognising edges by joined text is exact for definitions whose ids do not collide.
  lemma KeysAreExact(def: Definition)
    requires !KeysCollide(Elements(Ids(def)))
    ensures StructuredByKey(def) <==> Structured(def)
  {
    hide KeysCollide, UnitOk, DependencyKey;
    if EdgesKnown(def) {
      forall u | u in def.units
        ensures UnitOk(def, ByKey(def), u) <==> UnitOk(def, ByEdge(def), u)
      {
        UnitDeclared(def, u);
        UnitsAgree(def, u);
      }
      var es := def.dependencies;
      forall i, j | 0 <= i < j < |es|
        ensures es[i] == es[j] <==> DependencyKey(es[i].from, es[i].to) == DependencyKey(es[j].from, es[j].to)
      {
        EdgesDiffer(def, es[i], es[j]);
      }
    }
  }

  lemma EdgesDiffer(def: Definition, e: Edge, f: Edge)
    requires !KeysCollide(Elements(Ids(def))) && EdgesKnown(def) && e in def.dependencies && f in def.dependencies
    ensures e == f <==> DependencyKey(e.from, e.to) == DependencyKey(f.from, f.to)
  {
    assert {e.from, e.to, f.from, f.to} <= Elements(Ids(def));
    assert !SharedKey(e.from, e.to, f.from, f.to);
  }

  // One declared edge, and a unit with a condition on the status of a unit it does not depend on.
  function Misread(ids: seq<UnitId>, e: Edge, f: Edge): Definition {
    Definition(
      seq(|ids|, i requires 0 <= i < |ids| =>
        UnitDeclaration(ids[i], [], [], if ids[i] == f.to then [UpstreamStatus(f.from, Succeeded)] else [], [])),
      [e], [], [], None)
  }

  // Edges that lead from some units to others only cannot close a path.
  lemma OneWayIsAcyclic(ids: seq<UnitId>, edges: seq<Edge>, sources: set<UnitId>, targets: set<UnitId>)
    requires sources !! targets && forall e :: e in edges ==> e.from in sources && e.to in targets
    ensures !Cyclic(SuccessorGraph(ids, edges))
  {
    var g := SuccessorGraph(ids, edges);
    assert forall v, w :: v in g && w in g[v] ==> v in sources && w in targets;
    forall p | IsPath(g, p) && |p| >= 2
      ensures p[0] != p[|p| - 1]
    {
      assert p[0] in g && p[1] in g[p[0]];
      assert p[|p| - 2] in g && p[|p| - 2 + 1] in g[p[|p| - 2]];
    }
  }

  // When the condition's pair shares the edge's text, the planner takes the condition for backed.
  lemma MisreadIsAccepted(ids: seq<UnitId>, e: Edge, f: Edge)
    requires Distinct(ids) && {e.from, e.to, f.from, f.to} <= Elements(ids)
    requires e.from != e.to && e != f && DependencyKey(e.from, e.to) == DependencyKey(f.from, f.to)
    ensures Ids(Misread(ids, e, f)) == ids
    ensures StructuredByKey(Misread(ids, e, f)) && !Structured(Misread(ids, e, f))
  {
    hide DependencyKey, Cyclic, SuccessorGraph;
    var def := Misread(ids, e, f);
    assert Ids(def) == ids;
    assert forall id :: id in ids <==> id in Elements(ids);
    OneWayIsAcyclic(ids, [e], {e.from}, {e.to});
    assert DependencyKey(e.from, e.to) in Keys(def.dependencies);
    var i :| 0 <= i < |ids| && ids[i] == f.to;
    var u := def.units[i];
    assert !ConditionOk(def, ByEdge(def), u.unitId, u.conditions[0]);
    assert !UnitOk(def, ByEdge(def), u);
  }

  lemma {:induction false} Listing(ids: set<UnitId>) returns (s: seq<UnitId>)
    ensures Distinct(s) && Elements(s) == ids
  {
    if ids == {} {
      s := [];
    } else {
      var id :| id in ids;
      s := Listing(ids - {id});
      ElementsAppend(s, id);
      assert id !in Elements(s);
      s := s + [id];
    }
  }

  lemma SelfKey(a: UnitId, c: UnitId)
    requires DependencyKey(a, a) == DependencyKey(c, c)
    ensures a == c
  {
    assert |DependencyKey(a, a)| == 2 * |a| + 1 && |DependencyKey(c, c)| == 2 * |c| + 1;
    assert DependencyKey(a, a)[..|a|] == a && DependencyKey(c, c)[..|c|] == c;
  }

  // Colliding ids always allow a definition that the planner accepts and should not.
  lemma CollisionIsAccepted(ids: set<UnitId>) returns (def: Definition)
    requires KeysCollide(ids)
    ensures Elements(Ids(def)) == ids && StructuredByKey(def) && !Structured(def)
  {
    hide DependencyKey, Misread, StructuredByKey, Structured;
    var a, b, c, d :| a in ids && b in ids && c in ids && d in ids && SharedKey(a, b, c, d);
    var listed := Listing(ids);
    var e, f := Edge(a, b), Edge(c, d);
    if a == b {
      if c == d {
        SelfKey(a, c);
      }
      e, f := f, e;
    }
    MisreadIsAccepted(listed, e, f);
    def := Misread(listed, e, f);
  }

  // Over a set of ids, what the planner accepts is what is well structured exactly when no two
  // different pairs of the ids share their joined text.
  lemma KeysAreExactIff(ids: set<UnitId>)
    ensures !KeysCollide(ids) <==>
            forall def: Definition :: Elements(Ids(def)) <= ids ==> (StructuredByKey(def) <==> Structured(def))
  {
    hide KeysCollide, StructuredByKey, Structured;
    if KeysCollide(ids) {
      var def := CollisionIsAccepted(ids);
    } else {
      forall def: Definition | Elements(Ids(def)) <= ids
        ensures StructuredByKey(def) <==> Structured(def)
      {
        FewerNeverCollide(Elements(Ids(def)), ids);
        KeysAreExact(def);
      }
    }
  }

  lemma FewerNeverCollide(some: set<UnitId>, ids: set<UnitId>)
    requires some <= ids && !KeysCollide(ids)
    ensures !KeysCollide(some)
  {
    hide SharedKey;
  }

  // ----- a definition that is accepted and deadlocks

  function Declared(id: UnitId, conditions: seq<Condition>): UnitDeclaration {
    UnitDeclaration(id, [], [], conditions, [])
  }

  // "b\0c" reads the status of "a" with no edge for it, and "a" depends on "b\0c". The edge from
  // "a\0b" to "c" has the text an edge from "a" to "b\0c" would have.
  const DEADLOCKED := Definition(
    [Declared("a", []), Declared("a\0b", []), Declared("b\0c", [UpstreamStatus("a", Succeeded)]), Declared("c", [])],
    [Edge("a\0b", "c"), Edge("b\0c", "a")], [], [], None)

  lemma DeadlockedKeys()
    ensures Ids(DEADLOCKED) == ["a", "a\0b", "b\0c", "c"]
    ensures EdgesKnown(DEADLOCKED) && DistinctKeys(DEADLOCKED.dependencies)
    ensures ByKey(DEADLOCKED)("a", "b\0c") && !ByEdge(DEADLOCKED)("a", "b\0c")
  {
    assert Ids(DEADLOCKED) == ["a", "a\0b", "b\0c", "c"];
    assert DependencyKey("a", "b\0c") == DependencyKey("a\0b", "c") == "a\0b\0c";
    assert DEADLOCKED.dependencies[0] in DEADLOCKED.dependencies;
    assert DependencyKey("b\0c", "a") == "b\0c\0a";
  }

  lemma DeadlockedIsAccepted()
    ensures StructuredByKey(DEADLOCKED) && !Structured(DEADLOCKED)
  {
    hide ByKey, ByEdge, Cyclic, SuccessorGraph, EdgesKnown, DistinctKeys;
    DeadlockedKeys();
    OneWayIsAcyclic(Ids(DEADLOCKED), DEADLOCKED.dependencies, {"a\0b", "b\0c"}, {"c", "a"});
    var u := DEADLOCKED.units[2];
    assert u in DEADLOCKED.units && u.conditions[0] == UpstreamStatus("a", Succeeded);
    assert !ConditionOk(DEADLOCKED, ByEdge(DEADLOCKED), "b\0c", u.conditions[0]);
    assert !UnitOk(DEADLOCKED, ByEdge(DEADLOCKED), u);
  }

  function UnitsById(units: seq<UnitDeclaration>): map<UnitId, UnitDeclaration> {
    if units == [] then map[]
    else UnitsById(units[..|units| - 1])[units[|units| - 1].unitId := units[|units| - 1]]
  }

  lemma {:induction false} UnitsByIdKeys(units: seq<UnitDeclaration>)
    ensures UnitsById(units).Keys == Elements(DeclaredIds(units))
  {
    if units != [] {
      var ids := DeclaredIds(units);
      assert DeclaredIds(units[..|units| - 1]) == ids[..|ids| - 1];
      UnitsByIdKeys(units[..|units| - 1]);
      ElementsPrefix(ids, |ids| - 1);
      assert ids[..|ids|] == ids;
    }
  }

  lemma {:induction false} UnitsByIdAt(units: seq<UnitDeclaration>, i: nat)
    requires Distinct(DeclaredIds(units)) && i < |units|
    ensures units[i].unitId in UnitsById(units) && UnitsById(units)[units[i].unitId] == units[i]
  {
    var ids := DeclaredIds(units);
    if i < |units| - 1 {
      assert DeclaredIds(units[..|units| - 1]) == ids[..|ids| - 1];
      UnitsByIdAt(units[..|units| - 1], i);
      assert ids[i] != ids[|ids| - 1];
    }
  }

  lemma UnitsByIdFinds(units: seq<UnitDeclaration>, id: UnitId)
    requires Distinct(DeclaredIds(units))
    ensures id in UnitsById(units) ==> UnitsById(units)[id] in units && UnitsById(units)[id].unitId == id
    ensures forall u :: u in units && u.unitId == id ==> id in UnitsById(units) && UnitsById(units)[id] == u
  {
    UnitsByIdKeys(units);
    if id in UnitsById(units) {
      var i :| 0 <= i < |units| && DeclaredIds(units)[i] == id;
      UnitsByIdAt(units, i);
    }
    forall u | u in units && u.unitId == id
      ensures id in UnitsById(units) && UnitsById(units)[id] == u
    {
      var i :| 0 <= i < |units| && units[i] == u;
      UnitsByIdAt(units, i);
    }
  }

  predicate SourceValid(byId: map<UnitId, UnitDeclaration>, inputs: seq<string>, from: Source) {
    match from
    case WorkflowInput(name) => name in inputs
    case UnitOutput(id, output) => id in byId && output in byId[id].outputs
  }

  predicate InputValid(byId: map<UnitId, UnitDeclaration>, inputs: seq<string>, keys: set<string>, unitId: UnitId, input: NamedSource) {
    SourceValid(byId, inputs, input.from) && (input.from.UnitOutput? ==> DependencyKey(input.from.unitId, unitId) in keys)
  }

  predicate ConditionValid(ids: set<UnitId>, inputs: seq<string>, keys: set<string>, unitId: UnitId, condition: Condition) {
    match condition
    case TriggerEvent(_) => true
    case TriggerBranch(branch) => Trim(branch) != ""
    case TriggerRef(ref) => Trim(ref) != ""
    case TriggerTag(tag) => Trim(tag) != ""
    case InputEquals(name, _) => name in inputs
    case UpstreamStatus(id, _) => id in ids && DependencyKey(id, unitId) in keys
  }

  lemma ConditionTexts(condition: Condition)
    ensures condition.TriggerBranch? ==> (Trim(condition.branch) == "" <==> IsBlank(condition.branch))
    ensures condition.TriggerRef? ==> (Trim(condition.ref) == "" <==> IsBlank(condition.ref))
    ensures condition.TriggerTag? ==> (Trim(condition.tag) == "" <==> IsBlank(condition.tag))
  {
    match condition {
      case TriggerBranch(branch) => TrimIs(branch);
      case TriggerRef(ref) => TrimIs(ref);
      case TriggerTag(tag) => TrimIs(tag);
      case _ =>
    }
  }

  lemma SourceValidIff(def: Definition, from: Source)
    requires Distinct(Ids(def))
    ensures SourceValid(UnitsById(def.units), def.inputs, from) <==> SourceKnown(def, from)
  {
    if from.UnitOutput? {
      UnitsByIdFinds(def.units, from.unitId);
    }
  }

  method ValidateUnitIds(def: Definition) returns (error: Option<PlanError>)
    ensures error.None? <==> Distinct(Ids(def))
    ensures error.Some? ==> error.value.DuplicateUnit? && multiset(Ids(def))[error.value.unitId] > 1
  {
    var unitIds: set<UnitId> := {};
    for i := 0 to |def.units|
      invariant unitIds == Elements(Ids(def)[..i])
      invariant Distinct(Ids(def)[..i])
    {
      var id := def.units[i].unitId;
      if id in unitIds {
        assert Ids(def)[i] == id;
        assert Ids(def) == Ids(def)[..i] + [id] + Ids(def)[i + 1..];
        assert id in multiset(Ids(def)[..i]);
        return Some(DuplicateUnit(id));
      }
      ElementsPrefix(Ids(def), i);
      unitIds := unitIds + {id};
    }
    assert Ids(def)[..|def.units|] == Ids(def);
    return None;
  }

  ghost predicate EdgeDefect(def: Definition, error: PlanError) {
    match error
    case UnknownDependencySource(e) => e in def.dependencies && e.from !in Ids(def)
    case UnknownDependencyTarget(e) => e in def.dependencies && e.to !in Ids(def)
    case SelfDependency(e) => e in def.dependencies && e.from == e.to
    case DuplicateDependency(e) => e in def.dependencies && !DistinctKeys(def.dependencies)
    case _ => false
  }

  method ValidateEdges(def: Definition) returns (error: Option<PlanError>)
    ensures error.None? <==> EdgesKnown(def) && DistinctKeys(def.dependencies)
    ensures error.Some? ==> EdgeDefect(def, error.value)
  {
    var es := def.dependencies;
    var keys: set<string> := {};
    for i := 0 to |es|
      invariant keys == Keys(es[..i])
      invariant DistinctKeys(es[..i])
      invariant forall e :: e in es[..i] ==> e.from in Ids(def) && e.to in Ids(def) && e.from != e.to
    {
      var e := es[i];
      if e.from !in Ids(def) {
        return Some(UnknownDependencySource(e));
      }
      if e.to !in Ids(def) {
        return Some(UnknownDependencyTarget(e));
      }
      if e.from == e.to {
        return Some(SelfDependency(e));
      }
      if DependencyKey(e.from, e.to) in keys {
        return Some(DuplicateDependency(e));
      }
      assert es[..i + 1] == es[..i] + [e];
      keys := keys + {DependencyKey(e.from, e.to)};
    }
    assert es[..|es|] == es;
    return None;
  }

  method ValidateUnit(def: Definition, unit: UnitDeclaration) returns (error: Option<PlanError>)
    requires Distinct(Ids(def))
    ensures error.None? <==> UnitOk(def, ByKey(def), unit)
    ensures error.Some? ==> match error.value
                            case InvalidInput(id, input) =>
                              id == unit.unitId && input in unit.inputs && !InputOk(def, ByKey(def), id, input)
                            case InvalidCondition(id, condition) =>
                              id == unit.unitId && condition in unit.conditions && !ConditionOk(def, ByKey(def), id, condition)
                            case _ => false
  {
    var byId, keys := UnitsById(def.units), Keys(def.dependencies);
    for i := 0 to |unit.inputs|
      invariant forall j :: 0 <= j < i ==> InputOk(def, ByKey(def), unit.unitId, unit.inputs[j])
    {
      SourceValidIff(def, unit.inputs[i].from);
      if !InputValid(byId, def.inputs, keys, unit.unitId, unit.inputs[i]) {
        assert !InputOk(def, ByKey(def), unit.unitId, unit.inputs[i]);
        return Some(InvalidInput(unit.unitId, unit.inputs[i]));
      }
    }
    for i := 0 to |unit.conditions|
      invariant forall j :: 0 <= j < i ==> ConditionOk(def, ByKey(def), unit.unitId, unit.conditions[j])
    {
      ConditionTexts(unit.conditions[i]);
      if !ConditionValid(Elements(Ids(def)), def.inputs, keys, unit.unitId, unit.conditions[i]) {
        assert !ConditionOk(def, ByKey(def), unit.unitId, unit.conditions[i]);
        return Some(InvalidCondition(unit.unitId, unit.conditions[i]));
      }
    }
    return None;
  }

  // Accepts exactly the structured definitions, and an error names a real defect.
  method Validate(def: Definition) returns (error: Option<PlanError>)
    ensures error.None? <==> StructuredByKey(def)
    ensures !KeysCollide(Elements(Ids(def))) ==> (error.None? <==> Structured(def))
  {
    if !KeysCollide(Elements(Ids(def))) {
      KeysAreExact(def);
    }
    if |def.units| == 0 {
      return Some(NoUnits);
    }
    error := ValidateUnitIds(def);
    if error.Some? {
      return;
    }
    error := ValidateEdges(def);
    if error.Some? {
      return;
    }
    var cycle := HasCycle(Ids(def), def.dependencies);
    if cycle {
      return Some(DependencyCycle);
    }
    for i := 0 to |def.units|
      invariant forall j :: 0 <= j < i ==> UnitOk(def, ByKey(def), def.units[j])
    {
      error := ValidateUnit(def, def.units[i]);
      if error.Some? {
        return;
      }
    }
    for i := 0 to |def.outputs|
      invariant forall j :: 0 <= j < i ==> SourceKnown(def, def.outputs[j].from)
    {
      SourceValidIff(def, def.outputs[i].from);
      if !SourceValid(UnitsById(def.units), def.inputs, def.outputs[i].from) {
        return Some(InvalidOutput(def.outputs[i]));
      }
    }
    return None;
  }
}

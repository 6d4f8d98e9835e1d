// The run queue, its capacity limits, and why the greedy scan of one scheduling pass is optimal.

module Capacity {
  import opened Basics
  import opened Sorting
  import opened RunState

  datatype Record = Record(project: string, status: RunStatus, createdAt: int)

  type Store = map<RunId, Record>

  datatype Limits = Limits(maxRuns: nat, maxRunsPerProject: nat)

  predicate Active(s: RunStatus) {
    s == RunningRun || s == CancelingRun
  }

  function QueuedIds(store: Store): set<RunId> {
    set id | id in store && store[id].status == QueuedRun
  }

  function ActiveIds(store: Store): set<RunId> {
    set id | id in store && Active(store[id].status)
  }

  function ActiveIn(store: Store, project: string): set<RunId> {
    set id | id in store && Active(store[id].status) && store[id].project == project
  }

  function RunningIds(store: Store): set<RunId> {
    set id | id in store && store[id].status == RunningRun
  }

  function RunningIn(store: Store, project: string): set<RunId> {
    set id | id in store && store[id].status == RunningRun && store[id].project == project
  }

  // A queued run cannot start: the engine or its project is at its limit.
  predicate Blocked(limits: Limits, store: Store, id: RunId)
    requires id in store
  {
    |ActiveIds(store)| >= limits.maxRuns || |ActiveIn(store, store[id].project)| >= limits.maxRunsPerProject
  }

  predicate Earlier(store: Store, a: RunId, b: RunId) {
    a in store && b in store
    && (store[a].createdAt < store[b].createdAt || (store[a].createdAt == store[b].createdAt && StringLess(a, b)))
  }

  // The queued runs, oldest first, ids breaking ties.
  ghost predicate IsQueue(store: Store, queue: seq<RunId>) {
    && Distinct(queue) && Elements(queue) == QueuedIds(store)
    && StrictlySorted((a, b) => Earlier(store, a, b), queue)
  }

  // The queue holds each queued run once, none after a younger one, and runs of one age by their ids.
  lemma QueueMeans(store: Store, queue: seq<RunId>)
    requires IsQueue(store, queue)
    ensures Distinct(queue) && forall id :: id in queue <==> id in store && store[id].status == QueuedRun
    ensures forall i, j :: 0 <= i < j < |queue| ==> store[queue[i]].createdAt <= store[queue[j]].createdAt
    ensures forall i, j :: 0 <= i < j < |queue| && store[queue[i]].createdAt == store[queue[j]].createdAt ==>
                             Precedes(queue[i], queue[j])
  {
    hide StringLess, Precedes;
    assert forall id :: id in queue <==> id in Elements(queue);
    forall i, j | 0 <= i < j < |queue|
      ensures Earlier(store, queue[i], queue[j]) && (StringLess(queue[i], queue[j]) <==> Precedes(queue[i], queue[j]))
    {
      StringLessMeans(queue[i], queue[j]);
    }
  }

  method ListQueuedRuns(store: Store) returns (queue: seq<RunId>)
    ensures IsQueue(store, queue)
  {
    var ids := QueuedIds(store);
    var rest, listed: seq<RunId> := ids, [];
    while rest != {}
      invariant rest <= ids && Elements(listed) == ids - rest && Distinct(listed)
    {
      var id :| id in rest;
      assert id !in Elements(listed);
      ElementsAppend(listed, id);
      listed := listed + [id];
      rest := rest - {id};
    }
    var less := (a, b) => Earlier(store, a, b);
    queue := Sort(less, listed);
    QueueSorted(store, listed);
  }

  lemma QueueSorted(store: Store, listed: seq<RunId>)
    requires Distinct(listed) && Elements(listed) == QueuedIds(store)
    ensures IsQueue(store, Sort((a, b) => Earlier(store, a, b), listed))
  {
    hide Sort, StringLess;
    StringOrder();
    var less := (a, b) => Earlier(store, a, b);
    forall i, j | 0 <= i < j < |listed|
      ensures less(listed[i], listed[j]) || less(listed[j], listed[i])
    {
      assert listed[i] in QueuedIds(store) && listed[j] in QueuedIds(store);
    }
    assert StrictOrder(less);
    SortSorts(less, listed);
    SameMembers(Sort(less, listed), listed);
  }

  // ----- counting by project

  function Count(ps: seq<string>, p: string): nat {
    if ps == [] then 0 else Count(ps[..|ps| - 1], p) + if ps[|ps| - 1] == p then 1 else 0
  }

  function Min(a: nat, b: nat): nat {
    if a < b then a else b
  }

  function Room(limit: nat, active: nat): nat {
    Max(limit - active, 0)
  }

  function SumCounts(projects: seq<string>, ps: seq<string>): nat {
    if projects == [] then 0 else SumCounts(projects[..|projects| - 1], ps) + Count(ps, projects[|projects| - 1])
  }

  // What each project can start at most: its queued runs, within its room.
  function Startable(queue: seq<string>, active: string -> nat, limit: nat, p: string): nat {
    Min(Count(queue, p), Room(limit, active(p)))
  }

  function SumStartable(projects: seq<string>, queue: seq<string>, active: string -> nat, limit: nat): nat {
    if projects == [] then 0
    else
      SumStartable(projects[..|projects| - 1], queue, active, limit) + Startable(queue, active, limit, projects[|projects| - 1])
  }

  // A choice of queued runs that respects both limits, given by the runs' projects.
  ghost predicate Feasible(queue: seq<string>, active: string -> nat, free: nat, limit: nat, choice: seq<string>) {
    && multiset(choice) <= multiset(queue)
    && |choice| <= free
    && forall p :: Count(choice, p) <= Room(limit, active(p))
  }

  // A scan that starts runs while there is room anywhere.
  ghost predicate Exhaustive(queue: seq<string>, active: string -> nat, free: nat, limit: nat, started: seq<string>) {
    && Feasible(queue, active, free, limit, started)
    && (|started| < free ==> forall p :: Count(started, p) == Startable(queue, active, limit, p))
  }

  lemma {:induction false} CountIsMultiplicity(ps: seq<string>, p: string)
    ensures Count(ps, p) == multiset(ps)[p]
  {
    if ps != [] {
      CountIsMultiplicity(ps[..|ps| - 1], p);
      assert ps == ps[..|ps| - 1] + [ps[|ps| - 1]];
    }
  }

  lemma {:induction false} SumCountsAppend(projects: seq<string>, ps: seq<string>, p: string)
    requires Distinct(projects)
    ensures SumCounts(projects, ps + [p]) == SumCounts(projects, ps) + if p in projects then 1 else 0
  {
    if projects != [] {
      var n := |projects| - 1;
      SumCountsAppend(projects[..n], ps, p);
      assert (ps + [p])[..|ps|] == ps;
      assert projects == projects[..n] + [projects[n]];
    }
  }

  lemma {:induction false} CountsNothing(projects: seq<string>)
    ensures SumCounts(projects, []) == 0
  {
    if projects != [] {
      CountsNothing(projects[..|projects| - 1]);
    }
  }

  // Counting by project, over any listing of the projects, counts everything.
  lemma {:induction false} CountsAddUp(projects: seq<string>, ps: seq<string>)
    requires Distinct(projects) && forall p :: p in ps ==> p in projects
    ensures SumCounts(projects, ps) == |ps|
    decreases |ps|
  {
    if ps == [] {
      CountsNothing(projects);
    } else {
      var front, last := ps[..|ps| - 1], ps[|ps| - 1];
      CountsAddUp(projects, front);
      assert ps == front + [last];
      SumCountsAppend(projects, front, last);
    }
  }

  lemma FeasibleCounts(queue: seq<string>, active: string -> nat, free: nat, limit: nat, choice: seq<string>, p: string)
    requires Feasible(queue, active, free, limit, choice)
    ensures Count(choice, p) <= Startable(queue, active, limit, p)
  {
    CountIsMultiplicity(choice, p);
    CountIsMultiplicity(queue, p);
  }

  lemma {:induction false} FeasibleSum(projects: seq<string>, queue: seq<string>, active: string -> nat, free: nat, limit: nat, choice: seq<string>)
    requires Feasible(queue, active, free, limit, choice)
    ensures SumCounts(projects, choice) <= SumStartable(projects, queue, active, limit)
  {
    hide Feasible, Startable, Count;
    if projects != [] {
      FeasibleSum(projects[..|projects| - 1], queue, active, free, limit, choice);
      FeasibleCounts(queue, active, free, limit, choice, projects[|projects| - 1]);
    }
  }

  lemma {:induction false} ExhaustiveSum(projects: seq<string>, queue: seq<string>, active: string -> nat, free: nat, limit: nat, started: seq<string>)
    requires Exhaustive(queue, active, free, limit, started) && |started| < free
    ensures SumCounts(projects, started) == SumStartable(projects, queue, active, limit)
  {
    hide Feasible, Startable, Count;
    if projects != [] {
      ExhaustiveSum(projects[..|projects| - 1], queue, active, free, limit, started);
    }
  }

  lemma FromQueue(queue: seq<string>, choice: seq<string>, projects: seq<string>)
    requires multiset(choice) <= multiset(queue) && forall p :: p in queue ==> p in projects
    ensures forall p :: p in choice ==> p in projects
  {
    forall p | p in choice
      ensures p in projects
    {
      assert p in multiset(choice);
      assert multiset(queue)[p] >= multiset(choice)[p] > 0;
    }
  }

  // An exhaustive scan starts exactly as many runs as the limits allow, over any listing of the
  // projects: the free global slots, or what the projects can start between them.
  lemma ScanStarts(projects: seq<string>, queue: seq<string>, active: string -> nat, free: nat, limit: nat, started: seq<string>)
    requires Distinct(projects) && forall p :: p in queue ==> p in projects
    requires Exhaustive(queue, active, free, limit, started)
    ensures |started| == Min(free, SumStartable(projects, queue, active, limit))
  {
    hide Startable, Count, SumCounts, SumStartable;
    FromQueue(queue, started, projects);
    CountsAddUp(projects, started);
    FeasibleSum(projects, queue, active, free, limit, started);
    if |started| < free {
      ExhaustiveSum(projects, queue, active, free, limit, started);
    }
  }

  lemma {:induction false} DistinctListing(ps: seq<string>) returns (projects: seq<string>)
    ensures Distinct(projects) && forall p :: p in ps ==> p in projects
  {
    if ps == [] {
      projects := [];
    } else {
      projects := DistinctListing(ps[1..]);
      if ps[0] !in projects {
        projects := projects + [ps[0]];
      }
      assert ps == [ps[0]] + ps[1..];
    }
  }

  // No feasible choice of queued runs starts more than an exhaustive scan.
  lemma ScanIsOptimal(queue: seq<string>, active: string -> nat, free: nat, limit: nat, started: seq<string>, choice: seq<string>)
    requires Exhaustive(queue, active, free, limit, started) && Feasible(queue, active, free, limit, choice)
    ensures |choice| <= |started|
  {
    hide Startable, Count, SumCounts, SumStartable, Exhaustive, Feasible;
    var projects := DistinctListing(queue);
    ScanStarts(projects, queue, active, free, limit, started);
    assert multiset(choice) <= multiset(queue) && |choice| <= free by {
      ChoiceFits(queue, active, free, limit, choice);
    }
    FromQueue(queue, choice, projects);
    CountsAddUp(projects, choice);
    FeasibleSum(projects, queue, active, free, limit, choice);
  }

  lemma ChoiceFits(queue: seq<string>, active: string -> nat, free: nat, limit: nat, choice: seq<string>)
    requires Feasible(queue, active, free, limit, choice)
    ensures multiset(choice) <= multiset(queue) && |choice| <= free
  {
  }

  // ----- the scan of one pass

  // What is known after scanning a prefix of the queue.
  ghost predicate Scanned(prefix: seq<string>, active: string -> nat, free: nat, limit: nat, started: seq<string>) {
    && multiset(started) <= multiset(prefix) && |started| <= free
    && (forall p :: Count(started, p) <= Room(limit, active(p)))
    && (|started| < free ==> forall p :: Count(started, p) == Startable(prefix, active, limit, p))
  }

  lemma ScanSkips(prefix: seq<string>, active: string -> nat, free: nat, limit: nat, started: seq<string>, p: string)
    requires Scanned(prefix, active, free, limit, started) && |started| < free
    requires active(p) + Count(started, p) >= limit
    ensures Scanned(prefix + [p], active, free, limit, started)
  {
    assert (prefix + [p])[..|prefix|] == prefix;
  }

  lemma ScanTakes(prefix: seq<string>, active: string -> nat, free: nat, limit: nat, started: seq<string>, p: string)
    requires Scanned(prefix, active, free, limit, started) && |started| < free
    requires active(p) + Count(started, p) < limit
    ensures Scanned(prefix + [p], active, free, limit, started + [p])
  {
    assert (prefix + [p])[..|prefix|] == prefix;
    assert (started + [p])[..|started|] == started;
  }

  lemma ScanStops(prefix: seq<string>, rest: seq<string>, active: string -> nat, free: nat, limit: nat, started: seq<string>)
    requires Scanned(prefix, active, free, limit, started) && |started| == free
    ensures Exhaustive(prefix + rest, active, free, limit, started)
  {
  }

  lemma ScanEnds(queue: seq<string>, active: string -> nat, free: nat, limit: nat, started: seq<string>)
    requires Scanned(queue, active, free, limit, started)
    ensures Exhaustive(queue, active, free, limit, started)
  {
  }
}

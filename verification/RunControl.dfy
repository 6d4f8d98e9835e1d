// The run controller: submits, cancels and recovers runs, and starts queued runs in passes.

module RunControl {
  import opened Basics
  import opened RunState
  import opened Capacity
  import opened Scheduler

  // What a started run does before it first waits: it may end at once.
  type Starting = RunId -> Option<RunStatus>

  function Projects(store: Store, ids: seq<RunId>): seq<string>
    requires forall id :: id in ids ==> id in store
  {
    seq(|ids|, i requires 0 <= i < |ids| => store[ids[i]].project)
  }

  ghost function ActiveCounts(store: Store): string -> nat {
    p => |ActiveIn(store, p)|
  }

  function StatusOnStart(ends: Starting, id: RunId): RunStatus {
    if ends(id).Some? then ends(id).value else RunningRun
  }

  // The store after these queued runs were started.
  function Started(store: Store, ends: Starting, ids: seq<RunId>): Store {
    map id | id in store ::
      if id in ids then store[id].(status := StatusOnStart(ends, id)) else store[id]
  }

  lemma StartOne(store: Store, ends: Starting, ids: seq<RunId>, id: RunId)
    requires id in store && id !in ids
    ensures Started(store, ends, ids + [id]) == WithStatus(Started(store, ends, ids), id, StatusOnStart(ends, id))
  {
  }

  lemma StartNone(store: Store, ends: Starting)
    ensures Started(store, ends, []) == store
  {
  }

  // How many of these active runs belong to a project.
  function CountedIn(store: Store, ids: set<RunId>, p: string): nat {
    |ids * ActiveIn(store, p)|
  }

  lemma CountsOneMore(store: Store, done: set<RunId>, id: RunId, p: string)
    requires id in ActiveIds(store) && id !in done
    ensures CountedIn(store, done + {id}, p) == CountedIn(store, done, p) + if store[id].project == p then 1 else 0
  {
    assert (done + {id}) * ActiveIn(store, p) == done * ActiveIn(store, p) + if store[id].project == p then {id} else {};
  }

  lemma CountsAll(store: Store, p: string)
    ensures CountedIn(store, {}, p) == 0 && CountedIn(store, ActiveIds(store), p) == |ActiveIn(store, p)|
  {
    assert ActiveIds(store) * ActiveIn(store, p) == ActiveIn(store, p);
    assert {} * ActiveIn(store, p) == {};
  }

  lemma ActiveIsStored(store: Store, id: RunId)
    requires id in ActiveIds(store)
    ensures id in store
  {
  }

  // How many active runs each project has.
  method CountByProject(store: Store) returns (m: map<string, nat>)
    ensures forall p :: Tally(m, p) == |ActiveIn(store, p)|
  {
    hide CountedIn, ActiveIds, ActiveIn;
    m := map[];
    var rest := ActiveIds(store);
    ghost var done: set<RunId> := {};
    forall p {
      CountsAll(store, p);
    }
    while rest != {}
      invariant done + rest == ActiveIds(store) && done !! rest
      invariant forall p :: Tally(m, p) == CountedIn(store, done, p)
    {
      var id :| id in rest;
      ActiveIsStored(store, id);
      var project := store[id].project;
      forall p {
        CountsOneMore(store, done, id, p);
      }
      m := m[project := Tally(m, project) + 1];
      rest, done := rest - {id}, done + {id};
    }
  }

  // ----- one pass

  // The runs a scan starts: each queued run in turn, when a slot is free and its project has room.
  ghost function Greedy(limits: Limits, store: Store, queue: seq<RunId>): (r: seq<RunId>)
    requires forall id :: id in queue ==> id in store
    ensures forall id :: id in r ==> id in queue
  {
    if queue == [] then []
    else
      var id := queue[|queue| - 1];
      assert queue == queue[..|queue| - 1] + [id];
      var before := Greedy(limits, store, queue[..|queue| - 1]);
      if |before| < FreeSlots(limits, store) && HasRoom(limits, store, before, store[id].project) then before + [id] else before
  }

  // A project has room for one more run besides these.
  ghost predicate HasRoom(limits: Limits, store: Store, started: seq<RunId>, project: string)
    requires forall id :: id in started ==> id in store
  {
    |ActiveIn(store, project)| + Count(Projects(store, started), project) < limits.maxRunsPerProject
  }

  lemma GreedyNext(limits: Limits, store: Store, queue: seq<RunId>, i: nat)
    requires i < |queue| && forall id :: id in queue ==> id in store
    ensures var before, id := Greedy(limits, store, queue[..i]), queue[i];
            Greedy(limits, store, queue[..i + 1])
            == if |before| < FreeSlots(limits, store) && HasRoom(limits, store, before, store[id].project) then before + [id] else before
  {
    hide FreeSlots, HasRoom;
    assert queue[..i + 1][..i] == queue[..i];
  }

  // Once no slot is free, nothing more is started.
  lemma {:induction false} GreedyFull(limits: Limits, store: Store, queue: seq<RunId>, i: nat)
    requires i <= |queue| && forall id :: id in queue ==> id in store
    requires |Greedy(limits, store, queue[..i])| >= FreeSlots(limits, store)
    ensures Greedy(limits, store, queue) == Greedy(limits, store, queue[..i])
    decreases |queue| - i
  {
    hide FreeSlots, HasRoom, Greedy;
    if i < |queue| {
      GreedyNext(limits, store, queue, i);
      GreedyFull(limits, store, queue, i + 1);
    } else {
      assert queue[..i] == queue;
    }
  }

  // After scanning a prefix of the queue: what was started, what is counted, and why runs were
  // passed over.
  ghost predicate ScanSoFar(limits: Limits, store: Store, ends: Starting, queue: seq<RunId>, i: nat,
                            started: seq<RunId>, m: map<string, nat>, slots: nat, runs: Store)
  {
    && i <= |queue| && IsQueue(store, queue)
    && (forall id :: id in started ==> id in queue[..i])
    && (forall id :: id in queue ==> id in store && store[id].status == QueuedRun)
    && runs == Started(store, ends, started)
    && slots + |started| == FreeSlots(limits, store)
    && Scanned(Projects(store, queue[..i]), ActiveCounts(store), FreeSlots(limits, store), limits.maxRunsPerProject, Projects(store, started))
    && (forall p :: Tally(m, p) == |ActiveIn(store, p)| + Count(Projects(store, started), p))
    && (forall j :: 0 <= j < i && queue[j] !in started ==> Tally(m, store[queue[j]].project) >= limits.maxRunsPerProject)
    && OldestFirst(store, queue[..i], started)
    && started == Greedy(limits, store, queue[..i])
  }

  // A run is started before an older one only when the older one's project is full.
  ghost predicate FullBefore(limits: Limits, store: Store, queue: seq<RunId>, started: seq<RunId>)
    requires (forall id :: id in queue ==> id in store) && forall id :: id in started ==> id in store
  {
    forall j, k :: 0 <= j < k < |queue| && queue[k] in started && queue[j] !in started
                   ==> !HasRoom(limits, store, started, store[queue[j]].project)
  }

  // Inside a project, older runs are started before younger ones.
  ghost predicate OldestFirst(store: Store, queue: seq<RunId>, started: seq<RunId>)
    requires forall id :: id in queue ==> id in store
  {
    forall j, k :: 0 <= j < k < |queue| && queue[k] in started && store[queue[j]].project == store[queue[k]].project
                   ==> queue[j] in started
  }

  lemma ProjectsAppend(store: Store, ids: seq<RunId>, id: RunId)
    requires id in store && forall x :: x in ids ==> x in store
    ensures Projects(store, ids + [id]) == Projects(store, ids) + [store[id].project]
  {
  }

  lemma QueueIsQueued(store: Store, queue: seq<RunId>)
    requires IsQueue(store, queue)
    ensures forall id :: id in queue ==> id in store && store[id].status == QueuedRun
  {
    assert forall id :: id in queue <==> id in Elements(queue);
  }

  lemma ScanBegins(limits: Limits, store: Store, ends: Starting, queue: seq<RunId>, m: map<string, nat>)
    requires IsQueue(store, queue) && forall p :: Tally(m, p) == |ActiveIn(store, p)|
    ensures ScanSoFar(limits, store, ends, queue, 0, [], m, FreeSlots(limits, store), store)
  {
    hide IsQueue;
    QueueIsQueued(store, queue);
    StartNone(store, ends);
    assert queue[..0] == [] && Projects(store, []) == [];
  }

  lemma NotYetScanned(store: Store, queue: seq<RunId>, i: nat)
    requires IsQueue(store, queue) && i < |queue|
    ensures queue[i] !in queue[..i]
  {
  }

  lemma ScanPassesOver(limits: Limits, store: Store, ends: Starting, queue: seq<RunId>, i: nat,
                       started: seq<RunId>, m: map<string, nat>, slots: nat, runs: Store)
    requires ScanSoFar(limits, store, ends, queue, i, started, m, slots, runs) && i < |queue| && slots > 0
    requires Tally(m, store[queue[i]].project) >= limits.maxRunsPerProject
    ensures ScanSoFar(limits, store, ends, queue, i + 1, started, m, slots, runs)
  {
    hide IsQueue, Scanned, Started, ActiveIn, Count, Tally, FreeSlots, Greedy;
    GreedyNext(limits, store, queue, i);
    assert queue[..i + 1] == queue[..i] + [queue[i]];
    NotYetScanned(store, queue, i);
    ProjectsAppend(store, queue[..i], queue[i]);
    ScanSkips(Projects(store, queue[..i]), ActiveCounts(store), FreeSlots(limits, store), limits.maxRunsPerProject,
              Projects(store, started), store[queue[i]].project);
  }

  lemma CountAppend(ps: seq<string>, q: string, p: string)
    ensures Count(ps + [q], p) == Count(ps, p) + if q == p then 1 else 0
  {
    assert (ps + [q])[..|ps|] == ps;
  }

  lemma ScanTallies(store: Store, started: seq<RunId>, m: map<string, nat>, id: RunId)
    requires id in store && forall x :: x in started ==> x in store
    requires forall p :: Tally(m, p) == |ActiveIn(store, p)| + Count(Projects(store, started), p)
    ensures forall p :: Tally(m[store[id].project := Tally(m, store[id].project) + 1], p)
                        == |ActiveIn(store, p)| + Count(Projects(store, started + [id]), p)
  {
    hide ActiveIn, Count;
    ProjectsAppend(store, started, id);
    forall p {
      CountAppend(Projects(store, started), store[id].project, p);
    }
  }

  lemma StillOldestFirst(store: Store, queue: seq<RunId>, started: seq<RunId>, id: RunId)
    requires id in store && (forall x :: x in queue ==> x in store) && OldestFirst(store, queue, started)
    requires id !in queue
    requires forall j :: 0 <= j < |queue| && queue[j] !in started ==> store[queue[j]].project != store[id].project
    ensures OldestFirst(store, queue + [id], started + [id])
  {
  }

  lemma ScanStarts1(limits: Limits, store: Store, ends: Starting, queue: seq<RunId>, i: nat,
                    started: seq<RunId>, m: map<string, nat>, slots: nat, runs: Store)
    requires ScanSoFar(limits, store, ends, queue, i, started, m, slots, runs) && i < |queue| && slots > 0
    requires Tally(m, store[queue[i]].project) < limits.maxRunsPerProject
    ensures var id := queue[i];
            && id in runs && runs[id] == store[id] && store[id].status == QueuedRun
            && ScanSoFar(limits, store, ends, queue, i + 1, started + [id],
                         m[store[id].project := Tally(m, store[id].project) + 1], slots - 1,
                         WithStatus(runs, id, StatusOnStart(ends, id)))
  {
    hide IsQueue, Scanned, ActiveIn, Count, Started, OldestFirst, FreeSlots, StatusOnStart, Greedy;
    var id := queue[i];
    GreedyNext(limits, store, queue, i);
    assert queue[..i + 1] == queue[..i] + [id];
    NotYetScanned(store, queue, i);
    ProjectsAppend(store, queue[..i], id);
    ProjectsAppend(store, started, id);
    StartOne(store, ends, started, id);
    ScanTakes(Projects(store, queue[..i]), ActiveCounts(store), FreeSlots(limits, store), limits.maxRunsPerProject,
              Projects(store, started), store[id].project);
    ScanTallies(store, started, m, id);
    StillOldestFirst(store, queue[..i], started, id);
    StartedKeeps(store, ends, started, id);
  }

  lemma StartedKeeps(store: Store, ends: Starting, started: seq<RunId>, id: RunId)
    requires id in store && id !in started
    ensures id in Started(store, ends, started) && Started(store, ends, started)[id] == store[id]
  {
  }

  lemma ScanIsExhaustive(limits: Limits, store: Store, ends: Starting, queue: seq<RunId>, i: nat,
                         started: seq<RunId>, m: map<string, nat>, slots: nat, runs: Store)
    requires ScanSoFar(limits, store, ends, queue, i, started, m, slots, runs) && (i == |queue| || slots == 0)
    ensures PassIs(limits, store, ends, queue, started, runs)
  {
    hide IsQueue, Scanned, Exhaustive, ActiveIn, Count, Started, FreeSlots, Tally, Greedy, HasRoom;
    var ps, rest := Projects(store, queue[..i]), Projects(store, queue[i..]);
    assert queue == queue[..i] + queue[i..];
    assert Projects(store, queue) == ps + rest;
    if i == |queue| {
      ScanEnds(ps, ActiveCounts(store), FreeSlots(limits, store), limits.maxRunsPerProject, Projects(store, started));
      assert ps + rest == ps;
    } else {
      ScanStops(ps, rest, ActiveCounts(store), FreeSlots(limits, store), limits.maxRunsPerProject, Projects(store, started));
    }
    RestIsLater(store, queue, i, started);
    ScannedIsFull(limits, store, ends, queue, i, started, m, slots, runs);
    if i < |queue| {
      GreedyFull(limits, store, queue, i);
    } else {
      assert queue[..i] == queue;
    }
  }

  lemma ScannedIsFull(limits: Limits, store: Store, ends: Starting, queue: seq<RunId>, i: nat,
                      started: seq<RunId>, m: map<string, nat>, slots: nat, runs: Store)
    requires ScanSoFar(limits, store, ends, queue, i, started, m, slots, runs)
    ensures FullBefore(limits, store, queue, started)
  {
    hide Scanned, ActiveIn, Count, Started, OldestFirst, FreeSlots, Greedy, Tally;
    forall j, k | 0 <= j < k < |queue| && queue[k] in started && queue[j] !in started
      ensures !HasRoom(limits, store, started, store[queue[j]].project)
    {
      var at :| 0 <= at < i && queue[..i][at] == queue[k];
      assert at == k;
      var p := store[queue[j]].project;
      assert Tally(m, p) == |ActiveIn(store, p)| + Count(Projects(store, started), p);
    }
  }

  lemma RestIsLater(store: Store, queue: seq<RunId>, i: nat, started: seq<RunId>)
    requires IsQueue(store, queue) && i <= |queue| && (forall id :: id in queue ==> id in store)
    requires OldestFirst(store, queue[..i], started) && forall id :: id in started ==> id in queue[..i]
    ensures OldestFirst(store, queue, started)
  {
    forall j, k | 0 <= j < k < |queue| && queue[k] in started && store[queue[j]].project == store[queue[k]].project
      ensures queue[j] in started
    {
      var at :| 0 <= at < i && queue[..i][at] == queue[k];
      assert queue[at] == queue[k];
      assert at == k;
      assert queue[..i][j] == queue[j] && queue[..i][k] == queue[k];
    }
  }

  // What one pass does: it reads the queue and starts the runs the greedy scan of it starts. The scan
  // is exhaustive, goes oldest first inside each project, and goes past an older run only when that
  // run's project is full.
  ghost predicate PassIs(limits: Limits, store: Store, ends: Starting, queue: seq<RunId>, started: seq<RunId>, runs: Store) {
    && IsQueue(store, queue)
    && (forall id :: id in queue ==> id in store)
    && (forall id :: id in started ==> id in queue)
    && runs == Started(store, ends, started)
    && Exhaustive(Projects(store, queue), ActiveCounts(store), FreeSlots(limits, store), limits.maxRunsPerProject, Projects(store, started))
    && OldestFirst(store, queue, started)
    && FullBefore(limits, store, queue, started)
    && started == Greedy(limits, store, queue)
  }

  // A pass starts exactly as many runs as the limits allow, counted over any listing of the
  // projects, and no choice of queued runs within the limits starts more.
  lemma PassIsOptimal(limits: Limits, store: Store, ends: Starting, queue: seq<RunId>, started: seq<RunId>, runs: Store,
                      projects: seq<string>, choice: seq<string>)
    requires PassIs(limits, store, ends, queue, started, runs)
    requires Distinct(projects) && forall p :: p in Projects(store, queue) ==> p in projects
    ensures |started| == Min(FreeSlots(limits, store),
                             SumStartable(projects, Projects(store, queue), ActiveCounts(store), limits.maxRunsPerProject))
    ensures Feasible(Projects(store, queue), ActiveCounts(store), FreeSlots(limits, store), limits.maxRunsPerProject, choice)
            ==> |choice| <= |started|
  {
    hide IsQueue, Feasible, Exhaustive, FreeSlots, Started, OldestFirst, SumStartable, Greedy, HasRoom;
    var ps, free := Projects(store, queue), FreeSlots(limits, store);
    ScanStarts(projects, ps, ActiveCounts(store), free, limits.maxRunsPerProject, Projects(store, started));
    if Feasible(ps, ActiveCounts(store), free, limits.maxRunsPerProject, choice) {
      ScanIsOptimal(ps, ActiveCounts(store), free, limits.maxRunsPerProject, Projects(store, started), choice);
    }
  }

  ghost predicate GoodOutcomes(ends: Starting) {
    forall id :: ends(id).Some? ==> FiberEnd(RunningRun, ends(id).value)
  }

  // Runs change only by being started: queued ones, and those in `ids`.
  ghost predicate OnlyStarts(ends: Starting, store: Store, next: Store, ids: set<RunId>) {
    && next.Keys == store.Keys
    && forall id :: id in store ==>
         || next[id] == store[id]
         || ((store[id].status == QueuedRun || id in ids) && next[id] == store[id].(status := StatusOnStart(ends, id)))
  }

  lemma NothingStarts(ends: Starting, store: Store)
    ensures forall ids :: OnlyStarts(ends, store, store, ids)
  {
  }

  // The store once a run advances: a queued one is activated first.
  function BegunStore(store: Store, id: RunId): Store
    requires id in store
  {
    if store[id].status == QueuedRun then WithStatus(store, id, RunningRun) else store
  }

  lemma OneStarts(ends: Starting, store: Store, id: RunId)
    requires id in store && (store[id].status == QueuedRun || store[id].status == RunningRun)
    ensures id in BegunStore(store, id) && BegunStore(store, id)[id].status == RunningRun
    ensures ends(id).None? ==> BegunStore(store, id) == WithStatus(store, id, StatusOnStart(ends, id))
    ensures ends(id).Some? ==> WithStatus(BegunStore(store, id), id, ends(id).value) == WithStatus(store, id, StatusOnStart(ends, id))
    ensures OnlyStarts(ends, store, WithStatus(store, id, StatusOnStart(ends, id)), {id})
  {
  }

  lemma StartsWiden(ends: Starting, store: Store, next: Store, ids: set<RunId>, more: set<RunId>)
    requires OnlyStarts(ends, store, next, ids) && ids <= more
    ensures OnlyStarts(ends, store, next, more)
  {
  }

  lemma OthersKeep(ends: Starting, store: Store, next: Store, id: RunId, rest: set<RunId>)
    requires OnlyStarts(ends, store, next, {id})
    requires forall x :: x in rest ==> x in store && store[x].status == RunningRun
    ensures forall x :: x in rest - {id} ==> x in next && next[x].status == RunningRun
  {
  }

  lemma StartsCompose(ends: Starting, a: Store, b: Store, c: Store, ids: set<RunId>)
    requires OnlyStarts(ends, a, b, ids) && (OnlyStarts(ends, b, c, ids) || OnlyStarts(ends, b, c, {}))
    ensures OnlyStarts(ends, a, c, ids)
  {
  }

  lemma PassOnlyStarts(limits: Limits, store: Store, ends: Starting, queue: seq<RunId>, started: seq<RunId>, runs: Store)
    requires PassIs(limits, store, ends, queue, started, runs) && GoodOutcomes(ends)
    ensures OnlyStarts(ends, store, runs, {})
    ensures |QueuedIds(runs)| <= |QueuedIds(store)|
    ensures started != [] ==> |QueuedIds(runs)| < |QueuedIds(store)|
  {
    hide Exhaustive, OldestFirst, FreeSlots, Greedy, HasRoom;
    QueueIsQueued(store, queue);
    SubsetCardinality(QueuedIds(runs), QueuedIds(store));
    if started != [] {
      assert started[0] in QueuedIds(store) && started[0] !in QueuedIds(runs);
    }
  }

  // ----- the service

  // A state of the wake-up protocol that some history reaches; during a pass its count of the
  // queue is sound.
  ghost predicate Sound(limits: Limits, c: Controller) {
    Reachable(limits, false, c) && (!c.phase.Idle? ==> Awake(limits, c))
  }

  lemma NewPassIsAwake(limits: Limits, c: Controller, step: Step)
    requires c.phase.Idle? && Enabled(limits, c, step)
    ensures !Apply(limits, c, step).phase.Idle? ==> Awake(limits, Apply(limits, c, step))
  {
  }

  lemma SoundStep(limits: Limits, c: Controller, step: Step)
    requires Sound(limits, c) && Enabled(limits, c, step) && (!c.phase.Idle? ==> !Unannounced(c, step))
    ensures Sound(limits, Apply(limits, c, step))
    ensures !c.phase.Idle? ==> Awake(limits, Apply(limits, c, step))
  {
    hide Awake, Reachable, Enabled, Unannounced, Structured, WithinLimits;
    ReachOneMore(limits, false, c, step);
    ReachableKeeps(limits, false, c);
    if c.phase.Idle? {
      NewPassIsAwake(limits, c, step);
    } else {
      StepKeepsAwake(limits, c, step);
    }
  }

  // Every background run is over as soon as its run is.
  ghost predicate Alive(c: Controller) {
    forall id :: id in c.fibers ==> id in c.store && Active(c.store[id].status)
  }

  ghost predicate Steady(limits: Limits, c: Controller) {
    Sound(limits, c) && Alive(c)
  }

  // The protocol's state once a run advances in the background.
  function Begun(c: Controller, id: RunId): Controller
    requires id in c.store
  {
    c.(store := BegunStore(c.store, id), fibers := c.fibers + {id})
  }

  lemma CallStep(limits: Limits, c: Controller)
    requires Steady(limits, c) && c.owed > 0
    ensures c.phase.Idle? ==> Steady(limits, c.(phase := Starting, requested := false, owed := c.owed - 1))
    ensures !c.phase.Idle? ==> Steady(limits, c.(requested := true, owed := c.owed - 1))
  {
    hide Sound;
    SoundStep(limits, c, Call);
  }

  lemma FinishStep(limits: Limits, c: Controller, id: RunId, status: RunStatus)
    requires Steady(limits, c) && id in c.fibers && FiberEnd(c.store[id].status, status)
    ensures Steady(limits, Controller(WithStatus(c.store, id, status), c.fibers - {id}, c.phase, c.requested, c.owed + 1))
  {
    hide Sound;
    SoundStep(limits, c, Finish(id, status));
  }

  lemma EndPassStep(limits: Limits, c: Controller)
    requires Steady(limits, c) && c.phase.Scanning? && (c.phase.rest == [] || c.phase.slots == 0)
    ensures Steady(limits, if c.requested then c.(phase := Starting, requested := false) else c.(phase := Idle))
    ensures !c.requested && c.owed == 0 ==> AllBlocked(limits, c.store)
  {
    hide Sound, AllBlocked;
    SoundStep(limits, c, EndPass);
  }

  lemma ReadStep(limits: Limits, c: Controller, queue: seq<RunId>)
    requires Steady(limits, c) && c.phase == Starting && IsQueue(c.store, queue)
    ensures Steady(limits, c.(phase := Scanning(queue, FreeSlots(limits, c.store), ActiveByProject(c.store))))
  {
    hide Sound;
    SoundStep(limits, c, ReadQueue(queue));
  }

  lemma PassOverStep(limits: Limits, c: Controller)
    requires Steady(limits, c) && c.phase.Scanning? && c.phase.rest != [] && c.phase.slots > 0 && c.phase.rest[0] in c.store
    requires Tally(c.phase.tally, c.store[c.phase.rest[0]].project) >= limits.maxRunsPerProject
    ensures Steady(limits, c.(phase := c.phase.(rest := c.phase.rest[1..])))
  {
    hide Sound;
    SoundStep(limits, c, PassOver);
  }

  function Counted(phase: Phase, project: string): (r: Phase)
    requires phase.Scanning? && phase.rest != [] && phase.slots > 0
    ensures r.Scanning?
  {
    Scanning(phase.rest[1..], phase.slots - 1, phase.tally[project := Tally(phase.tally, project) + 1])
  }

  lemma ActivateStep(limits: Limits, c: Controller)
    requires Steady(limits, c) && c.phase.Scanning? && c.phase.rest != [] && c.phase.slots > 0 && c.phase.rest[0] in c.store
    requires c.store[c.phase.rest[0]].status == QueuedRun
    requires Tally(c.phase.tally, c.store[c.phase.rest[0]].project) < limits.maxRunsPerProject
    ensures c.phase.rest[0] !in c.fibers
    ensures Steady(limits, Begun(c.(phase := Counted(c.phase, c.store[c.phase.rest[0]].project)), c.phase.rest[0]))
  {
    hide Awake, WithinLimits, Reachable;
    assert Structured(c) by {
      ReachableKeeps(limits, false, c);
    }
    SoundStep(limits, c, Activate);
    assert Apply(limits, c, Activate)
           == Begun(c.(phase := Counted(c.phase, c.store[c.phase.rest[0]].project)), c.phase.rest[0]);
  }

  // A pass that has scanned a prefix of the queue, with the protocol scanning the rest.
  ghost predicate InScan(limits: Limits, store: Store, ends: Starting, queue: seq<RunId>, i: nat,
                         started: seq<RunId>, m: map<string, nat>, slots: nat, c: Controller)
  {
    && i <= |queue| && ScanSoFar(limits, store, ends, queue, i, started, m, slots, c.store)
    && c.phase.Scanning? && c.phase.rest == queue[i..] && c.phase.slots == slots
    && forall p :: Tally(c.phase.tally, p) == Tally(m, p)
  }

  lemma ScanOpens(limits: Limits, c: Controller, ends: Starting, queue: seq<RunId>, m: map<string, nat>)
    requires Steady(limits, c) && c.phase == Starting && IsQueue(c.store, queue)
    requires forall p :: Tally(m, p) == |ActiveIn(c.store, p)|
    ensures var next := c.(phase := Scanning(queue, FreeSlots(limits, c.store), ActiveByProject(c.store)));
            && Steady(limits, next)
            && InScan(limits, c.store, ends, queue, 0, [], m, FreeSlots(limits, c.store), next)
  {
    hide Steady, IsQueue, FreeSlots, ActiveByProject, ActiveIn, ScanSoFar, Tally;
    ReadStep(limits, c, queue);
    ScanBegins(limits, c.store, ends, queue, m);
    assert queue[0..] == queue;
    forall p {
      TallyIsActive(c.store, p);
    }
  }

  lemma ScanHead(limits: Limits, store: Store, ends: Starting, queue: seq<RunId>, i: nat,
                 started: seq<RunId>, m: map<string, nat>, slots: nat, c: Controller)
    requires InScan(limits, store, ends, queue, i, started, m, slots, c) && i < |queue|
    ensures var id := queue[i];
            && id in c.store && id in store && c.store[id] == store[id] && store[id].status == QueuedRun
            && c.phase.Scanning? && c.phase.slots == slots
            && c.phase.rest != [] && c.phase.rest[0] == id && c.phase.rest[1..] == queue[i + 1..]
            && Tally(c.phase.tally, store[id].project) == Tally(m, store[id].project)
  {
    hide IsQueue, Scanned, ActiveIn, Count, Started, OldestFirst, FreeSlots, StatusOnStart, Tally, Greedy;
    NotYetScanned(store, queue, i);
    StartedKeeps(store, ends, started, queue[i]);
  }

  lemma ScanDone(limits: Limits, store: Store, ends: Starting, queue: seq<RunId>, i: nat,
                 started: seq<RunId>, m: map<string, nat>, slots: nat, c: Controller)
    requires InScan(limits, store, ends, queue, i, started, m, slots, c) && (i >= |queue| || slots == 0)
    ensures PassIs(limits, store, ends, queue, started, c.store)
    ensures c.phase.Scanning? && (c.phase.rest == [] || c.phase.slots == 0)
  {
    hide ScanSoFar, PassIs, Tally;
    ScanIsExhaustive(limits, store, ends, queue, i, started, m, slots, c.store);
  }

  lemma ScanOver(limits: Limits, store: Store, ends: Starting, queue: seq<RunId>, i: nat,
                 started: seq<RunId>, m: map<string, nat>, slots: nat, c: Controller)
    requires InScan(limits, store, ends, queue, i, started, m, slots, c) && i < |queue| && slots > 0
    requires Steady(limits, c) && Tally(m, store[queue[i]].project) >= limits.maxRunsPerProject
    ensures var next := c.(phase := c.phase.(rest := c.phase.rest[1..]));
            Steady(limits, next) && InScan(limits, store, ends, queue, i + 1, started, m, slots, next)
  {
    hide Steady, ScanSoFar, Tally;
    ScanHead(limits, store, ends, queue, i, started, m, slots, c);
    PassOverStep(limits, c);
    ScanPassesOver(limits, store, ends, queue, i, started, m, slots, c.store);
  }

  lemma ScanStarting(limits: Limits, store: Store, ends: Starting, queue: seq<RunId>, i: nat,
                     started: seq<RunId>, m: map<string, nat>, slots: nat, c: Controller)
    requires InScan(limits, store, ends, queue, i, started, m, slots, c) && i < |queue| && slots > 0
    requires Steady(limits, c) && Tally(m, store[queue[i]].project) < limits.maxRunsPerProject
    ensures var id := queue[i];
            && id in c.store && id !in c.fibers && c.phase.rest != []
            && Steady(limits, Begun(c.(phase := Counted(c.phase, c.store[id].project)), id))
  {
    hide Steady, ScanSoFar, Begun;
    ScanHead(limits, store, ends, queue, i, started, m, slots, c);
    ActivateStep(limits, c);
  }

  lemma ScanStarted(limits: Limits, store: Store, ends: Starting, queue: seq<RunId>, i: nat,
                    started: seq<RunId>, m: map<string, nat>, slots: nat, c: Controller, next: Controller)
    requires InScan(limits, store, ends, queue, i, started, m, slots, c) && i < |queue| && slots > 0 && queue[i] in c.store
    requires var project := c.store[queue[i]].project;
             && Tally(m, project) < limits.maxRunsPerProject && c.phase.rest != []
             && next.store == WithStatus(c.store, queue[i], StatusOnStart(ends, queue[i])) && next.phase == Counted(c.phase, project)
    ensures var project := c.store[queue[i]].project;
            InScan(limits, store, ends, queue, i + 1, started + [queue[i]], m[project := Tally(m, project) + 1], slots - 1, next)
  {
    hide ScanSoFar, StatusOnStart, WithStatus;
    ScanHead(limits, store, ends, queue, i, started, m, slots, c);
    ScanStarts1(limits, store, ends, queue, i, started, m, slots, c.store);
    var project := c.store[queue[i]].project;
    var m' := m[project := Tally(m, project) + 1];
    forall p
      ensures Tally(next.phase.tally, p) == Tally(m', p)
    {
      assert Tally(c.phase.tally, p) == Tally(m, p);
    }
  }

  datatype RunControlError = RunNotFound | RunControlRejected

  lemma SubmitStep(limits: Limits, c: Controller, id: RunId, record: Record)
    requires Steady(limits, c) && id !in c.store && record.status == QueuedRun
    ensures Steady(limits, c.(store := c.store[id := record], owed := c.owed + 1))
  {
    hide Sound;
    SoundStep(limits, c, Submit(id, record));
  }

  lemma AdvancedIsStored(limits: Limits, c: Controller)
    requires Steady(limits, c)
    ensures forall id :: id in c.fibers ==> id in c.store && Active(c.store[id].status)
  {
    hide Sound;
  }

  // Canceling a run that is advanced: the request, then the end of its background run.
  lemma InterruptSteps(limits: Limits, c: Controller, id: RunId, failFast: bool, finalized: bool)
    requires Steady(limits, c) && c.phase.Idle? && id in c.fibers && id in c.store
    requires failFast ==> c.store[id].status != CancelingRun
    ensures !TerminalRunStatus(c.store[id].status)
    ensures var requested := WithStatus(c.store, id, if failFast then CanceledRun else CancelingRun);
            var ended := WithStatus(requested, id, if failFast || finalized then CanceledRun else CancelingRun);
            && ended == WithStatus(c.store, id, if failFast || finalized then CanceledRun else CancelingRun)
            && Steady(limits, Controller(ended, c.fibers - {id}, c.phase, c.requested, c.owed + 1))
  {
    hide Sound;
    var requested := c.(store := WithStatus(c.store, id, if failFast then CanceledRun else CancelingRun));
    SoundStep(limits, c, RequestCancel(id, failFast));
    SoundStep(limits, requested, Finish(id, if failFast || finalized then CanceledRun else CancelingRun));
  }

  // Canceling a run that nothing advances: the request, then its finalization.
  lemma FinalizeSteps(limits: Limits, c: Controller, id: RunId, failFast: bool)
    requires Steady(limits, c) && c.phase.Idle? && id !in c.fibers && id in c.store && !TerminalRunStatus(c.store[id].status)
    requires failFast ==> c.store[id].status != CancelingRun
    ensures Steady(limits, c.(store := WithStatus(c.store, id, CanceledRun)))
    ensures WithStatus(WithStatus(c.store, id, if failFast then CanceledRun else CancelingRun), id, CanceledRun)
            == WithStatus(c.store, id, CanceledRun)
  {
    hide Sound;
    SoundStep(limits, c, RequestCancel(id, failFast));
    assert WithStatus(WithStatus(c.store, id, CancelingRun), id, CanceledRun) == WithStatus(c.store, id, CanceledRun);
    if !failFast {
      SoundStep(limits, c.(store := WithStatus(c.store, id, CancelingRun)), FinalizeCancel(id));
    }
  }

  // Finalizing the cancellation of a queued run keeps the others blocked; that of a run left
  // canceling frees its slot.
  lemma FinalizeAndQueue(limits: Limits, c: Controller, id: RunId)
    requires id !in c.fibers && id in c.store && !TerminalRunStatus(c.store[id].status)
    ensures c.store[id].status == QueuedRun && AllBlocked(limits, c.store)
            ==> AllBlocked(limits, WithStatus(c.store, id, CanceledRun))
    ensures c.store[id].status == CancelingRun ==>
              (AllBlocked(limits, WithStatus(c.store, id, CanceledRun))
               <==> forall q :: q in c.store && c.store[q].status == QueuedRun ==> BlockedWithout(limits, c.store, q, c.store[id].project))
  {
    hide AllBlocked, BlockedWithout;
    if c.store[id].status == QueuedRun && AllBlocked(limits, c.store) {
      BusierStaysBlocked(limits, c.store, WithStatus(c.store, id, CanceledRun));
    } else if c.store[id].status == CancelingRun {
      UnannouncedCancelLoses(limits, c, id);
    }
  }

  // A restart keeps the limits: the canceled runs are finalized, the running ones go on.
  lemma RestartStep(limits: Limits, c: Controller)
    requires Steady(limits, c)
    ensures Steady(limits, Controller(Recovered(c.store), RunningIds(c.store), Idle, false, 1))
    ensures RunningIds(Recovered(c.store)) == RunningIds(c.store)
  {
    hide Reachable, Awake;
    ReachOneMore(limits, false, c, Restart);
  }

  // What a new process makes of each stored run: one that was being canceled is canceled, one that was
  // over stays as it is, one that was running goes on or ends, and a queued one stays queued or starts.
  ghost predicate TakenOver(ends: Starting, before: Store, after: Store) {
    && after.Keys == before.Keys
    && forall id :: id in before ==>
         && after[id].project == before[id].project && after[id].createdAt == before[id].createdAt
         && var status := after[id].status;
            match before[id].status
            case CancelingRun => status == CanceledRun
            case RunningRun => status == RunningRun || ends(id) == Some(status)
            case QueuedRun => status == QueuedRun || (if ends(id).None? then status == RunningRun else status == ends(id).value)
            case over => status == over
  }

  lemma StartupMeans(ends: Starting, before: Store, after: Store)
    requires OnlyStarts(ends, Recovered(before), after, RunningIds(before))
    ensures TakenOver(ends, before, after)
  {
  }

  lemma BegunAlready(c: Controller, id: RunId)
    requires id in c.fibers && id in c.store && c.store[id].status == RunningRun
    ensures Begun(c, id) == c
  {
  }

  class RunController {
    const limits: Limits
    const ends: Starting

    var runs: Store
    var activeRuns: set<RunId>
    var scheduling: bool
    var scheduleRequested: bool

    // The protocol's own view: its background runs, the scan in progress, the calls to come.
    ghost var fibers: set<RunId>
    ghost var phase: Phase
    ghost var owed: nat

    ghost function View(): Controller
      reads this
    {
      Controller(runs, fibers, phase, scheduleRequested, owed)
    }

    ghost predicate Valid()
      reads this
    {
      && Steady(limits, View())
      && (scheduling <==> !phase.Idle?)
      && activeRuns <= fibers
      && GoodOutcomes(ends)
    }

    // Recovered runs whose background run is still to be started.
    ghost function Waiting(): (w: set<RunId>)
      reads this`fibers, this`activeRuns
      ensures w <= fibers
    {
      fibers - activeRuns
    }

    ghost predicate AtRest()
      reads this
    {
      Valid() && !scheduling && !scheduleRequested && owed == 0 && activeRuns == fibers
    }

    constructor (limits: Limits, ends: Starting)
      requires GoodOutcomes(ends)
      ensures AtRest() && this.limits == limits && this.ends == ends && runs == map[]
    {
      this.limits, this.ends := limits, ends;
      runs, activeRuns, scheduling, scheduleRequested := map[], {}, false, false;
      fibers, phase, owed := {}, Idle, 0;
      new;
      EmptyReachable(limits);
    }

    method EnsureRunActive(id: RunId)
      requires id in runs && (runs[id].status == RunningRun || (runs[id].status == QueuedRun && id !in activeRuns))
      requires Steady(limits, Begun(View(), id)) && GoodOutcomes(ends)
      requires activeRuns <= fibers && (scheduling <==> !phase.Idle?)
      modifies this
      ensures Valid() && scheduling == old(scheduling) && owed == old(owed)
      ensures Waiting() == old(Waiting()) - {id}
      ensures OnlyStarts(ends, old(runs), runs, {id})
      ensures scheduling && id !in old(activeRuns) ==>
                && phase == old(phase) && fibers == (if ends(id).None? then old(fibers) + {id} else old(fibers) - {id})
                && runs == WithStatus(old(runs), id, StatusOnStart(ends, id))
                && scheduleRequested == (old(scheduleRequested) || ends(id).Some?)
      decreases if scheduling then 1 else 4
    {
      hide Steady, AllBlocked, FiberEnd, OnlyStarts;
      if id in activeRuns {
        assert View() == Begun(View(), id);
        NothingStarts(ends, runs);
        return;
      }
      hide WithStatus, StatusOnStart;
      OneStarts(ends, runs, id);
      if runs[id].status == QueuedRun {
        runs := WithStatus(runs, id, RunningRun);
      }
      fibers, activeRuns := fibers + {id}, activeRuns + {id};
      if ends(id).Some? {
        FinishStep(limits, View(), id, ends(id).value);
        runs := WithStatus(runs, id, ends(id).value);
        fibers, activeRuns, owed := fibers - {id}, activeRuns - {id}, owed + 1;
        ghost var ended := runs;
        ScheduleQueuedRuns();
        StartsCompose(ends, old(runs), ended, runs, {id});
      }
    }

    method ScheduleQueuedRuns()
      requires Valid() && owed > 0
      modifies this
      ensures Valid() && scheduling == old(scheduling) && owed == old(owed) - 1
      ensures Waiting() == old(Waiting())
      ensures OnlyStarts(ends, old(runs), runs, {})
      ensures scheduling ==>
                && scheduleRequested && runs == old(runs) && phase == old(phase)
                && fibers == old(fibers) && activeRuns == old(activeRuns)
      ensures !scheduling ==> !scheduleRequested
      ensures !scheduling && owed == 0 ==> AllBlocked(limits, runs)
      decreases if scheduling then 0 else 3
    {
      hide Steady, AllBlocked, OnlyStarts, QueuedIds, PassIs, GoodOutcomes, Waiting, IsQueue;
      CallStep(limits, View());
      NothingStarts(ends, runs);
      if scheduling {
        scheduleRequested, owed := true, owed - 1;
        return;
      }
      scheduling, phase, owed := true, Starting, owed - 1;
      scheduleRequested := false;
      var again := true;
      while again
        invariant Steady(limits, View()) && activeRuns <= fibers && scheduling
        invariant phase == if again then Starting else Idle
        invariant !scheduleRequested && (!again && owed == 0 ==> AllBlocked(limits, runs))
        invariant owed == old(owed) - 1
        invariant Waiting() == old(Waiting())
        invariant OnlyStarts(ends, old(runs), runs, {})
        decreases |QueuedIds(runs)| + if again then 1 else 0
      {
        scheduleRequested := false;
        ghost var before := runs;
        ghost var queue, started := ScheduleOnce();
        PassOnlyStarts(limits, before, ends, queue, started, runs);
        StartsCompose(ends, old(runs), before, runs, {});
        again := scheduleRequested;
        EndPassStep(limits, View());
        phase, scheduleRequested := if again then Starting else Idle, false;
      }
      scheduling := false;
    }

    // One pass: the runs it starts, of the queue it reads.
    method ScheduleOnce() returns (ghost queue: seq<RunId>, ghost started: seq<RunId>)
      requires Valid() && scheduling && phase == Starting && !scheduleRequested
      modifies this
      ensures Valid() && scheduling && owed == old(owed)
      ensures phase.Scanning? && (phase.rest == [] || phase.slots == 0)
      ensures Waiting() == old(Waiting())
      ensures PassIs(limits, old(runs), ends, queue, started, runs)
      ensures scheduleRequested ==> started != []
      decreases 2
    {
      hide Steady, InScan, PassIs, IsQueue, ActiveByProject, ActiveIn, OnlyStarts, StatusOnStart, Tally, Begun,
        Counted, WithStatus, GoodOutcomes, AllBlocked, FreeSlots, ActiveIds, QueuedIds;
      var queued := ListQueuedRuns(runs);
      var slots: nat := FreeSlots(limits, runs);
      var m: map<string, nat> := CountByProject(runs);
      ghost var store := runs;
      queue, started := queued, [];
      ScanOpens(limits, View(), ends, queued, m);
      phase := Scanning(queued, slots, ActiveByProject(runs));
      var i: nat := 0;
      while i < |queued| && slots > 0
        invariant Valid() && scheduling && owed == old(owed) && i <= |queued|
        invariant InScan(limits, store, ends, queued, i, started, m, slots, View())
        invariant Waiting() == old(Waiting())
        invariant scheduleRequested ==> started != []
      {
        var id := queued[i];
        ScanHead(limits, store, ends, queued, i, started, m, slots, View());
        var project := runs[id].project;
        if Tally(m, project) >= limits.maxRunsPerProject {
          ScanOver(limits, store, ends, queued, i, started, m, slots, View());
          phase := phase.(rest := phase.rest[1..]);
        } else {
          ScanStarting(limits, store, ends, queued, i, started, m, slots, View());
          ghost var before := View();
          phase := Counted(phase, project);
          EnsureRunActive(id);
          ScanStarted(limits, store, ends, queued, i, started, m, slots, before, View());
          m := m[project := Tally(m, project) + 1];
          slots := slots - 1;
          started := started + [id];
        }
        i := i + 1;
      }
      ScanDone(limits, store, ends, queued, i, started, m, slots, View());
    }

    // Creates a queued run and starts what the limits allow. A retry is the submission of a new
    // run for the plan of one that is not active.
    method SubmitRun(id: RunId, project: string, createdAt: int)
      requires AtRest() && id !in runs
      modifies this
      ensures AtRest() && AllBlocked(limits, runs)
      ensures OnlyStarts(ends, old(runs)[id := Record(project, QueuedRun, createdAt)], runs, {})
    {
      hide Steady, AllBlocked, OnlyStarts;
      SubmitStep(limits, View(), id, Record(project, QueuedRun, createdAt));
      runs, owed := runs[id := Record(project, QueuedRun, createdAt)], owed + 1;
      assert Waiting() == {};
      ScheduleQueuedRuns();
      assert fibers == activeRuns + Waiting();
    }

    // Returns whether the run could be retried.
    method RetryRun(retried: RunId, id: RunId, createdAt: int) returns (r: Option<RunControlError>)
      requires AtRest() && id !in runs
      modifies this
      ensures AtRest() && (r.None? ==> AllBlocked(limits, runs))
      ensures r == if retried !in old(runs) then Some(RunNotFound)
                   else if Active(old(runs)[retried].status) then Some(RunControlRejected) else None
      ensures r.Some? ==> runs == old(runs)
      ensures r.None? ==> OnlyStarts(ends, old(runs)[id := Record(old(runs)[retried].project, QueuedRun, createdAt)], runs, {})
    {
      if retried !in runs {
        return Some(RunNotFound);
      }
      if runs[retried].status == RunningRun || runs[retried].status == CancelingRun {
        return Some(RunControlRejected);
      }
      SubmitRun(id, runs[retried].project, createdAt);
      return None;
    }

    // A background run ends: it leaves its run in this status and asks for a pass.
    method Ended(id: RunId, status: RunStatus)
      requires AtRest() && id in activeRuns && id in runs && FiberEnd(runs[id].status, status)
      modifies this
      ensures AtRest() && AllBlocked(limits, runs)
      ensures OnlyStarts(ends, WithStatus(old(runs), id, status), runs, {})
    {
      hide Steady, AllBlocked, OnlyStarts;
      FinishStep(limits, View(), id, status);
      runs, fibers, activeRuns, owed := WithStatus(runs, id, status), fibers - {id}, activeRuns - {id}, owed + 1;
      assert Waiting() == {};
      ScheduleQueuedRuns();
      assert fibers == activeRuns + Waiting();
    }

    // Cancels a run. If nothing advances it, it is finalized here and no pass follows; otherwise its
    // background run is interrupted, which finalizes it or leaves it canceling.
    method CancelRun(id: RunId, failFast: bool, finalized: bool) returns (r: Option<RunControlError>)
      requires AtRest() && (id in runs && failFast ==> runs[id].status != CancelingRun)
      modifies this
      ensures AtRest()
      ensures r == if id in old(runs) then None else Some(RunNotFound)
      ensures id in old(activeRuns) ==>
                && AllBlocked(limits, runs)
                && OnlyStarts(ends, WithStatus(old(runs), id, if failFast || finalized then CanceledRun else CancelingRun), runs, {})
      ensures id in old(runs) && id !in old(activeRuns) ==>
                runs == if TerminalRunStatus(old(runs)[id].status) then old(runs) else WithStatus(old(runs), id, CanceledRun)
      ensures id in old(runs) && old(runs)[id].status == QueuedRun && old(AllBlocked(limits, runs)) ==> AllBlocked(limits, runs)
      ensures id in old(runs) && id !in old(activeRuns) && old(runs)[id].status == CancelingRun ==>
                (AllBlocked(limits, runs) <==> forall q :: q in old(runs) && old(runs)[q].status == QueuedRun
                                                     ==> BlockedWithout(limits, old(runs), q, old(runs)[id].project))
    {
      hide Steady, AllBlocked, OnlyStarts;
      if id !in runs {
        assert id !in activeRuns by {
          AdvancedIsStored(limits, View());
        }
        return Some(RunNotFound);
      }
      r := None;
      AdvancedIsStored(limits, View());
      if id in activeRuns {
        InterruptSteps(limits, View(), id, failFast, finalized);
        runs := WithStatus(runs, id, if failFast then CanceledRun else CancelingRun);
        runs := WithStatus(runs, id, if failFast || finalized then CanceledRun else CancelingRun);
        fibers, activeRuns, owed := fibers - {id}, activeRuns - {id}, owed + 1;
        assert Waiting() == {};
        ScheduleQueuedRuns();
        assert fibers == activeRuns + Waiting();
      } else if !TerminalRunStatus(runs[id].status) {
        FinalizeSteps(limits, View(), id, failFast);
        FinalizeAndQueue(limits, View(), id);
        runs := WithStatus(runs, id, if failFast then CanceledRun else CancelingRun);
        runs := WithStatus(runs, id, CanceledRun);
      }
    }

    // A new process takes over the stored runs: it finalizes those that were being canceled, goes on
    // with those that were running, and starts queued ones.
    method RecoverOnStartup()
      requires Valid()
      modifies this
      ensures AtRest() && AllBlocked(limits, runs)
      ensures OnlyStarts(ends, Recovered(old(runs)), runs, RunningIds(old(runs)))
      ensures TakenOver(ends, old(runs), runs)
    {
      hide Steady, AllBlocked, OnlyStarts, Begun, Recovered, TakenOver;
      RestartStep(limits, View());
      runs := Recovered(runs);
      scheduling, scheduleRequested, activeRuns := false, false, {};
      fibers, phase, owed := RunningIds(runs), Idle, 1;
      ghost var recovered, running := runs, RunningIds(runs);
      NothingStarts(ends, runs);
      var rest := RunningIds(runs);
      while rest != {}
        invariant Valid() && !scheduling && owed == 1
        invariant Waiting() == rest && rest <= running
        invariant forall id :: id in rest ==> id in runs && runs[id].status == RunningRun
        invariant OnlyStarts(ends, recovered, runs, running)
      {
        var id :| id in rest;
        BegunAlready(View(), id);
        ghost var before := runs;
        EnsureRunActive(id);
        OthersKeep(ends, before, runs, id, rest);
        StartsWiden(ends, before, runs, {id}, running);
        StartsCompose(ends, recovered, before, runs, running);
        rest := rest - {id};
      }
      ghost var before := runs;
      ScheduleQueuedRuns();
      StartsCompose(ends, recovered, before, runs, running);
      StartupMeans(ends, old(runs), runs);
      assert fibers == activeRuns + Waiting();
    }

    // Whatever the methods above do, the limits hold.
    lemma StaysWithinLimits()
      requires Valid()
      ensures |RunningIds(runs)| <= limits.maxRuns
      ensures forall p :: |RunningIn(runs, p)| <= limits.maxRunsPerProject
    {
      hide Awake, Reachable;
      CapacitySafety(limits, View());
    }
  }
}

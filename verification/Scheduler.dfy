// The wake-up protocol of the run controller: passes, background runs, submissions and cancellations
// interleaved step by step.

module Scheduler {
  import opened Basics
  import opened RunState
  import opened Capacity

  // What the scheduling loop is doing: nothing, about to read the queue, or scanning what it read.
  datatype Phase =
    | Idle
    | Starting
    | Scanning(rest: seq<RunId>, slots: nat, tally: map<string, nat>)

  // `fibers` are the runs advanced in the background; `owed` counts the calls of the scheduling
  // loop that a finished step is about to make; `requested` is the wake-up flag.
  datatype Controller = Controller(store: Store, fibers: set<RunId>, phase: Phase, requested: bool, owed: nat)

  datatype Step =
    | Submit(id: RunId, record: Record)
    | Call
    | ReadQueue(queue: seq<RunId>)
    | Activate
    | PassOver
    | EndPass
    | Finish(id: RunId, status: RunStatus)
    | Overwrite(id: RunId)
    | RequestCancel(id: RunId, failFast: bool)
    | FinalizeCancel(id: RunId)
    | Restart

  function Tally(m: map<string, nat>, p: string): nat {
    if p in m then m[p] else 0
  }

  function ActiveByProject(store: Store): map<string, nat> {
    map id | id in ActiveIds(store) :: store[id].project := |ActiveIn(store, store[id].project)|
  }

  function FreeSlots(limits: Limits, store: Store): nat {
    Max(limits.maxRuns - |ActiveIds(store)|, 0)
  }

  function WithStatus(store: Store, id: RunId, status: RunStatus): Store
    requires id in store
  {
    store[id := store[id].(status := status)]
  }

  // How the background execution of a run may leave it. An interrupted one may leave it canceling.
  predicate FiberEnd(before: RunStatus, after: RunStatus) {
    match before
    case RunningRun => after == SucceededRun || after == FailedRun || after == TimedOutRun
    case CancelingRun => TerminalRunStatus(after) || after == CancelingRun
    case _ => after == before
  }

  ghost predicate Enabled(limits: Limits, c: Controller, step: Step) {
    match step
    case Submit(id, record) => id !in c.store && record.status == QueuedRun
    case Call => c.owed > 0
    case ReadQueue(queue) => c.phase == Starting && IsQueue(c.store, queue)
    case Activate =>
      c.phase.Scanning? && c.phase.rest != [] && c.phase.slots > 0 && c.phase.rest[0] in c.store
      && Tally(c.phase.tally, c.store[c.phase.rest[0]].project) < limits.maxRunsPerProject
    case PassOver =>
      c.phase.Scanning? && c.phase.rest != [] && c.phase.slots > 0 && c.phase.rest[0] in c.store
      && Tally(c.phase.tally, c.store[c.phase.rest[0]].project) >= limits.maxRunsPerProject
    case EndPass => c.phase.Scanning? && (c.phase.rest == [] || c.phase.slots == 0)
    case Finish(id, status) => id in c.fibers && id in c.store && FiberEnd(c.store[id].status, status)
    case Overwrite(id) => id in c.fibers && id in c.store && c.store[id].status == CancelingRun
    case RequestCancel(id, failFast) =>
      // The run of a fail-fast plan is never canceling: it is canceled at once.
      id in c.store && !TerminalRunStatus(c.store[id].status) && (failFast ==> c.store[id].status != CancelingRun)
    case FinalizeCancel(id) => id in c.store && !TerminalRunStatus(c.store[id].status)
    case Restart => true
  }

  // A run canceled before the restart is finalized; the others keep their status.
  function Recovered(store: Store): Store {
    map id | id in store ::
      if store[id].status == CancelingRun then store[id].(status := CanceledRun) else store[id]
  }

  function ActivateNext(c: Controller): Controller
    requires c.phase.Scanning? && c.phase.rest != [] && c.phase.slots > 0 && c.phase.rest[0] in c.store
  {
    var id := c.phase.rest[0];
    var project := c.store[id].project;
    var phase := Scanning(c.phase.rest[1..], c.phase.slots - 1, c.phase.tally[project := Tally(c.phase.tally, project) + 1]);
    if id in c.fibers then c.(phase := phase)
    else
      var store := if c.store[id].status == QueuedRun then WithStatus(c.store, id, RunningRun) else c.store;
      c.(store := store, fibers := c.fibers + {id}, phase := phase)
  }

  function Apply(limits: Limits, c: Controller, step: Step): Controller
    requires Enabled(limits, c, step)
  {
    match step
    case Submit(id, record) => c.(store := c.store[id := record], owed := c.owed + 1)
    case Call =>
      if c.phase.Idle? then c.(phase := Starting, requested := false, owed := c.owed - 1)
      else c.(requested := true, owed := c.owed - 1)
    case ReadQueue(queue) => c.(phase := Scanning(queue, FreeSlots(limits, c.store), ActiveByProject(c.store)))
    case Activate => ActivateNext(c)
    case PassOver => c.(phase := c.phase.(rest := c.phase.rest[1..]))
    case EndPass => if c.requested then c.(phase := Starting, requested := false) else c.(phase := Idle)
    case Finish(id, status) =>
      c.(store := WithStatus(c.store, id, status), fibers := c.fibers - {id}, owed := c.owed + 1)
    case Overwrite(id) => c.(store := WithStatus(c.store, id, RunningRun))
    case RequestCancel(id, failFast) =>
      c.(store := WithStatus(c.store, id, if failFast then CanceledRun else CancelingRun))
    case FinalizeCancel(id) => c.(store := WithStatus(c.store, id, CanceledRun))
    case Restart => Controller(Recovered(c.store), RunningIds(c.store), Idle, false, 1)
  }

  // Finalizing the cancellation of a run that nothing advances: no scheduling pass follows.
  predicate Unannounced(c: Controller, step: Step) {
    step.FinalizeCancel? && step.id in c.store && c.store[step.id].status == CancelingRun && step.id !in c.fibers
  }

  const EMPTY := Controller(map[], {}, Idle, false, 0)

  // `announced`: no step of the history is unannounced.
  ghost predicate Plays(limits: Limits, announced: bool, a: Controller, steps: seq<Step>, b: Controller)
    decreases |steps|
  {
    if steps == [] then a == b
    else
      && Enabled(limits, a, steps[0])
      && (announced ==> !Unannounced(a, steps[0]))
      && Plays(limits, announced, Apply(limits, a, steps[0]), steps[1..], b)
  }

  ghost predicate Reachable(limits: Limits, announced: bool, c: Controller) {
    exists steps :: Plays(limits, announced, EMPTY, steps, c)
  }

  // ----- counting

  lemma TallyIsActive(store: Store, p: string)
    ensures Tally(ActiveByProject(store), p) == |ActiveIn(store, p)|
  {
    var m := ActiveByProject(store);
    if p in m {
      var id :| id in ActiveIds(store) && store[id].project == p;
      assert m[p] == |ActiveIn(store, p)|;
    } else {
      assert forall x :: x in ActiveIn(store, p) ==> x in ActiveIds(store) && store[x].project in m;
      assert ActiveIn(store, p) == {};
    }
  }

  // The runs advanced in the background that are not over.
  function InFlight(c: Controller): set<RunId> {
    set id | id in c.fibers && id in c.store && Active(c.store[id].status)
  }

  function InFlightIn(c: Controller, p: string): set<RunId> {
    set id | id in c.fibers && id in c.store && Active(c.store[id].status) && c.store[id].project == p
  }

  // ----- what every step keeps

  ghost predicate Structured(c: Controller) {
    && (forall id :: id in c.fibers ==> id in c.store && c.store[id].status != QueuedRun)
    && (forall id :: id in c.store && c.store[id].status == RunningRun ==> id in c.fibers)
    && (c.phase.Scanning? ==> Distinct(c.phase.rest) && forall id :: id in c.phase.rest ==> id in c.store && id !in c.fibers)
  }

  // The limits hold, and the scan's own count keeps them for what it is about to start.
  ghost predicate WithinLimits(limits: Limits, c: Controller) {
    && |InFlight(c)| <= limits.maxRuns
    && (forall p :: |InFlightIn(c, p)| <= limits.maxRunsPerProject)
    && (c.phase.Scanning? ==>
          && |InFlight(c)| + c.phase.slots <= limits.maxRuns
          && forall p :: |InFlightIn(c, p)| <= Tally(c.phase.tally, p))
  }

  // No scheduling call is owed, requested, or still to come from a background run that is over.
  ghost predicate NothingOwed(c: Controller) {
    && !c.requested && c.owed == 0
    && forall id :: id in c.fibers && id in c.store ==> Active(c.store[id].status)
  }

  ghost predicate AllBlocked(limits: Limits, store: Store) {
    forall id :: id in store && store[id].status == QueuedRun ==> Blocked(limits, store, id)
  }

  function Outside(store: Store, rest: set<RunId>): set<RunId> {
    ActiveIds(store) - rest
  }

  function OutsideIn(store: Store, rest: set<RunId>, p: string): set<RunId> {
    ActiveIn(store, p) - rest
  }

  // The scan's count never exceeds the active runs outside the rest of the queue, and every queued
  // run outside the rest was passed over.
  ghost predicate CountIsSound(limits: Limits, store: Store, rest: set<RunId>, slots: nat, tally: map<string, nat>) {
    && limits.maxRuns <= |Outside(store, rest)| + slots
    && (forall p :: Tally(tally, p) <= |OutsideIn(store, rest, p)|)
    && (forall id :: id in store && store[id].status == QueuedRun && id !in rest
                     ==> Tally(tally, store[id].project) >= limits.maxRunsPerProject)
  }

  ghost predicate Awake(limits: Limits, c: Controller) {
    NothingOwed(c) ==>
      match c.phase
      case Idle => AllBlocked(limits, c.store)
      case Starting => true
      case Scanning(rest, slots, tally) => CountIsSound(limits, c.store, Elements(rest), slots, tally)
  }

  // ----- each invariant, step by step

  lemma RestTail(rest: seq<RunId>)
    requires Distinct(rest) && rest != []
    ensures Distinct(rest[1..]) && Elements(rest[1..]) == Elements(rest) - {rest[0]}
    ensures forall id :: id in rest[1..] <==> id in rest && id != rest[0]
  {
    assert rest == [rest[0]] + rest[1..];
    assert forall i :: 1 <= i < |rest| ==> rest[i] == rest[1..][i - 1];
  }

  lemma ScanKeepsStructure(limits: Limits, c: Controller, step: Step)
    requires Structured(c) && Enabled(limits, c, step)
    requires step.ReadQueue? || step.Activate? || step.PassOver?
    ensures Structured(Apply(limits, c, step))
  {
    hide Tally, ActiveByProject, FreeSlots;
    if step.ReadQueue? {
      assert forall id :: id in step.queue <==> id in Elements(step.queue);
    } else {
      RestTail(c.phase.rest);
    }
  }

  lemma StepKeepsStructure(limits: Limits, c: Controller, step: Step)
    requires Structured(c) && Enabled(limits, c, step)
    ensures Structured(Apply(limits, c, step))
  {
    hide Tally, ActiveByProject, FreeSlots, IsQueue, ActivateNext;
    if step.ReadQueue? || step.Activate? || step.PassOver? {
      hide Structured, Apply;
      ScanKeepsStructure(limits, c, step);
    }
  }

  lemma FewerInFlight(a: Controller, b: Controller, p: string)
    requires InFlight(b) <= InFlight(a) && forall id :: id in InFlight(b) ==> a.store[id].project == b.store[id].project
    ensures |InFlight(b)| <= |InFlight(a)| && |InFlightIn(b, p)| <= |InFlightIn(a, p)|
  {
    SubsetCardinality(InFlight(b), InFlight(a));
    forall id | id in InFlightIn(b, p)
      ensures id in InFlightIn(a, p)
    {
      assert id in InFlight(b);
      assert id in InFlight(a);
    }
    SubsetCardinality(InFlightIn(b, p), InFlightIn(a, p));
  }

  // Only a scan step puts a run in flight.
  lemma OnlyActivateStarts(limits: Limits, c: Controller, step: Step, id: RunId)
    requires Structured(c) && Enabled(limits, c, step) && !step.Activate?
    requires id in InFlight(Apply(limits, c, step))
    ensures id in InFlight(c) && c.store[id].project == Apply(limits, c, step).store[id].project
  {
    hide Tally, ActiveByProject, FreeSlots, IsQueue;
  }

  lemma ActivateAddsOne(c: Controller, p: string)
    requires c.phase.Scanning? && c.phase.rest != [] && c.phase.slots > 0 && c.phase.rest[0] in c.store
    ensures var next, id := ActivateNext(c), c.phase.rest[0];
            && InFlight(next) <= InFlight(c) + {id}
            && InFlightIn(next, p) <= InFlightIn(c, p) + if p == c.store[id].project then {id} else {}
  {
    hide Tally;
  }

  lemma ActivateInFlight(c: Controller, p: string)
    requires c.phase.Scanning? && c.phase.rest != [] && c.phase.slots > 0 && c.phase.rest[0] in c.store
    ensures var next, id := ActivateNext(c), c.phase.rest[0];
            && |InFlight(next)| <= |InFlight(c)| + 1
            && |InFlightIn(next, p)| <= |InFlightIn(c, p)| + if p == c.store[id].project then 1 else 0
  {
    hide Tally, InFlight, InFlightIn, ActivateNext;
    var next, id := ActivateNext(c), c.phase.rest[0];
    ActivateAddsOne(c, p);
    SubsetCardinality(InFlight(next), InFlight(c) + {id});
    SubsetCardinality(InFlightIn(next, p), InFlightIn(c, p) + if p == c.store[id].project then {id} else {});
  }

  lemma InFlightIsActive(c: Controller, p: string)
    ensures |InFlight(c)| <= |ActiveIds(c.store)| && |InFlightIn(c, p)| <= |ActiveIn(c.store, p)|
  {
    SubsetCardinality(InFlight(c), ActiveIds(c.store));
    SubsetCardinality(InFlightIn(c, p), ActiveIn(c.store, p));
  }

  lemma StepKeepsLimits(limits: Limits, c: Controller, step: Step)
    requires Structured(c) && WithinLimits(limits, c) && Enabled(limits, c, step)
    ensures WithinLimits(limits, Apply(limits, c, step))
  {
    hide InFlight, InFlightIn, ActiveIds, ActiveIn, ActiveByProject, IsQueue, Structured;
    var next := Apply(limits, c, step);
    if step.Activate? {
      ActivateInFlight(c, "");
      forall p
        ensures |InFlightIn(next, p)| <= |InFlightIn(c, p)| + if p == c.store[c.phase.rest[0]].project then 1 else 0
      {
        ActivateInFlight(c, p);
      }
    } else {
      forall id | id in InFlight(next) {
        OnlyActivateStarts(limits, c, step, id);
      }
      forall p
        ensures |InFlight(next)| <= |InFlight(c)| && |InFlightIn(next, p)| <= |InFlightIn(c, p)|
      {
        FewerInFlight(c, next, p);
      }
      FewerInFlight(c, next, "");
      if step.ReadQueue? {
        forall p
          ensures |InFlightIn(next, p)| <= Tally(ActiveByProject(c.store), p) && |InFlight(c)| <= |ActiveIds(c.store)|
        {
          InFlightIsActive(next, p);
          TallyIsActive(c.store, p);
          InFlightIsActive(c, p);
        }
        InFlightIsActive(c, "");
      }
    }
  }

  // ----- wake-ups

  // What the scan makes of the run at the head of the queue.
  function Taken(store: Store, id: RunId): Store
    requires id in store
  {
    if store[id].status == QueuedRun then WithStatus(store, id, RunningRun) else store
  }

  lemma TakenIsOutside(store: Store, rest: set<RunId>, id: RunId, p: string)
    requires id in rest && id in store && (store[id].status == QueuedRun || store[id].status == CancelingRun)
    ensures Outside(Taken(store, id), rest - {id}) == Outside(store, rest) + {id}
    ensures OutsideIn(Taken(store, id), rest - {id}, p) == OutsideIn(store, rest, p) + if p == store[id].project then {id} else {}
  {
  }

  lemma TakenCounts(store: Store, rest: set<RunId>, id: RunId, p: string)
    requires id in rest && id in store && (store[id].status == QueuedRun || store[id].status == CancelingRun)
    ensures |Outside(Taken(store, id), rest - {id})| == |Outside(store, rest)| + 1
    ensures |OutsideIn(Taken(store, id), rest - {id}, p)| == |OutsideIn(store, rest, p)| + if p == store[id].project then 1 else 0
  {
    hide Taken, ActiveIds, ActiveIn;
    TakenIsOutside(store, rest, id, p);
    assert id !in Outside(store, rest) && id !in OutsideIn(store, rest, p);
  }

  // Starting the run at the head of the queue keeps the count sound.
  lemma ActivateKeepsCount(limits: Limits, store: Store, rest: set<RunId>, slots: nat, tally: map<string, nat>, id: RunId)
    requires CountIsSound(limits, store, rest, slots, tally) && slots > 0
    requires id in rest && id in store && (store[id].status == QueuedRun || store[id].status == CancelingRun)
    ensures var project := store[id].project;
            CountIsSound(limits, Taken(store, id), rest - {id}, slots - 1, tally[project := Tally(tally, project) + 1])
  {
    hide Outside, OutsideIn;
    forall p {
      TakenCounts(store, rest, id, p);
    }
    TakenCounts(store, rest, id, "");
  }

  // Passing over the head of the queue keeps the count sound.
  lemma PassOverKeepsCount(limits: Limits, store: Store, rest: set<RunId>, slots: nat, tally: map<string, nat>, id: RunId)
    requires CountIsSound(limits, store, rest, slots, tally)
    requires id in rest && id in store && Tally(tally, store[id].project) >= limits.maxRunsPerProject
    ensures CountIsSound(limits, store, rest - {id}, slots, tally)
  {
    hide ActiveIds, ActiveIn, Tally;
    SubsetCardinality(Outside(store, rest), Outside(store, rest - {id}));
    forall p
      ensures |OutsideIn(store, rest, p)| <= |OutsideIn(store, rest - {id}, p)|
    {
      SubsetCardinality(OutsideIn(store, rest, p), OutsideIn(store, rest - {id}, p));
    }
  }

  // A store with no fewer active runs and no more queued ones.
  ghost predicate Busier(store: Store, next: Store) {
    && ActiveIds(store) <= ActiveIds(next)
    && (forall p :: ActiveIn(store, p) <= ActiveIn(next, p))
    && forall id :: id in next && next[id].status == QueuedRun
                    ==> id in store && store[id].status == QueuedRun && store[id].project == next[id].project
  }

  lemma BusierKeepsCount(limits: Limits, store: Store, next: Store, rest: set<RunId>, slots: nat, tally: map<string, nat>)
    requires Busier(store, next) && CountIsSound(limits, store, rest, slots, tally)
    ensures CountIsSound(limits, next, rest, slots, tally)
  {
    hide ActiveIds, ActiveIn, Tally;
    SubsetCardinality(Outside(store, rest), Outside(next, rest));
    forall p
      ensures |OutsideIn(store, rest, p)| <= |OutsideIn(next, rest, p)|
    {
      SubsetCardinality(OutsideIn(store, rest, p), OutsideIn(next, rest, p));
    }
  }

  lemma BusierStaysBlocked(limits: Limits, store: Store, next: Store)
    requires Busier(store, next) && AllBlocked(limits, store)
    ensures AllBlocked(limits, next)
  {
    hide ActiveIds, ActiveIn;
    SubsetCardinality(ActiveIds(store), ActiveIds(next));
    forall p
      ensures |ActiveIn(store, p)| <= |ActiveIn(next, p)|
    {
      SubsetCardinality(ActiveIn(store, p), ActiveIn(next, p));
    }
  }

  // A step outside the scheduling loop that owes no call only makes the store busier.
  lemma QuietStepIsBusier(limits: Limits, c: Controller, step: Step)
    requires Structured(c) && Enabled(limits, c, step) && !Unannounced(c, step)
    requires step.Overwrite? || step.RequestCancel? || step.FinalizeCancel?
    requires NothingOwed(Apply(limits, c, step))
    ensures NothingOwed(c) && Busier(c.store, Apply(limits, c, step).store)
  {
    var next := Apply(limits, c, step);
    assert forall id :: id in c.store && Active(c.store[id].status) ==> Active(next.store[id].status);
  }

  // A pass that ends with nothing owed leaves every queued run blocked.
  lemma PassEndsBlocked(limits: Limits, store: Store, rest: set<RunId>, slots: nat, tally: map<string, nat>)
    requires CountIsSound(limits, store, rest, slots, tally) && (rest == {} || slots == 0)
    ensures AllBlocked(limits, store)
  {
    hide ActiveIds, ActiveIn, Tally;
    SubsetCardinality(Outside(store, rest), ActiveIds(store));
    forall p
      ensures |OutsideIn(store, rest, p)| <= |ActiveIn(store, p)|
    {
      SubsetCardinality(OutsideIn(store, rest, p), ActiveIn(store, p));
    }
  }

  lemma QueueIsOutside(store: Store, queue: seq<RunId>, p: string)
    requires Elements(queue) == QueuedIds(store)
    ensures Outside(store, Elements(queue)) == ActiveIds(store) && OutsideIn(store, Elements(queue), p) == ActiveIn(store, p)
  {
  }

  lemma SnapshotIsSound(limits: Limits, store: Store, queue: seq<RunId>)
    requires IsQueue(store, queue)
    ensures CountIsSound(limits, store, Elements(queue), FreeSlots(limits, store), ActiveByProject(store))
  {
    hide ActiveByProject, Tally, Outside, OutsideIn, ActiveIds, ActiveIn;
    QueueIsOutside(store, queue, "");
    forall p
      ensures Tally(ActiveByProject(store), p) <= |OutsideIn(store, Elements(queue), p)|
    {
      TallyIsActive(store, p);
      QueueIsOutside(store, queue, p);
    }
  }

  lemma ActivateKeepsAwake(limits: Limits, c: Controller)
    requires Structured(c) && Awake(limits, c) && Enabled(limits, c, Activate)
    ensures Awake(limits, ActivateNext(c))
  {
    hide CountIsSound, Tally;
    var id := c.phase.rest[0];
    RestTail(c.phase.rest);
    if NothingOwed(ActivateNext(c)) {
      assert id in ActivateNext(c).fibers;
      assert forall x :: x in c.fibers ==> x != id;
      assert NothingOwed(c);
      ActivateKeepsCount(limits, c.store, Elements(c.phase.rest), c.phase.slots, c.phase.tally, id);
    }
  }

  lemma StepKeepsAwake(limits: Limits, c: Controller, step: Step)
    requires Structured(c) && Awake(limits, c) && Enabled(limits, c, step) && !Unannounced(c, step)
    ensures Awake(limits, Apply(limits, c, step))
  {
    hide CountIsSound, AllBlocked, Tally, IsQueue, Busier, ActivateNext, FreeSlots, ActiveByProject;
    var next := Apply(limits, c, step);
    if NothingOwed(next) {
      match step
      case ReadQueue(queue) =>
        SnapshotIsSound(limits, c.store, queue);
      case Activate =>
        ActivateKeepsAwake(limits, c);
      case PassOver =>
        RestTail(c.phase.rest);
        PassOverKeepsCount(limits, c.store, Elements(c.phase.rest), c.phase.slots, c.phase.tally, c.phase.rest[0]);
      case EndPass =>
        if !c.requested {
          PassEndsBlocked(limits, c.store, Elements(c.phase.rest), c.phase.slots, c.phase.tally);
        }
      case Submit(_, _) =>
      case Call =>
      case Finish(_, _) =>
      case Restart =>
      case _ =>
        QuietStepIsBusier(limits, c, step);
        if c.phase.Idle? {
          BusierStaysBlocked(limits, c.store, next.store);
        } else if c.phase.Scanning? {
          BusierKeepsCount(limits, c.store, next.store, Elements(c.phase.rest), c.phase.slots, c.phase.tally);
        }
    }
  }

  // ----- whole histories

  lemma {:induction false} PlaysKeep(limits: Limits, announced: bool, a: Controller, steps: seq<Step>, b: Controller)
    requires Plays(limits, announced, a, steps, b)
    requires Structured(a) && WithinLimits(limits, a) && (announced ==> Awake(limits, a))
    ensures Structured(b) && WithinLimits(limits, b) && (announced ==> Awake(limits, b))
    decreases |steps|
  {
    hide Structured, WithinLimits, Awake, Enabled, Apply, Unannounced;
    if steps != [] {
      StepKeepsStructure(limits, a, steps[0]);
      StepKeepsLimits(limits, a, steps[0]);
      if announced {
        StepKeepsAwake(limits, a, steps[0]);
      }
      PlaysKeep(limits, announced, Apply(limits, a, steps[0]), steps[1..], b);
    }
  }

  lemma ReachableKeeps(limits: Limits, announced: bool, c: Controller)
    requires Reachable(limits, announced, c)
    ensures Structured(c) && WithinLimits(limits, c) && (announced ==> Awake(limits, c))
  {
    var steps :| Plays(limits, announced, EMPTY, steps, c);
    assert InFlight(EMPTY) == {};
    assert forall p :: InFlightIn(EMPTY, p) == {};
    PlaysKeep(limits, announced, EMPTY, steps, c);
  }

  // Capacity safety: in every history of submissions, passes, finishes, cancellations and restarts,
  // the running runs stay within both limits, and each of them is being advanced.
  lemma CapacitySafety(limits: Limits, c: Controller)
    requires Reachable(limits, false, c)
    ensures |RunningIds(c.store)| <= limits.maxRuns
    ensures forall p :: |RunningIn(c.store, p)| <= limits.maxRunsPerProject
    ensures RunningIds(c.store) <= c.fibers
  {
    ReachableKeeps(limits, false, c);
    SubsetCardinality(RunningIds(c.store), InFlight(c));
    forall p
      ensures |RunningIn(c.store, p)| <= limits.maxRunsPerProject
    {
      SubsetCardinality(RunningIn(c.store, p), InFlightIn(c, p));
    }
  }

  // No lost wake-up: when no pass is in progress and none is requested or owed, every queued run is
  // held back by the global limit or by the limit of its project.
  lemma NoLostWakeup(limits: Limits, c: Controller)
    requires Reachable(limits, true, c) && c.phase.Idle? && NothingOwed(c)
    ensures AllBlocked(limits, c.store)
  {
    hide AllBlocked;
    ReachableKeeps(limits, true, c);
  }

  lemma {:induction false} PlaysOneMore(limits: Limits, announced: bool, a: Controller, steps: seq<Step>, b: Controller, step: Step)
    requires Plays(limits, announced, a, steps, b) && Enabled(limits, b, step)
    requires announced ==> !Unannounced(b, step)
    ensures Plays(limits, announced, a, steps + [step], Apply(limits, b, step))
    decreases |steps|
  {
    hide Enabled, Apply, Unannounced;
    if steps == [] {
      assert Plays(limits, announced, Apply(limits, b, step), [], Apply(limits, b, step));
    } else {
      PlaysOneMore(limits, announced, Apply(limits, a, steps[0]), steps[1..], b, step);
      assert (steps + [step])[1..] == steps[1..] + [step];
    }
  }

  lemma ReachOneMore(limits: Limits, announced: bool, c: Controller, step: Step)
    requires Reachable(limits, announced, c) && Enabled(limits, c, step) && (announced ==> !Unannounced(c, step))
    ensures Reachable(limits, announced, Apply(limits, c, step))
  {
    hide Enabled, Apply, Unannounced;
    var steps :| Plays(limits, announced, EMPTY, steps, c);
    PlaysOneMore(limits, announced, EMPTY, steps, c, step);
  }

  lemma CanceledFrees(store: Store, id: RunId)
    requires id in store && store[id].status == CancelingRun
    ensures |ActiveIds(store)| == |ActiveIds(WithStatus(store, id, CanceledRun))| + 1
  {
    var next := WithStatus(store, id, CanceledRun);
    forall q
      ensures q in ActiveIds(store) <==> q in ActiveIds(next) + {id}
    {
    }
    assert ActiveIds(store) == ActiveIds(next) + {id} && id !in ActiveIds(next);
  }

  lemma CanceledFreesIn(store: Store, id: RunId, p: string)
    requires id in store && store[id].status == CancelingRun
    ensures |ActiveIn(store, p)|
            == |ActiveIn(WithStatus(store, id, CanceledRun), p)| + if p == store[id].project then 1 else 0
  {
    var next := WithStatus(store, id, CanceledRun);
    var freed := if p == store[id].project then {id} else {};
    forall q
      ensures q in ActiveIn(store, p) <==> q in ActiveIn(next, p) + freed
    {
    }
    assert ActiveIn(store, p) == ActiveIn(next, p) + freed && id !in ActiveIn(next, p);
  }

  // A queued run that stays blocked when one more run of the project stops being active.
  predicate BlockedWithout(limits: Limits, store: Store, id: RunId, project: string)
    requires id in store
  {
    || |ActiveIds(store)| > limits.maxRuns
    || |ActiveIn(store, store[id].project)| >= limits.maxRunsPerProject + if store[id].project == project then 1 else 0
  }

  // What finalizing an unannounced cancellation does to the queue: it frees a slot and nobody is
  // told, so every queued run is still blocked exactly when none was waiting for that slot.
  lemma UnannouncedCancelLoses(limits: Limits, c: Controller, id: RunId)
    requires Enabled(limits, c, FinalizeCancel(id)) && Unannounced(c, FinalizeCancel(id))
    ensures AllBlocked(limits, Apply(limits, c, FinalizeCancel(id)).store)
            <==> forall q :: q in c.store && c.store[q].status == QueuedRun ==> BlockedWithout(limits, c.store, q, c.store[id].project)
  {
    hide ActiveIds, ActiveIn, IsQueue;
    var next := Apply(limits, c, FinalizeCancel(id)).store;
    forall q | q in c.store && c.store[q].status == QueuedRun
      ensures q in next && next[q] == c.store[q] && (Blocked(limits, next, q) <==> BlockedWithout(limits, c.store, q, c.store[id].project))
    {
      CanceledFrees(c.store, id);
      CanceledFreesIn(c.store, id, c.store[q].project);
    }
  }

  // ----- a lost wake-up

  const ONE_RUN := Limits(1, 1)

  function Queued(project: string): Record {
    Record(project, QueuedRun, 0)
  }

  lemma Extend(c: Controller, step: Step) returns (next: Controller)
    requires Reachable(ONE_RUN, false, c) && Enabled(ONE_RUN, c, step)
    ensures Reachable(ONE_RUN, false, next) && next == Apply(ONE_RUN, c, step)
  {
    next := Apply(ONE_RUN, c, step);
    ReachOneMore(ONE_RUN, false, c, step);
  }

  // A pass that finds the only slot taken by a run that is being canceled.
  lemma Pass(c: Controller) returns (next: Controller)
    requires Reachable(ONE_RUN, false, c) && c.phase == Starting && !c.requested
    requires c.store == map["a" := Queued("p").(status := CancelingRun), "b" := Queued("p")]
    ensures Reachable(ONE_RUN, false, next) && next == c.(phase := Idle)
  {
    hide Reachable;
    assert ActiveIds(c.store) == {"a"};
    assert QueuedIds(c.store) == {"b"} == Elements(["b"]);
    next := Extend(c, ReadQueue(["b"]));
    next := Extend(next, EndPass);
  }

  // A pass is about to look at a queued run while the run before it is being canceled.
  lemma CanceledWhileQueued() returns (c: Controller)
    ensures Reachable(ONE_RUN, false, c)
    ensures c == Controller(map["a" := Queued("p").(status := CancelingRun), "b" := Queued("p")], {}, Starting, false, 1)
  {
    hide Reachable, IsQueue, Tally, RunningIds;
    assert Reachable(ONE_RUN, false, EMPTY) by {
      EmptyReachable(ONE_RUN);
    }
    c := Extend(EMPTY, Submit("a", Queued("p")));
    c := Extend(c, RequestCancel("a", false));
    c := Extend(c, Submit("b", Queued("p")));
    c := Extend(c, Call);
    assert c.store == map["a" := Queued("p").(status := CancelingRun), "b" := Queued("p")];
  }

  lemma EmptyReachable(limits: Limits)
    ensures Reachable(limits, false, EMPTY)
  {
    assert Plays(limits, false, EMPTY, [], EMPTY);
  }

  // The run being canceled counts as active until the last pass is over, and is then canceled.
  lemma WakeupIsLost() returns (c: Controller)
    ensures Reachable(ONE_RUN, false, c) && c.phase.Idle? && NothingOwed(c)
    ensures c.store == map["a" := Queued("p").(status := CanceledRun), "b" := Queued("p")]
    ensures !Blocked(ONE_RUN, c.store, "b")
  {
    hide Reachable, IsQueue, Tally, RunningIds, ActiveIds, ActiveIn;
    c := CanceledWhileQueued();
    c := Pass(c);
    c := Extend(c, Call);
    c := Pass(c);
    c := Extend(c, FinalizeCancel("a"));
    assert c.store == map["a" := Queued("p").(status := CanceledRun), "b" := Queued("p")];
    NothingActive(c.store);
  }

  lemma NothingActive(store: Store)
    requires forall id :: id in store ==> !Active(store[id].status)
    ensures ActiveIds(store) == {} && forall p :: ActiveIn(store, p) == {}
  {
  }
}

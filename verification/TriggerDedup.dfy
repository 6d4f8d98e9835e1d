// Webhook triggers: concurrent deliveries with the same idempotency key share one run.

module TriggerDedup {
  import opened Basics
  import opened RunState

  type Key = string

  // One background execution of a trigger: it submits a run, records the delivery, and ends.
  datatype Stage =
    | Loading
    | SubmittedRun(run: RunId)
    | RecordedRun(run: RunId)
    | Ended(result: Option<RunId>)

  datatype Execution = Execution(key: Key, stage: Stage)

  // One trigger: it looks its key up among the deliveries, then answers or waits for an execution.
  datatype Request =
    | LookedUp(key: Key, found: Option<RunId>)
    | Joined(key: Key, execution: nat)
    | Answered(key: Key, run: Option<RunId>)

  datatype Dedup = Dedup(
    deliveries: map<Key, RunId>,
    inflight: map<Key, nat>,
    executions: seq<Execution>,
    requests: seq<Request>,
    submitted: map<RunId, Key>)

  datatype Step =
    | LookUp(key: Key)
    | Decide(request: nat)
    | GiveUp(execution: nat)
    | Submit(execution: nat, run: RunId)
    | Record(execution: nat)
    | Finish(execution: nat)
    | Answer(request: nat)

  const NO_TRIGGERS := Dedup(map[], map[], [], [], map[])

  predicate Running(d: Dedup, e: nat) {
    e < |d.executions| && !d.executions[e].stage.Ended?
  }

  predicate Enabled(d: Dedup, step: Step) {
    match step
    case LookUp(_) => true
    case Decide(t) => t < |d.requests| && d.requests[t].LookedUp?
    case GiveUp(e) => Running(d, e)
    case Submit(e, run) => Running(d, e) && d.executions[e].stage.Loading? && run !in d.submitted
    case Record(e) => Running(d, e) && d.executions[e].stage.SubmittedRun?
    case Finish(e) => Running(d, e) && d.executions[e].stage.RecordedRun?
    case Answer(t) =>
      t < |d.requests| && d.requests[t].Joined?
      && d.requests[t].execution < |d.executions| && d.executions[d.requests[t].execution].stage.Ended?
  }

  function Decided(d: Dedup, t: nat): Dedup
    requires Enabled(d, Decide(t))
  {
    var key := d.requests[t].key;
    if d.requests[t].found.Some? then d.(requests := d.requests[t := Answered(key, d.requests[t].found)])
    else if key in d.inflight && Running(d, d.inflight[key]) then
      d.(requests := d.requests[t := Joined(key, d.inflight[key])])
    else
      d.(executions := d.executions + [Execution(key, Loading)],
         inflight := d.inflight[key := |d.executions|],
         requests := d.requests[t := Joined(key, |d.executions|)])
  }

  function AtStage(d: Dedup, e: nat, stage: Stage): Dedup
    requires e < |d.executions|
  {
    d.(executions := d.executions[e := d.executions[e].(stage := stage)])
  }

  // An execution that ends leaves the map of executions in flight.
  function AtEnd(d: Dedup, e: nat, result: Option<RunId>): Dedup
    requires e < |d.executions|
  {
    AtStage(d, e, Ended(result)).(inflight := d.inflight - {d.executions[e].key})
  }

  function Apply(d: Dedup, step: Step): Dedup
    requires Enabled(d, step)
  {
    match step
    case LookUp(key) =>
      d.(requests := d.requests + [LookedUp(key, if key in d.deliveries then Some(d.deliveries[key]) else None)])
    case Decide(t) => Decided(d, t)
    case GiveUp(e) => AtEnd(d, e, None)
    case Submit(e, run) => AtStage(d, e, SubmittedRun(run)).(submitted := d.submitted[run := d.executions[e].key])
    case Record(e) =>
      AtStage(d, e, RecordedRun(d.executions[e].stage.run))
        .(deliveries := d.deliveries[d.executions[e].key := d.executions[e].stage.run])
    case Finish(e) => AtEnd(d, e, Some(d.executions[e].stage.run))
    case Answer(t) =>
      d.(requests := d.requests[t := Answered(d.requests[t].key, d.executions[d.requests[t].execution].stage.result)])
  }

  // A step is safe unless it starts an execution on a lookup that is out of date, or gives an
  // execution up between submitting its run and recording it. An atomic lookup is never out of date.
  predicate Safe(d: Dedup, step: Step)
    requires Enabled(d, step)
  {
    match step
    case Decide(t) =>
      var key := d.requests[t].key;
      d.requests[t].found.None? ==> (key in d.inflight && Running(d, d.inflight[key])) || key !in d.deliveries
    case GiveUp(e) => !d.executions[e].stage.SubmittedRun?
    case _ => true
  }

  ghost predicate Plays(safe: bool, a: Dedup, steps: seq<Step>, b: Dedup)
    decreases |steps|
  {
    if steps == [] then a == b
    else Enabled(a, steps[0]) && (safe ==> Safe(a, steps[0])) && Plays(safe, Apply(a, steps[0]), steps[1..], b)
  }

  // ----- what every safe step keeps

  // The executions that still run are those in flight, one per key.
  ghost predicate OnePerKey(d: Dedup) {
    && (forall e: nat :: Running(d, e) ==> d.executions[e].key in d.inflight && d.inflight[d.executions[e].key] == e)
    && (forall key :: key in d.inflight ==> Running(d, d.inflight[key]) && d.executions[d.inflight[key]].key == key)
  }

  // Each submitted run is recorded for its key, or its execution is about to record it.
  ghost predicate EachRunKept(d: Dedup) {
    && (forall key :: key in d.deliveries ==> d.deliveries[key] in d.submitted && d.submitted[d.deliveries[key]] == key)
    && (forall run :: run in d.submitted ==>
          var key := d.submitted[run];
          || (key in d.deliveries && d.deliveries[key] == run)
          || (key in d.inflight && d.inflight[key] < |d.executions| && d.executions[d.inflight[key]].stage == SubmittedRun(run)))
  }

  ghost predicate StageHolds(d: Dedup, x: Execution) {
    match x.stage
    case Loading => x.key !in d.deliveries && forall run :: run in d.submitted ==> d.submitted[run] != x.key
    case SubmittedRun(run) => x.key !in d.deliveries && run in d.submitted && d.submitted[run] == x.key
    case RecordedRun(run) => x.key in d.deliveries && d.deliveries[x.key] == run
    case Ended(result) => result.Some? ==> x.key in d.deliveries && d.deliveries[x.key] == result.value
  }

  ghost predicate RequestHolds(d: Dedup, r: Request) {
    match r
    case LookedUp(key, found) => found.Some? ==> key in d.deliveries && d.deliveries[key] == found.value
    case Joined(key, e) => e < |d.executions| && d.executions[e].key == key
    case Answered(key, run) => run.Some? ==> key in d.deliveries && d.deliveries[key] == run.value
  }

  ghost predicate Holds(d: Dedup) {
    && OnePerKey(d) && EachRunKept(d)
    && (forall e :: 0 <= e < |d.executions| ==> StageHolds(d, d.executions[e]))
    && (forall t :: 0 <= t < |d.requests| ==> RequestHolds(d, d.requests[t]))
  }

  lemma EndKeepsOnePerKey(d: Dedup, e: nat, result: Option<RunId>)
    requires OnePerKey(d) && Running(d, e)
    ensures OnePerKey(AtEnd(d, e, result))
  {
    assert d.inflight[d.executions[e].key] == e;
  }

  lemma DecideKeepsOnePerKey(d: Dedup, t: nat)
    requires OnePerKey(d) && Enabled(d, Decide(t))
    ensures OnePerKey(Decided(d, t))
  {
    var next := Decided(d, t);
    assert forall e: nat :: e < |d.executions| ==> next.executions[e] == d.executions[e];
  }

  lemma KeepsOnePerKey(d: Dedup, step: Step)
    requires OnePerKey(d) && Enabled(d, step)
    ensures OnePerKey(Apply(d, step))
  {
    hide AtEnd, Decided;
    match step
    case Decide(t) => DecideKeepsOnePerKey(d, t);
    case GiveUp(e) => EndKeepsOnePerKey(d, e, None);
    case Finish(e) => EndKeepsOnePerKey(d, e, Some(d.executions[e].stage.run));
    case _ =>
  }

  // Nothing recorded is ever overwritten.
  lemma DeliveriesGrow(d: Dedup, step: Step)
    requires Holds(d) && Enabled(d, step)
    ensures forall key :: key in d.deliveries ==> key in Apply(d, step).deliveries && Apply(d, step).deliveries[key] == d.deliveries[key]
  {
    hide OnePerKey, EachRunKept, RequestHolds;
    if step.Record? {
      assert StageHolds(d, d.executions[step.execution]);
    }
  }

  predicate ActsOnExecution(step: Step) {
    step.GiveUp? || step.Submit? || step.Record? || step.Finish?
  }

  // What is known of the execution a step acts on.
  lemma Acted(d: Dedup, step: Step)
    requires Holds(d) && Enabled(d, step) && ActsOnExecution(step)
    ensures var x := d.executions[step.execution];
            && !x.stage.Ended? && StageHolds(d, x)
            && x.key in d.inflight && d.inflight[x.key] == step.execution
  {
    hide EachRunKept, RequestHolds, StageHolds;
  }

  lemma KeepsRunsAtRest(d: Dedup, step: Step)
    requires Holds(d) && Enabled(d, step) && !ActsOnExecution(step) && Safe(d, step)
    ensures EachRunKept(Apply(d, step))
  {
    hide StageHolds, RequestHolds;
  }

  lemma KeepsRuns(d: Dedup, step: Step)
    requires Holds(d) && Enabled(d, step) && Safe(d, step)
    ensures EachRunKept(Apply(d, step))
  {
    hide RequestHolds, OnePerKey;
    if ActsOnExecution(step) {
      Acted(d, step);
      hide Holds;
      assert EachRunKept(d);
    } else {
      KeepsRunsAtRest(d, step);
    }
  }

  lemma KeepsOtherStage(d: Dedup, step: Step, e: nat)
    requires Holds(d) && Enabled(d, step) && e < |d.executions| && (ActsOnExecution(step) ==> e != step.execution)
    ensures Apply(d, step).executions[e] == d.executions[e] && StageHolds(Apply(d, step), d.executions[e])
  {
    hide RequestHolds, EachRunKept;
    DeliveriesGrow(d, step);
    assert StageHolds(d, d.executions[e]);
    if Running(d, e) {
      assert d.inflight[d.executions[e].key] == e;
    }
    if ActsOnExecution(step) {
      Acted(d, step);
    }
  }

  lemma KeepsStages(d: Dedup, step: Step, e: nat)
    requires Holds(d) && Enabled(d, step) && Safe(d, step) && e < |Apply(d, step).executions|
    ensures StageHolds(Apply(d, step), Apply(d, step).executions[e])
  {
    hide RequestHolds, OnePerKey;
    if ActsOnExecution(step) && e == step.execution {
      Acted(d, step);
    } else if e < |d.executions| {
      hide Holds, StageHolds;
      KeepsOtherStage(d, step, e);
    }
  }

  lemma AnswerKeeps(d: Dedup, t: nat)
    requires Holds(d) && Enabled(d, Answer(t))
    ensures RequestHolds(d, Answered(d.requests[t].key, d.executions[d.requests[t].execution].stage.result))
  {
    hide EachRunKept, OnePerKey;
    assert RequestHolds(d, d.requests[t]);
    assert StageHolds(d, d.executions[d.requests[t].execution]);
  }

  // What holds of a request outlives every step.
  lemma RequestOutlives(d: Dedup, step: Step, r: Request)
    requires Holds(d) && Enabled(d, step) && RequestHolds(d, r)
    ensures RequestHolds(Apply(d, step), r)
  {
    hide EachRunKept, StageHolds, OnePerKey;
    DeliveriesGrow(d, step);
  }

  lemma DecideKeeps(d: Dedup, t: nat)
    requires Holds(d) && Enabled(d, Decide(t))
    ensures RequestHolds(Decided(d, t), Decided(d, t).requests[t])
  {
    hide EachRunKept, StageHolds;
    assert RequestHolds(d, d.requests[t]);
  }

  lemma KeepsRequests(d: Dedup, step: Step, t: nat)
    requires Holds(d) && Enabled(d, step) && t < |Apply(d, step).requests|
    ensures RequestHolds(Apply(d, step), Apply(d, step).requests[t])
  {
    hide EachRunKept, StageHolds, OnePerKey;
    if step.Decide? && t == step.request {
      DecideKeeps(d, t);
    } else if step.Answer? && t == step.request {
      AnswerKeeps(d, t);
    } else if t < |d.requests| {
      assert Apply(d, step).requests[t] == d.requests[t];
      RequestOutlives(d, step, d.requests[t]);
    }
  }

  lemma StepKeeps(d: Dedup, step: Step)
    requires Holds(d) && Enabled(d, step) && Safe(d, step)
    ensures Holds(Apply(d, step))
  {
    hide OnePerKey, EachRunKept, StageHolds, RequestHolds, Apply, Enabled, Safe;
    KeepsOnePerKey(d, step);
    KeepsRuns(d, step);
    forall e | 0 <= e < |Apply(d, step).executions| {
      KeepsStages(d, step, e);
    }
    forall t | 0 <= t < |Apply(d, step).requests| {
      KeepsRequests(d, step, t);
    }
  }

  lemma {:induction false} PlaysKeeps(a: Dedup, steps: seq<Step>, b: Dedup)
    requires Plays(true, a, steps, b) && Holds(a)
    ensures Holds(b)
    decreases |steps|
  {
    hide Holds, Enabled, Apply, Safe;
    if steps != [] {
      StepKeeps(a, steps[0]);
      PlaysKeeps(Apply(a, steps[0]), steps[1..], b);
    }
  }

  lemma RunsAgree(d: Dedup, a: RunId, b: RunId)
    requires Holds(d) && a in d.submitted && b in d.submitted && d.submitted[a] == d.submitted[b]
    ensures a == b
  {
    hide RequestHolds;
    var key := d.submitted[a];
    if key in d.inflight && d.inflight[key] < |d.executions| {
      assert StageHolds(d, d.executions[d.inflight[key]]);
    }
  }

  lemma AnswersAgree(d: Dedup, t: nat)
    requires Holds(d) && t < |d.requests| && d.requests[t].Answered? && d.requests[t].run.Some?
    ensures d.requests[t].run.value in d.submitted && d.submitted[d.requests[t].run.value] == d.requests[t].key
  {
    hide OnePerKey, StageHolds;
    assert RequestHolds(d, d.requests[t]);
  }

  lemma NothingHolds()
    ensures Holds(NO_TRIGGERS)
  {
  }

  // At most one run is submitted per key, and every trigger answered with a run is answered with
  // the run of its key.
  lemma OneRunPerKey(steps: seq<Step>, d: Dedup)
    requires Plays(true, NO_TRIGGERS, steps, d)
    ensures forall a, b :: a in d.submitted && b in d.submitted && d.submitted[a] == d.submitted[b] ==> a == b
    ensures forall t :: 0 <= t < |d.requests| && d.requests[t].Answered? && d.requests[t].run.Some?
                        ==> d.requests[t].run.value in d.submitted && d.submitted[d.requests[t].run.value] == d.requests[t].key
  {
    hide Plays, Holds;
    NothingHolds();
    PlaysKeeps(NO_TRIGGERS, steps, d);
    forall a, b | a in d.submitted && b in d.submitted && d.submitted[a] == d.submitted[b]
      ensures a == b
    {
      RunsAgree(d, a, b);
    }
    forall t | 0 <= t < |d.requests| && d.requests[t].Answered? && d.requests[t].run.Some? {
      AnswersAgree(d, t);
    }
  }

  // What becomes of a trigger that is looked up and decided on at once: with a recorded run it is
  // answered with that run, otherwise it joins the execution in flight, and otherwise a new execution
  // of its key is started and joined. No recorded or submitted run changes.
  lemma TriggerDecided(d: Dedup, key: Key)
    requires Holds(d)
    ensures var t := |d.requests|;
            var looked := Apply(d, LookUp(key));
            && Enabled(looked, Decide(t)) && Safe(looked, Decide(t))
            && var next := Apply(looked, Decide(t));
               && next.deliveries == d.deliveries && next.submitted == d.submitted && |next.requests| == t + 1
               && if key in d.deliveries then
                    next.requests[t] == Answered(key, Some(d.deliveries[key])) && next.executions == d.executions
                  else if key in d.inflight then
                    next.requests[t] == Joined(key, d.inflight[key]) && next.executions == d.executions
                  else
                    && next.executions == d.executions + [Execution(key, Loading)]
                    && next.requests[t] == Joined(key, |d.executions|) && next.inflight == d.inflight[key := |d.executions|]
  {
    hide EachRunKept, StageHolds, RequestHolds;
  }

  // ----- every trigger is answered

  // No execution ended without a run, and no trigger was answered without one.
  ghost predicate AllServed(d: Dedup) {
    && (forall e :: 0 <= e < |d.executions| && d.executions[e].stage.Ended? ==> d.executions[e].stage.result.Some?)
    && (forall t :: 0 <= t < |d.requests| && d.requests[t].Answered? ==> d.requests[t].run.Some?)
  }

  lemma StepServes(d: Dedup, step: Step)
    requires AllServed(d) && Enabled(d, step) && !step.GiveUp?
    ensures AllServed(Apply(d, step))
  {
  }

  // A trigger is answered without a run only if an execution was given up.
  lemma {:induction false} EveryTriggerServed(safe: bool, a: Dedup, steps: seq<Step>, d: Dedup)
    requires AllServed(a) && Plays(safe, a, steps, d) && forall step :: step in steps ==> !step.GiveUp?
    ensures AllServed(d)
    decreases |steps|
  {
    hide AllServed, Enabled, Apply, Safe;
    if steps != [] {
      StepServes(a, steps[0]);
      EveryTriggerServed(safe, Apply(a, steps[0]), steps[1..], d);
    }
  }

  // So a history of triggers in which nothing is given up answers each of them with the run of its key.
  lemma AnsweredWithItsRun(steps: seq<Step>, d: Dedup, t: nat)
    requires Plays(true, NO_TRIGGERS, steps, d) && forall step :: step in steps ==> !step.GiveUp?
    requires t < |d.requests| && d.requests[t].Answered?
    ensures d.requests[t].run.Some? && d.requests[t].run.value in d.submitted
    ensures d.submitted[d.requests[t].run.value] == d.requests[t].key
  {
    hide Plays;
    EveryTriggerServed(true, NO_TRIGGERS, steps, d);
    OneRunPerKey(steps, d);
  }

  // ----- exactly the other steps can lead to two runs for one key

  ghost predicate Doubled(d: Dedup) {
    exists a, b :: a in d.submitted && b in d.submitted && a != b && d.submitted[a] == d.submitted[b]
  }

  // Some safe continuation submits two runs for one key.
  ghost predicate CanDouble(d: Dedup) {
    exists steps, end :: Plays(true, d, steps, end) && Doubled(end)
  }

  // A new execution may still submit a run for a key that has one.
  lemma LoadingDoubles(d: Dedup, e: nat, run: RunId)
    requires Running(d, e) && d.executions[e].stage.Loading? && run in d.submitted && d.submitted[run] == d.executions[e].key
    ensures CanDouble(d)
  {
    var another := FreshString(d.submitted.Keys);
    var end := Apply(d, Submit(e, another));
    assert end.submitted[run] == end.submitted[another];
    assert Doubled(end);
    assert Plays(true, end, [], end);
    assert Plays(true, d, [Submit(e, another)], end);
  }

  lemma StepThenDoubles(d: Dedup, step: Step)
    requires Enabled(d, step) && Safe(d, step) && CanDouble(Apply(d, step))
    ensures CanDouble(d)
  {
    hide Enabled, Safe, Apply, Doubled;
    var steps, end :| Plays(true, Apply(d, step), steps, end) && Doubled(end);
    assert Plays(true, d, [step] + steps, end);
  }

  lemma StaleDecideDoubles(d: Dedup, t: nat)
    requires Holds(d) && Enabled(d, Decide(t)) && !Safe(d, Decide(t))
    ensures CanDouble(Apply(d, Decide(t)))
  {
    hide CanDouble, StageHolds, RequestHolds;
    LoadingDoubles(Apply(d, Decide(t)), |d.executions|, d.deliveries[d.requests[t].key]);
  }

  lemma LostRunDoubles(d: Dedup, e: nat)
    requires Holds(d) && Enabled(d, GiveUp(e)) && !Safe(d, GiveUp(e))
    ensures CanDouble(Apply(d, GiveUp(e)))
  {
    hide CanDouble, RequestHolds, OnePerKey, EachRunKept;
    assert StageHolds(d, d.executions[e]);
    var key, given := d.executions[e].key, Apply(d, GiveUp(e));
    var looked := Apply(given, LookUp(key));
    var decided := Apply(looked, Decide(|d.requests|));
    LoadingDoubles(decided, |d.executions|, d.executions[e].stage.run);
    StepThenDoubles(looked, Decide(|d.requests|));
    StepThenDoubles(given, LookUp(key));
  }

  // After any safe history, a step can be followed by safe steps to two runs for one key exactly when
  // it is not itself safe.
  lemma OnlyUnsafeStepsDouble(steps: seq<Step>, d: Dedup, step: Step)
    requires Plays(true, NO_TRIGGERS, steps, d) && Enabled(d, step)
    ensures CanDouble(Apply(d, step)) <==> !Safe(d, step)
  {
    hide Plays, Holds, Apply, Enabled, Safe;
    NothingHolds();
    PlaysKeeps(NO_TRIGGERS, steps, d);
    if Safe(d, step) {
      StepKeeps(d, step);
      HoldingNeverDoubles(Apply(d, step));
    } else if step.Decide? {
      StaleDecideDoubles(d, step.request);
    } else {
      OnlyGivingUp(d, step);
      LostRunDoubles(d, step.execution);
    }
  }

  lemma OnlyGivingUp(d: Dedup, step: Step)
    requires Enabled(d, step) && !Safe(d, step)
    ensures step.Decide? || step.GiveUp?
  {
  }

  lemma HoldingNeverDoubles(d: Dedup)
    requires Holds(d)
    ensures !CanDouble(d)
  {
    hide Plays, Holds;
    if steps, end :| Plays(true, d, steps, end) && Doubled(end) {
      PlaysKeeps(d, steps, end);
      var a, b :| a in end.submitted && b in end.submitted && a != b && end.submitted[a] == end.submitted[b];
      RunsAgree(end, a, b);
      assert false;
    }
  }

  // ----- a stale decision that is harmless, and the two ways to submit two runs for one key

  lemma {:induction false} PlaysOneMore(safe: bool, a: Dedup, steps: seq<Step>, b: Dedup, step: Step)
    requires Plays(safe, a, steps, b) && Enabled(b, step) && (safe ==> Safe(b, step))
    ensures Plays(safe, a, steps + [step], Apply(b, step))
    decreases |steps|
  {
    hide Enabled, Apply, Safe;
    if steps == [] {
      assert Plays(safe, Apply(b, step), [], Apply(b, step));
    } else {
      PlaysOneMore(safe, Apply(a, steps[0]), steps[1..], b, step);
      assert (steps + [step])[1..] == steps[1..] + [step];
    }
  }

  ghost predicate Reachable(d: Dedup) {
    exists steps :: Plays(false, NO_TRIGGERS, steps, d)
  }

  lemma Extend(d: Dedup, step: Step) returns (next: Dedup)
    requires Reachable(d) && Enabled(d, step)
    ensures Reachable(next) && next == Apply(d, step)
  {
    next := Apply(d, step);
    var steps :| Plays(false, NO_TRIGGERS, steps, d);
    PlaysOneMore(false, NO_TRIGGERS, steps, d, step);
  }

  lemma Start() returns (d: Dedup)
    ensures Reachable(d) && d == NO_TRIGGERS
  {
    d := NO_TRIGGERS;
    assert Plays(false, NO_TRIGGERS, [], d);
  }

  // A second trigger looks its key up before the first run is recorded and decides after the first
  // execution is over.
  lemma StaleLookupSubmitsTwice() returns (d: Dedup)
    ensures Reachable(d) && d.submitted == map["first" := "k", "second" := "k"]
  {
    hide Reachable;
    d := Start();
    d := Extend(d, LookUp("k"));
    d := Extend(d, LookUp("k"));
    d := Extend(d, Decide(0));
    d := Extend(d, Submit(0, "first"));
    d := Extend(d, Record(0));
    d := Extend(d, Finish(0));
    d := Extend(d, Decide(1));
    d := Extend(d, Submit(1, "second"));
  }

  // An execution is interrupted after submitting its run, before recording it.
  lemma LostRecordSubmitsTwice() returns (d: Dedup)
    ensures Reachable(d) && d.submitted == map["first" := "k", "second" := "k"]
  {
    hide Reachable;
    d := Start();
    d := Extend(d, LookUp("k"));
    d := Extend(d, Decide(0));
    d := Extend(d, Submit(0, "first"));
    d := Extend(d, GiveUp(0));
    d := Extend(d, LookUp("k"));
    d := Extend(d, Decide(1));
    d := Extend(d, Submit(1, "second"));
  }

  // A second trigger decides on a lookup that is out of date while the first execution is still in
  // flight, and joins it.
  lemma StaleDecisionJoins() returns (d: Dedup)
    ensures Reachable(d) && |d.requests| == 2 && d.requests[1] == LookedUp("k", None) && d.deliveries == map["k" := "first"]
    ensures Enabled(d, Decide(1)) && Safe(d, Decide(1)) && Apply(d, Decide(1)).requests[1] == Joined("k", 0)
  {
    hide Reachable;
    d := Start();
    d := Extend(d, LookUp("k"));
    d := Extend(d, LookUp("k"));
    d := Extend(d, Decide(0));
    d := Extend(d, Submit(0, "first"));
    d := Extend(d, Record(0));
  }
}

# Workflow engine: a verified model

This project models the core of a CI/CD workflow engine and proves what it promises: the planner that checks and
canonicalises a DAG of units, the orchestrator that carries each run through skips, attempts, retries, cancellation and
crash recovery while it writes an event log, the run controller that starts queued runs under a global and a per-project
limit, and four smaller cores on the same data (stage layering, payload bookkeeping, log redaction, webhook
deduplication).

`dafny verify dfyconfig.toml` checks everything.

## How it is put together

- `Basics`, `Graphs`, `Sorting`: options, finite sequences, directed graphs (closed paths, layering, longest walks), sorting.
- `Plans`, `CycleCheck`, `Planner`, `Canonical`, `Stages`: definitions, plans, validation, planning, dashboard stages.
- `RunState`, `Decision`, `SkipFixpoint`, `Dispatch`: the persisted run and the pure decisions taken on it.
- `DecisionMeaning`, `AttemptRecord`, `Recovery`: the same operations read from outside, in terms of the run, the plan and
  the log only: when a unit is ready, waits or is skipped; what an attempt is asked, answers and leaves behind; what a
  restart or a cancellation makes of every unit.
- `History`: the engine as a step relation over (run, event log). A step is one transaction: activate, skip a batch, make
  ready, dispatch, register a payload, complete an attempt with any result (a failure if its inputs do not resolve), wake a
  retry, finish, request or finish a cancellation, recover after a restart. `Reachable` means: some history of such steps
  leads from the creation of a run to this state.
- `Invariants`, `Lifecycle`, `Guarantees`, `Timeouts`, `Replay`, `Summaries`, `PayloadLevels`: what holds in every reachable
  state. `Marking` adds the marking of payloads between steps, and `Marks` says what a mark changes.
- `Semantics`, `Preservation`, `Progress`, `Outcomes`, `Confluence`: what a run means, by recursion on the DAG, that every
  step keeps it, and that every order of steps ends in it.
- `Propagation`: how failures spread, over all histories, and what a restart does to it. `Witnesses`: concrete histories.
- `EventLog`, `Engine`: the class `Orchestrator`, whose methods update the stored runs, the log and the sequence cache. Its
  `Valid()` says that every stored run is reachable and every log is numbered 1..n, so all that is proved of histories
  holds of what the methods store. `Boundary` joins planner, orchestrator and stages; `Deadlock` follows the runs of a
  definition that is accepted by mistake.
- `Capacity`, `Scheduler`, `RunControl`: the queue and its limits, the wake-up protocol as interleaved steps, and the class
  `RunController`, whose `Valid()` says that its fields are a reachable state of that protocol.
- `TriggerDedup`, `Redaction`: webhook triggers as interleaved steps; the longest-first replace loop.

Executors, secret resolution and the choice of a retry time are a `World`: an arbitrary function of the request, so one
proof covers every executor. Outcomes other than success and time-out count as failures, as in the engine.

## What does not hold, and exactly when it does

- The planner recognises an edge by the text `from`, NUL, `to`. Over a set of unit ids, what it accepts is what is well
  structured if and only if no two different ordered pairs of these ids share their joined text (`Planner.KeysAreExactIff`);
  ids without NUL never do. A definition with colliding ids is accepted although one unit reads the status of another
  without an edge (`Planner.DeadlockedIsAccepted`), and no run of it ever ends unless it is canceled
  (`Deadlock.DeadlockedNeverFinishes`). A run of an accepted definition without such a collision never gets stuck
  (`Boundary.PlannedRunNeverStuck`).
- The skipped units of a finished run are not always the transitive dependents of failed and timed-out units: recovery resets
  a timed-out unit and keeps the units skipped for it (`Witnesses.RestartForgetsTimeout`). One direction always holds, and
  the other exactly when each skipped unit still has a dependency that did not succeed (`Propagation.FinishedPropagation`).
  A restart keeps it, whatever the executor answers, if and only if each skipped unit of the crashed run has a dependency
  that is skipped or has failed with no retry left (`Propagation.RestartKeepsClosedFormIff`).
- A wake-up can be lost: finalizing the cancellation of a run that nothing advances frees a slot without asking for a pass
  (`Scheduler.WakeupIsLost`). In all other histories none is lost (`Scheduler.NoLostWakeup`), and after such a finalization the
  queue is still fully blocked exactly when no queued run was waiting for the freed slot (`Scheduler.UnannouncedCancelLoses`).
- Marking payloads missing looks entries up by reference. The levels still agree if and only if, in the marked list, entries
  with one reference are the same entry (`PayloadLevels.MarkingKeepsLevelsIff`). A reference names its attempt and artifact,
  so one name declared twice with different paths breaks it (`Witnesses.SharedRefHistory`); while no attempt repeats a
  reference, marks and steps in any order keep the levels (`Marking.LevelsSurviveMarking`).
- Two runs can be submitted for one webhook key. A step is unsafe when it starts an execution for a key that has a recorded
  run, on a lookup that is out of date and with no execution of the key in flight, or gives an execution up between
  submitting its run and recording it. Histories of safe steps submit at most one run per key (`TriggerDedup.OneRunPerKey`),
  and after any of them a step opens the way to two runs for one key if and only if it is unsafe
  (`TriggerDedup.OnlyUnsafeStepsDouble`). A lookup that is out of date does no harm while the execution it joins is in flight
  (`TriggerDedup.StaleDecisionJoins`).
- A redacted text can contain the secret (`Redaction.MarkCanLeak`). For a single value some text does if and only if a
  placement of the value over the mark agrees with it and starts inside the mark, or starts before it where no earlier
  occurrence would be cut first (`Redaction.SingleValueLeaksIff`). For any list, none does when no placement of a value over
  the mark agrees with it (`Redaction.RedactionIsComplete`).
- The event log is silent about one commit, the waking of a scheduled retry: until the unit is made ready again the log
  still shows the failed attempt (`Replay.AwaitsRetry`). Every other status, of run, units and attempts, is recovered by
  replay; outputs, failures, skip reasons, retry times and payload lists are not replayed.

## Model

| member | source | states |
|---|---|---|
| `CycleCheck.HasCycle` | src/engine/planner.ts:248-289 | Terminates on every list of ids and edges, duplicates and unknown ids included, and answers true exactly when the declared dependencies have a nonempty closed path. |
| `CycleCheck.CycleDetector.Visit` | src/engine/planner.ts:259-280 | One visit of the two-set search: a positive answer exhibits a closed path; a negative one leaves the open visits as they were and the unit closed. |
| `CycleCheck.TopologicalIsAcyclic` | src/engine/planner.ts:248-289 | Partner of the search: an order in which every unit follows its successors excludes every closed path. |
| `Graphs.AcyclicIsLayered` | src/engine/planner.ts:214-218 | A closed graph without closed paths has a rank that strictly decreases along every dependency; this is what makes the orchestrator's recursion and progress possible. |
| `Graphs.ConverseCycle` | src/engine/planner.ts:248-289 | The search follows outgoing edges, the orchestrator incoming ones: a graph and its converse have the same cycles. |
| `Planner.ValidateUnitIds` | src/engine/planner.ts:112-121 | No error exactly when unit ids are distinct; an error names an id declared twice. |
| `Planner.ValidateEdges` | src/engine/planner.ts:193-212 | No error exactly when every edge joins two different declared units and no edge key repeats; an error names a defective edge. |
| `Planner.ValidateUnit` | src/engine/planner.ts:220-234 | No error exactly when all inputs and conditions of the unit refer to what exists and is backed by an edge, and branch, ref and tag conditions are not blank; an error names an input or condition of the unit that is defective. |
| `Planner.Validate` | src/engine/planner.ts:112-246 | Accepts exactly the well-structured definitions, edges being recognised by their joined text: at least one unit, distinct ids, known and distinct edges, no cycle, every unit output and upstream status used is backed by an edge, outputs produced by declared units. Where ids do not collide this is the same with edges compared as pairs. |
| `Planner.KeysAreExact` | src/engine/planner.ts:512 | Recognising edges by joined text agrees with recognising them as pairs for every definition whose ids do not collide. |
| `Planner.KeysAreExactIff` | src/engine/planner.ts:512 | Over a set of ids, the planner accepts exactly the well-structured definitions if and only if no two different ordered pairs of the ids share their joined text. |
| `Planner.NoNulNoCollision` | src/engine/planner.ts:512 | Ids free of NUL never share a joined text. |
| `Planner.DeadlockedIsAccepted` | src/engine/planner.ts:486-498 | A definition of four units that the planner accepts although a condition of one unit reads another without an edge. |
| `Deadlock.DeadlockedNeverFinishes` | src/engine/orchestrator.ts:263-275 | No run of that definition ends unless it is canceled, whatever the executor answers and however often the engine restarts: two units wait for each other, and once the others are settled the run is stuck. |
| `Canonical.GatherSources` | src/engine/planner.ts:291-339 | The map filled edge by edge lists, for each declared unit, exactly the sources of its incoming edges, without repetition. |
| `Canonical.CreatePlan` | src/engine/planner.ts:291-339 | The plan holds the definition's units and edges in sorted order, and each dependency list is the sorted list of the sources of the unit's incoming edges. |
| `Canonical.PlanDefinition` | src/engine/planner.ts:41-51 | Planning succeeds exactly for the definitions validation accepts, and where ids do not collide its plan meets everything the orchestrator relies on. |
| `Canonical.PlanIsCanonical` | src/engine/planner.ts:291-339 | Two definitions that differ only by permuting units and dependencies have the same plan. |
| `Canonical.PlanIsSorted` | src/engine/planner.ts:291-339 | A plan lists its units by id, its edges by source and then by target, and each unit's dependencies by id, all in string order. |
| `Canonical.EdgesMatchLists` | src/engine/planner.ts:291-339 | The plan's edge list and its per-unit dependency lists carry the same relation. |
| `Canonical.PlanIsAccepted` | src/engine/planner.ts:193-246 | The plan of a well-structured definition is acyclic and closed, has distinct ids, and backs every condition and input by a dependency. |
| `Sorting.SortedUnique` | src/engine/planner.ts:500-510 | A collection has one strictly sorted arrangement: the reason planning is canonical. |
| `Sorting.StringOrder` | src/engine/planner.ts:510 | The string comparison is a strict total order. |
| `Sorting.StringLessMeans` | src/engine/planner.ts:510 | One string is before another exactly when it has the smaller character at the first difference or ends there. |
| `Boundary.PlannedRunNeverStuck` | src/engine/orchestrator.ts:263-275 | Whatever the history of a run of an accepted definition whose ids do not collide, restarts and cancellation included, between dispatches it is settled or the loop has something to skip, run or wake. |
| `Boundary.BackgroundRunEnds` | src/engine/run-controller.ts:37-64 | Advancing a running run of an accepted plan ends it with a status the controller's protocol allows its background run, and the protocol allows no others. |
| `Stages.DeriveStages` | src/dashboard/reads.ts:188-223 | Terminates on every input; stage i holds exactly the units whose longest dependency chain visits i + 1 units, and one last stage, present only if needed, holds exactly the units that reach a cycle or an unknown id. |
| `Stages.GraphMeans` | src/dashboard/reads.ts:189 | The layered graph has each listed id with the dependencies of the last unit listed under it. |
| `Stages.StageIsLongestChain` | src/dashboard/reads.ts:188-223 | On a closed acyclic graph the fallback stage is unreachable and a unit's depth is realised by a longest chain, which is exhibited. |
| `Boundary.StagesFollowDependencies` | src/dashboard/reads.ts:171-223 | For an accepted plan, in whatever order its units are listed: every unit is shown in exactly one stage, after all units it depends on, and the fallback stage does not occur. |
| `Graphs.RankIsLongestWalk` | src/dashboard/reads.ts:193-219 | The rank of a layered node is attained by a walk and bounds every walk from it. |
| `Graphs.UnlayeredIsDoomed` | src/dashboard/reads.ts:198-207 | A node left over when the layering settles can walk into a cycle or out of the graph. |
| `Graphs.LayeredNotDoomed` | src/dashboard/reads.ts:198-207 | The converse: a layered node cannot. |
| `DecisionMeaning.DecisionMeans` | src/engine/orchestrator.ts:1620-1668 | Ready exactly when every dependency lets the unit proceed (settled if a condition names it, succeeded otherwise) and every condition holds; waiting exactly when a dependency is undecided or, with all proceeding, the first condition that does not hold is on an unsettled unit; otherwise skipped, for the first dependency in the way or for the first false condition with the status observed. |
| `DecisionMeaning.ConditionMeans` | src/engine/orchestrator.ts:1670-1710 | A trigger condition holds exactly when that field of the trigger has that text, an input condition when the first input of the name has the value, an upstream condition when the named unit is settled in exactly that status; it is open when that unit is missing or unsettled, and false otherwise. |
| `Decision.DecisionStable` | src/engine/orchestrator.ts:1620-1652 | A decision other than waiting never changes while settled units stay as they are, whatever else happens in the run. |
| `Decision.DecideLocal` | src/engine/orchestrator.ts:1620-1710 | With every upstream condition backed by a dependency, a decision depends only on the unit's dependencies, the trigger and the inputs. |
| `Decision.SettledNeverWaits` | src/engine/orchestrator.ts:1620-1710 | With every dependency settled, the decision is to run or to skip, never to wait. |
| `Decision.InputsLocal` | src/engine/orchestrator.ts:1201-1231 | The inputs of an attempt depend only on the unit's dependencies and the run's inputs. |
| `DecisionMeaning.InputsMean` | src/engine/orchestrator.ts:1201-1231 | Inputs resolve exactly when every declared source has a value, a run input or an output of a succeeded unit of the source's own name; then the i-th carries the i-th declared name and that value; otherwise the first input without a value is named. |
| `SkipFixpoint.SkipPass` | src/engine/orchestrator.ts:575-600 | One pass applies justified skips only, in the order of the unit ids, after those found before, and a pass that skips nothing proves there is nothing to skip. |
| `SkipFixpoint.EvaluatePendingUnits` | src/engine/orchestrator.ts:568-610 | Terminates and returns the run after a list of skips, each justified where it is applied, with nothing left to skip. |
| `SkipFixpoint.SkipStable` | src/engine/orchestrator.ts:568-610 | Skipping one unit leaves every other pending skip justified, for the same reason. |
| `SkipFixpoint.SkipsCommute` | src/engine/orchestrator.ts:1712-1728 | Two justified skips give the same run in either order. |
| `SkipFixpoint.FixpointUnique` | src/engine/orchestrator.ts:568-610 | Any two exhaustive orders of skipping end in the same run: same units skipped, same reasons. |
| `SkipFixpoint.SkipOthers` | src/engine/orchestrator.ts:1712-1728 | A justified skip sets the status and the reason of one unit and leaves every other field and unit alone. |
| `Dispatch.CompletedUnitIs` | src/engine/orchestrator.ts:420-563 | A completed attempt replaces the running one in place; a failure schedules a retry exactly when some retry policy of the unit allows another attempt. |
| `Dispatch.RetriesAfterMeans` | src/engine/orchestrator.ts:503-504 | From the policy list alone: attempt n is followed by another exactly when some retry policy asks for more than n, and the limit of attempts is the largest one asked for, at least one. |
| `AttemptRecord.ResultAnswers` | src/engine/orchestrator.ts:359-398 | An attempt whose secrets or inputs do not resolve fails without being executed; any other gets what the executor answers to a request with its number and, under the declared names, the values of the declared sources. |
| `AttemptRecord.ExecutedIsMade` | src/engine/orchestrator.ts:288-566 | One attempt in full: the result answers the run as it was before; number, status, failure, logs, artifacts and outputs of the new attempt, the unit's own fields, the retry time, and the payload lists of the run; no other unit changes. |
| `AttemptRecord.CompletionTells` | src/engine/orchestrator.ts:420-563 | The two events that end an attempt carry the failure and the retry that are stored, and the number of the next attempt. |
| `Dispatch.AttemptedIs` | src/engine/orchestrator.ts:309-566 | One attempt of a pending unit adds exactly one attempt, keeps the earlier ones and lands the unit in a settled state or with a retry scheduled. |
| `Semantics.Meaning` | src/engine/orchestrator.ts:245-286 | The final state of a unit, by recursion on the DAG from any state the loop may be called in; it belongs to the unit and is always settled. |
| `Semantics.DecidedView` | src/engine/orchestrator.ts:1620-1652 | When a decision is taken, the stored run already shows the meanings of the dependencies it reads. |
| `Preservation.SkipKeepsMeaning` | src/engine/orchestrator.ts:568-610 | A justified skip changes what no unit means. |
| `Preservation.ExecuteKeepsMeaning` | src/engine/orchestrator.ts:288-566 | Executing any ready unit changes what no unit means. |
| `Preservation.WakeKeepsMeaning` | src/engine/orchestrator.ts:180-214 | Waking a scheduled retry changes what no unit means. |
| `Confluence.AnyOrderKeepsMeaning` | src/engine/orchestrator.ts:245-286 | Whatever the order in which units are skipped, made ready, dispatched, completed as the executor answers, and woken: a unit settles only in the state it meant at the start, and once the run finishes it is the run carried out. |
| `Confluence.FinishedRunsAgree` | src/engine/orchestrator.ts:245-286 | Any two such orders that finish store the same run: status, failure, units, progress and outputs; only the order of the run-level payload lists may differ. |
| `Progress.NeverStuck` | src/engine/orchestrator.ts:263-275 | A resumable run of an accepted plan never reaches the exit of the loop with units left over. |
| `Progress.UnsettledLeadsToDecided` | src/engine/orchestrator.ts:1620-1652 | With no retry scheduled, descending along unsettled dependencies ends at a pending unit whose decision is not to wait. |
| `Progress.ExecuteWorks` | src/engine/orchestrator.ts:288-566 | Each execution strictly lowers the work left: attempts left count double, a scheduled retry one more. |
| `Progress.WakeWorks` | src/engine/orchestrator.ts:180-214 | So does waking a retry. |
| `Progress.NextRetryIsEarliest` | src/engine/orchestrator.ts:1539-1554 | No scheduled retry has an earlier time than the one waited for, and none with the same time has an id before it in string order. |
| `EventLog.AppendedRecords` | src/engine/stores/event-log.ts:18-34 | Appending a record extends its own run's log and no other, and keeps the numbering 1..n when it carries the next number. |
| `Engine.Orchestrator.AppendEvent` | src/engine/orchestrator.ts:114-149 | Appends one event with the next sequence number of its run, whether the number is cached or read back; other runs' logs are untouched. |
| `Engine.Orchestrator.Commit` | src/engine/orchestrator.ts:114-149 | State and events of one step are stored together; the invariant of the store is kept. |
| `Engine.Orchestrator.Restart` | src/engine/orchestrator.ts:138-149 | The stored runs and the log survive, the sequence cache does not, and every log stays numbered 1..n. |
| `Engine.Orchestrator.CreateRun` | src/engine/orchestrator.ts:216-243 | Succeeds exactly when the provided inputs are the declared ones, and then stores with its first event a run with each declared input under its provided value, the plan's trigger or the manual one, and every unit pending without attempts; an error names an input that is unknown or missing. |
| `Engine.Orchestrator.ActivateRun` | src/engine/orchestrator.ts:892-916 | A queued run becomes running; any other run is returned unchanged. |
| `Engine.Orchestrator.EvaluatePending` | src/engine/orchestrator.ts:568-610 | The fixpoint is stored with one event per skipped unit, in order. |
| `Engine.Orchestrator.ExecuteReadyUnit` | src/engine/orchestrator.ts:288-566 | The commits of one attempt are engine steps that together give the run the semantics gives it. The attempt is made and recorded as stated for `AttemptRecord.ExecutedIsMade`, and the log grows by exactly: ready, dispatched, started, each log and each artifact of the result in order, and two events that tell the stored end. |
| `Engine.Orchestrator.DispatchReadyUnit` | src/engine/orchestrator.ts:296-357 | The two commits before execution: the unit is ready, then running with a new last attempt, and the log grows by exactly ready, dispatched, started. |
| `Engine.ExecuteKeepsReady` | src/engine/orchestrator.ts:263-282 | Readiness computed for a batch stays true while earlier members of the batch execute. |
| `Engine.Orchestrator.ExecuteBatch` | src/engine/orchestrator.ts:277-282 | A batch is executed one unit after another, in its order, each still ready when its turn comes: every unit of the batch gets exactly one attempt more and its own part of the log, no other unit changes, and the work left shrinks. |
| `Engine.Orchestrator.ActivateScheduledRetry` | src/engine/orchestrator.ts:180-214 | Exactly a retry that is due makes its unit pending again: a stale time, an unknown unit, a terminal or a canceling run leave the run as it is; nothing is logged either way. |
| `Engine.Orchestrator.FinalizeTerminalRun` | src/engine/orchestrator.ts:612-651 | A settled run is stored with its outcome and one closing event that carries its failure. |
| `Engine.Orchestrator.AdvanceWithRun` | src/engine/orchestrator.ts:245-286 | The loop terminates. For an accepted plan and every executor, the run finishes and every unit ends in the state its meaning at the start gives; the run status follows time-out over failure over success. State and log go on in rounds: all justified skips, then every ready unit once in id order or, if none is ready, the earliest retry; a last round closes the run. A canceling run is canceled, a terminal one returned. |
| `Engine.Orchestrator.AdvanceRun` | src/engine/orchestrator.ts:784-792 | The same from the store: a queued run is activated first. |
| `Engine.Orchestrator.StartRun` | src/engine/orchestrator.ts:776-780 | Creating, activating and advancing carries a fresh run of the plan to the end its meaning gives. |
| `Engine.Orchestrator.CancelRun` | src/engine/orchestrator.ts:794-826 | A terminal run is left alone, a fail-fast run canceled at once, any other marked as canceling, each with exactly its events. |
| `Engine.Orchestrator.FinalizeCancellationState` | src/engine/orchestrator.ts:653-707 | Cancels the stored run whatever copy the caller holds, in one step with its events. |
| `Engine.Orchestrator.RecoverIncompleteRuns` | src/engine/orchestrator.ts:836-868 | After a restart every stored run is what recovery makes of it and its log has grown by exactly what recovery logs for it: a resume event, the events of a cancellation, or nothing. |
| `Engine.Orchestrator.ResumeIncompleteRuns` | src/engine/orchestrator.ts:870-879 | Whatever state a crash left, every run of an accepted plan reaches a terminal status, and its units end as the recovered run meant. |
| `Engine.RecoveredAtRest` | src/engine/orchestrator.ts:1391-1438 | A crash at any point of a history leaves a state that recovery makes fit to be carried on. |
| `Recovery.RecoveryMeans` | src/engine/orchestrator.ts:1391-1438 | In every reachable state, recovery leaves succeeded, failed, skipped and canceled units exactly as they are, makes any other pending without failure, skip reason and outputs, interrupts its running attempt, and keeps the rest of the run. |
| `Recovery.CancellationMeans` | src/engine/orchestrator.ts:1440-1485 | Cancellation leaves units that ended exactly as they are, cancels any other with its running attempt, and keeps the rest of the run. |
| `Outcomes.FinalStateSolves` | src/engine/orchestrator.ts:245-286 | An independent reading of the result: every unit of an advanced run solves a local equation in the finished run itself, with no recursion. |
| `Outcomes.AllAttemptsFollow` | src/engine/orchestrator.ts:503-541 | The attempts of a unit are the executor's answers in order: all but the last failed while some policy allowed another, and the last gives the status; it fails only where no policy allows another. |
| `Outcomes.FailsOnlyWhenExhausted` | src/engine/orchestrator.ts:503-541 | A unit of an advanced run ends failed only when no retry policy allows another attempt, and in a first process only after exactly as many failed attempts as the most generous policy allows, or one. |
| `Outcomes.FailurePropagation` | src/engine/orchestrator.ts:1620-1665 | In a run of a plan without conditions that was carried out without a restart, the skipped units are exactly the transitive dependents of failed and timed-out units; every other unit was attempted. |
| `Propagation.FinishedPropagation` | src/engine/orchestrator.ts:1620-1665 | In every finished run of a plan without conditions, restarts included: transitive dependents of failed and timed-out units are skipped, every other unit that is not skipped was attempted, and the skipped units are exactly those dependents if and only if each has a dependency that did not succeed. |
| `Propagation.RestartKeepsClosedFormIff` | src/engine/orchestrator.ts:1391-1438 | A crashed run, once recovered, ends in that exact form whatever the executor answers if and only if each of its skipped units has a dependency that is skipped or has failed with no retry left. |
| `Witnesses.RestartForgetsTimeout` | src/engine/orchestrator.ts:1391-1438 | A history in which a unit is skipped for a time-out, the engine restarts, the retried unit succeeds, and the run succeeds with the dependent still skipped. |
| `Timeouts.ReachableTold` | src/engine/orchestrator.ts:1391-1438 | In every reachable state: the dependencies of a skipped unit were settled at some point, a unit that ended was attempted, and one that ever timed out can still resolve its inputs. |
| `Lifecycle.OutcomeOf` | src/engine/orchestrator.ts:1604-1618 | Timed out exactly when some unit is, succeeded exactly when none failed or timed out. |
| `Lifecycle.ReachableFits` | src/engine/orchestrator.ts:1391-1485 | The invariant of every history, restarts and cancellation included: sound units, bounded attempts, safe attempts, at most one unit in flight, run status fitting unit statuses. |
| `Invariants.StepFits` | src/engine/orchestrator.ts:288-566 | Every step keeps alignment with the plan, soundness, attempt bounds and safety, and no step undoes a success. |
| `Invariants.RecoverFits` | src/engine/orchestrator.ts:1391-1438 | Recovery keeps them, with one attempt more allowed per restart. |
| `Invariants.CancelFits` | src/engine/orchestrator.ts:1440-1485 | So does cancellation. |
| `Guarantees.DispatchSafety` | src/engine/orchestrator.ts:1620-1710 | Whenever a unit is dispatched, in any history, every dependency is settled, and succeeded unless a condition names it, and every condition holds in the persisted run: triggers, inputs and the statuses of other units as declared. |
| `Guarantees.AttemptedAfterSuccess` | src/engine/orchestrator.ts:1620-1668 | Also after recovery and cancellation, a unit with any attempt has every dependency without a status condition succeeded. |
| `Guarantees.AttemptAccounting` | src/engine/orchestrator.ts:1529-1537 | Attempts are numbered 1..k in list order, k at most the largest retry limit (at least 1) plus the restarts recovered from. |
| `Guarantees.OneRunningAttempt` | src/engine/orchestrator.ts:317-341 | At most one attempt of the whole run is running, it is the last of its unit, and the run is not terminal. |
| `Guarantees.SuccessIsFinal` | src/engine/orchestrator.ts:1391-1485 | A unit that succeeded stays succeeded in every later state, restarts and cancellation included. |
| `Replay.LogIsFaithful` | src/engine/orchestrator.ts:114-149 | In every reachable state, replaying the run's events gives the stored run status, every unit status and every attempt status, up to the one silent step. |
| `Replay.CompletionReplayed` | src/engine/orchestrator.ts:420-563 | The two events of a completed attempt replay to the completed unit and touch no other. |
| `Replay.SkipsMatch` | src/engine/orchestrator.ts:585-605 | The events of a batch of skips replay to the run after the batch. |
| `Replay.RecoverMatches` | src/engine/orchestrator.ts:854-862 | One resume event, replayed as recovery, gives the recovered run. |
| `Replay.CancelMatches` | src/engine/orchestrator.ts:674-698 | The events computed from the difference of two states replay to the canceled run. |
| `Summaries.SummariesAreExact` | src/engine/orchestrator.ts:1275-1389 | In every reachable state the counts are the numbers of units in all, succeeded, failed or timed out, and skipped; the outputs are, in declaration order, the values of the declared outputs that have one; at a non-canceled finish completed + failed + skipped = total. |
| `Summaries.FailureIsFirst` | src/engine/orchestrator.ts:1604-1618 | In every reachable finished state the run's failure is that of its first timed-out unit, of its first failed one if none timed out, and absent if it succeeded. |
| `PayloadLevels.PayloadsAgree` | src/engine/orchestrator.ts:1340-1372 | In every reachable state a unit lists exactly its attempts' payloads in order, and the run exactly its units' as a multiset. |
| `PayloadLevels.RewriteKeepsLevels` | src/engine/interface.ts:222-258 | Rewriting lists keeps units and attempts in agreement always, and run and units exactly when equal references mean equal entries. |
| `PayloadLevels.MarkingKeepsLevelsIff` | src/engine/interface.ts:174-220 | Marking one payload or all payloads missing keeps the three levels in agreement if and only if, in the marked list, entries with one reference are the same entry. |
| `Marking.LevelsSurviveMarking` | src/engine/interface.ts:174-258 | While no attempt reports two different payloads under one reference and references name their attempt: over every history of engine steps, restarts and marks, the three levels agree and a reference stands for one entry. |
| `Marks.MarksAreExact` | src/engine/interface.ts:174-258 | Where levels and references agree: marking an artifact or a log makes exactly the entries with its reference missing, on the run, its units and its attempts, marking all makes every entry missing, and nothing else of the run changes. |
| `Marks.MarksAreMissing` | src/engine/interface.ts:174-258 | Also where references are shared, every entry with a marked reference is missing afterwards on all three levels, and references stay in place. |
| `Marks.MarksStayExact` | src/engine/interface.ts:174-258 | In every state of a history of steps, restarts and marks with references owned by their attempts, the next mark is exact. |
| `PayloadLevels.SelfLookup` | src/engine/interface.ts:250-258 | A list looked up in itself by reference gives itself back, as a multiset, exactly when its references are unambiguous. |
| `PayloadLevels.SharedRefTearsLevels` | src/engine/interface.ts:250-258 | In any run with two different artifacts under one reference, marking an artifact with another reference tears the levels apart. |
| `Witnesses.SharedRefHistory` | src/engine/executor.ts:296-333 | A reachable run whose attempt declared one artifact name with two paths, one found and one not: its levels agree until any other artifact is marked. |
| `Capacity.ListQueuedRuns` | src/engine/stores/state-store.ts:148-151 | The queued runs, each once, oldest first, ids breaking ties. |
| `Capacity.QueueMeans` | src/engine/stores/state-store.ts:148-151 | The queue holds each queued run once, none after a younger one, and runs of one age in string order of their ids. |
| `Capacity.ScanStarts` | src/engine/run-controller.ts:87-116 | An exhaustive scan starts min(free slots, sum over projects of min(queued, free project slots)) runs, over any listing of the projects. |
| `Capacity.ScanIsOptimal` | src/engine/run-controller.ts:87-116 | No choice of queued runs within both limits starts more. |
| `Scheduler.TallyIsActive` | src/engine/run-controller.ts:96-99 | The per-project map counts exactly the active runs of each project. |
| `Scheduler.StepKeepsStructure` | src/engine/run-controller.ts:37-64 | Every protocol step keeps: a run is advanced only once it left the queue, every running run is being advanced, and the runs still to be scanned are distinct and not advanced. |
| `Scheduler.StepKeepsLimits` | src/engine/run-controller.ts:87-116 | Every step keeps the runs in flight within both limits, counting the slots the scan still holds. |
| `Scheduler.StepKeepsAwake` | src/engine/run-controller.ts:67-85 | Every step but an unannounced cancellation keeps: if nothing is owed or requested, the queue is blocked, or the scan's count can still be trusted. |
| `Scheduler.CapacitySafety` | src/engine/run-controller.ts:87-116 | In every history of submissions, passes, finishes, cancellations and restarts, the running runs stay within the global and every project limit, and each is being advanced. |
| `Scheduler.NoLostWakeup` | src/engine/run-controller.ts:45-85 | Over any interleaving, when no pass is in progress, requested or owed, every queued run is held back by a limit. |
| `Scheduler.UnannouncedCancelLoses` | src/engine/run-controller.ts:129-140 | After finalizing the cancellation of a run nothing advances, the queue is still blocked exactly when no queued run was waiting for the freed slot. |
| `Scheduler.WakeupIsLost` | src/engine/run-controller.ts:129-140 | A history that ends at rest with an idle engine and a queued run that could start. |
| `RunControl.CountByProject` | src/engine/run-controller.ts:96-99 | The loop's map gives each project the number of its active runs, and zero to others. |
| `RunControl.PassIsOptimal` | src/engine/run-controller.ts:87-116 | A pass starts exactly the number of runs the limits allow, and no feasible choice is larger. |
| `RunControl.RunController.EnsureRunActive` | src/engine/run-controller.ts:37-65 | Starts a run unless it is advanced already; a run that ends at once asks for a pass, at once if none is in progress. |
| `RunControl.RunController.ScheduleQueuedRuns` | src/engine/run-controller.ts:67-85 | Re-entrant calls only raise the flag; the outer call terminates, leaves no request behind, changes runs only by starting queued ones, and leaves every queued run blocked when no further call is owed. |
| `RunControl.RunController.ScheduleOnce` | src/engine/run-controller.ts:87-116 | One pass starts exactly the runs the greedy scan of the sorted queue starts: oldest first over all projects, passing over a run only when its project is full, until no slot or no startable run is left, even when started runs end during the scan. |
| `RunControl.RunController.SubmitRun` | src/engine/run-controller.ts:118-127 | The new run is queued or started; every run still queued is blocked. |
| `RunControl.RunController.RetryRun` | src/engine/run-controller.ts:142-169 | Refuses unknown and active runs and changes nothing; otherwise submits a new run of the same project and leaves every queued run blocked, also when a wake-up had been lost before. |
| `RunControl.RunController.Ended` | src/engine/run-controller.ts:45-64 | The end of a background run leads to a pass that leaves every queued run blocked. |
| `RunControl.RunController.CancelRun` | src/engine/run-controller.ts:129-140 | The status of the run afterwards in each case, and when the queue is blocked afterwards: always if it was advanced or queued before, otherwise under the exact condition above. |
| `RunControl.RunController.RecoverOnStartup` | src/engine/run-controller.ts:171-185 | A new process leaves each run that was being canceled canceled, each that was over as it is, goes on with running ones, starts queued ones within the limits and leaves the rest blocked. |
| `RunControl.RunController.StaysWithinLimits` | src/engine/run-controller.ts:87-116 | In every state of the controller the running runs are within both limits. |
| `TriggerDedup.StepKeeps` | src/github/integration.ts:441-470 | Every safe step keeps: executions still running are those in flight, one per key; each submitted run is recorded or about to be; nothing recorded is overwritten. |
| `TriggerDedup.OneRunPerKey` | src/github/integration.ts:441-470 | Over any interleaving of safe steps at most one run is submitted per key, and every trigger answered with a run is answered with the run of its key. |
| `TriggerDedup.TriggerDecided` | src/github/integration.ts:441-470 | A trigger looked up and decided on at once is answered with the recorded run of its key; without one it joins the execution in flight; without that it starts and joins a new execution. |
| `TriggerDedup.AnsweredWithItsRun` | src/github/integration.ts:441-541 | In a history of safe steps in which no execution is given up, every answered trigger is answered with a submitted run of its key. |
| `TriggerDedup.OnlyUnsafeStepsDouble` | src/github/integration.ts:441-470 | After any history of safe steps, an enabled step can be followed by safe steps to two runs for one key if and only if it is itself unsafe. |
| `TriggerDedup.StaleDecisionJoins` | src/github/integration.ts:442-470 | A history in which a trigger decides on a lookup that is out of date and joins the execution in flight, which is safe. |
| `TriggerDedup.StaleLookupSubmitsTwice` | src/github/integration.ts:442-470 | A history with two runs for one key when the lookup and the in-flight check are not one step. |
| `TriggerDedup.LostRecordSubmitsTwice` | src/github/integration.ts:520-541 | A history with two runs for one key when an execution ends between submitting and recording. |
| `Redaction.RedactText` | src/engine/orchestrator.ts:1144-1156 | The loop's result is the successive replacement of the distinct values, longest first. |
| `Redaction.OrderMeans` | src/engine/orchestrator.ts:1144-1151 | The values are replaced once each, longer ones first, and values of one length in the order of their first occurrence. |
| `Redaction.RedactionIsComplete` | src/engine/orchestrator.ts:1144-1156 | When no value can straddle the mark: the result is the original text, in order, with some occurrences of values cut out and marked, it contains no value, and a value still does not show when the shorter ones are put back: it was hidden whole. |
| `Redaction.ReplacedAcross` | src/engine/orchestrator.ts:1144-1156 | Replacing such a value leaves every earlier mark alone and works on the text before and after it separately. |
| `Redaction.JoinSplit` | src/engine/orchestrator.ts:1152 | Splitting a text at a value and joining with it gives the text back. |
| `Redaction.NoSharedCharactersIsClear` | src/engine/orchestrator.ts:1144-1156 | Values without a character of the mark cannot straddle it. |
| `Redaction.SingleValueLeaksIff` | src/engine/orchestrator.ts:1144-1156 | For a single value, some text has a redaction that contains it if and only if a placement of it over the mark agrees with it and starts inside the mark, or before the mark where the search from the left finds no earlier occurrence. |
| `Redaction.StraddlingIsNotLeaking` | src/engine/orchestrator.ts:1144-1156 | A value that can straddle the mark and yet never appears in a redacted text. |
| `Redaction.MarkCanLeak` | src/engine/orchestrator.ts:1144-1156 | A text whose redaction contains the secret, for a secret that shares characters with the mark. |

## Left out

- Postgres and S3 layers, migrations, Docker execution, HTTP, SSE, CLI, dashboard, GitHub API calls, cryptography: I/O or foreign code.
- DSL builders and lowering, DTO mapping other than the stage layering, metrics, published updates, artifact collection: easy members only.
- Planner.Validate: leaves out checks on texts and numbers alone (schema version, empty or duplicate names, paths, trigger patterns, policy numbers: src/engine/planner.ts:69-75, 81-111, 122-191 and 424-465).
- Clocks and sleeping: a retry time is an integer chosen by the world, and the sleep until it is part of the waking step.
- Store failures and aborted transactions: store calls succeed, and one transaction is one step.
- Stale copies: a dispatching fiber that persists its own copy of a run over a concurrent cancellation is modelled in the run controller's protocol (`Overwrite`), not in the engine's histories, where each operation acts on the stored run.
- Engine.Orchestrator.CreateRun: takes the fresh run id, random in the engine, as a parameter that no stored run or event uses, and a plan with distinct unit ids, as the planner makes them; the engine stores a submitted plan unchecked.
- Engine.Orchestrator.StartRun: likewise takes a plan with distinct unit ids.
- Engine.Orchestrator.AdvanceWithRun: the checks for a terminal run inside the loop, which no sequential execution can take, are not repeated.
- Engine.Orchestrator.AdvanceRun: is called, as the controller calls it, on a run with no attempt in flight; a run found mid-attempt after a crash goes through recovery first.
- Timestamps, cancellation reasons, reports, diagnostics and the resolved inputs stored on attempts are not fields of the model; attempt ids are identified with attempt numbers.
- Values of inputs and outputs are opaque and compared by identity; string order is by character, not by UTF-16 unit.
- The order of units inside a dashboard stage and its label.
- Scheduler.NoLostWakeup: the reads of queued and active runs at the start of a pass are one step, as with the memory store; activation at selection is one step too. Direct calls of `startRun`, which bypass the controller, are outside the protocol.
- Scheduler.CapacitySafety: the limits are fixed over a history, and startup recovery is one step.
- Redaction.RedactionIsComplete: for lists of several values the condition is sufficient; the exact condition is proved for one value, where replacing never creates text for a later value.
- Marking.LevelsSurviveMarking: a mark rewrites the stored run between two steps; a mark that a later commit of an older copy overwrites is a history without that mark.
- Outcomes.FailurePropagation: takes a run in its first process; runs carried on after a restart are the subject of `Propagation`.

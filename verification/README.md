# CordisClaw runtime: a verified model

This project models the core of the CordisClaw runtime (crate `cordis-runtime`) in Dafny and proves
what its comments and tests promise. Run `dafny verify dfyconfig.toml` to check everything.

What is modelled, hardest first:

- **The execution engine** (`execution/engine.rs`). A Colored Petri Net with per-place,
  per-correlation-key token queues, a ready queue with a shadow set, retry counters, a cache of
  consumed inputs, completed keys and late tokens. `EngineModel.dfy` gives every function and method
  as a function on values, error branches included; `Engine.dfy` and `ExecuteNet.dfy` are the
  imperative object and main loop, each method proved equal to its function. The theorems are about
  whole runs of any length, for every validated net, every scheduler setting and every runner:
  internal errors are unreachable, runs end within a bound, tokens are conserved, causal and in order,
  results are what the runner answered, pairs start in the order the scheduler promises,
  the only work a run can forget is what a parallel drain drops, complete runs agree whatever the
  schedule, batches commute, worker threads may interleave, Routers are atomic up to one exact case.
- **The layered context** (`context/mod.rs`) with its overlay transaction, refined to one plain map
  with one saved copy, and **the Router** (`execution/router.rs`) on top of it.
- **The context's mutexes** as a system of threads that take one lock action a step, with the exact
  condition under which it can deadlock.
- **The service registry** (`context/mod.rs`) under all interleavings of starts, stops and kills.
- **Gates** (`execution/gate.rs`), **the net builder** (`execution/net.rs`), **the update transaction**
  (`kernel/auto_update.rs`), **the history filter** (`agent.rs`) and the retry delay.

## How the model is laid out

| file | content |
|---|---|
| `Prelude.dfy` | results, orderings, a stable sort, multiset sums |
| `Net.dfy`, `Context.dfy`, `Router.dfy` | the builder, the slot store, the Router: values and objects |
| `EngineModel.dfy` | the engine as a state machine over values |
| `EngineTokens.dfy`, `EngineSafety.dfy`, `EngineQueue.dfy`, `EngineScheduling.dfy`, `EngineRuns.dfy` | the invariants, step by step, up to whole runs |
| `EngineTheorems.dfy`, `EngineWakeups.dfy`, `EngineStarvation.dfy`, `EngineInputs.dfy`, `EngineAnswers.dfy`, `EngineOrder.dfy`, `EngineLedger.dfy`, `EngineCounters.dfy`, `EngineRouter.dfy`, `EngineVerdicts.dfy`, `EngineConfluence.dfy`, `EngineColumns.dfy`, `EngineInterleaving.dfy`, `EngineQuorum.dfy` | the theorems |
| `EngineLostWork.dfy`, `EngineCutShort.dfy` | witness runs for what can go wrong |
| `Engine.dfy`, `ExecuteNet.dfy` | the engine object and `execute_net` |
| `Locks.dfy`, `Services.dfy` | interleavings of lock actions and of registry steps |
| `Gate.dfy`, `Backoff.dfy`, `TextPatch.dfy`, `JsonPatch.dfy`, `AutoUpdate.dfy`, `History.dfy` | the smaller cores |

A runner is an arbitrary function of the spec, the attempt, the trigger, the context and the number of
runs so far; it returns an outcome, a payload, whether it overran its deadline, and the context writes
it made. The last argument lets one function stand for any behaviour, also one that depends on time.
History variables (`fired`, `retried`, `late`, `effects`) record a run and influence nothing.

## Where the code departs from its stated intent

- The parallel path drains the whole ready queue and drops what does not fit the batch
  (`execution/engine.rs:235-248`). `EngineWakeups.NeverLost` and `EngineWakeups.Quiescent` say that
  this is all a run can forget and that it matters exactly if a dropped pair never completes;
  `EngineWakeups.DroppedNothing` says exactly when nothing is dropped. `EngineStarvation.KeyStarves`
  says that a key without a place in a round is never served again, so that work is lost as soon as
  more keys are queued than places (`EngineStarvation.TooManyKeysLoseWork`);
  `EngineLostWork.ParallelLosesWork` is a net on which it happens.
- A parallel round commits its Routers while it builds its jobs (`execution/engine.rs:506-522`), and a
  Terminal ends the merge (`execution/engine.rs:379-388`). A Router behind it keeps its writes but is
  recorded as cancelled. `EngineRouter.RouterAtomicity` says that this is the only exception, and
  `EngineCutShort.CommittedYetCancelled` is a run in which it happens.
- `commit_session` locks `request` again while it holds `session` (`context/mod.rs:959-974`), against
  the stated order. `Locks.DeadlockCondition` says exactly which programs can deadlock, and
  `ContextModel.WindowWritesVanish` what happens to writes that land between the two halves.
- `eval_first_success` can report failure although an upstream succeeded (`execution/gate.rs:158-163`);
  `Gate.FalseFailure` says exactly when. An `AllOf` gate with a Skipped or Cancelled upstream waits
  forever; `Gate.AllOfMayWaitForever` says exactly when a waiting gate stays so.
- A quorum counts tokens per arc, so a place on two arcs counts twice
  (`execution/engine.rs:1122-1127`, exactly when: `EngineQuorum.QuorumCountsTheInputs`), and `Quorum(0)`
  is ready without tokens but nothing queues it then: `EngineQuorum.QuorumZeroSleeps` says that such
  pairs are the only ones that are ready and sleep.
- The text patch means to demand one occurrence of its target but counts without overlaps
  (`kernel/auto_update.rs:356-369`). `TextPatch.SingleOccurrenceGuard` says for exactly which targets
  the guard does what it says.
- `service_key_belongs_to` can match the services of an unrelated plugin when a path contains a colon
  (`Services.ColonsMislead`); `Services.BoundaryCondition` says for exactly which two paths the
  boundary holds.
- The history filter drops an ordinary result when a call reuses the id of an earlier introspection
  call (`History.ReusedIdLosesResult`), and only then (`History.OrdinaryResultsKept`).
- The retry delay stops doubling after 21 attempts, visible exactly in the cases that
  `Backoff.DelayDoublesUpToCap` excludes.

## Model

| member | source | states |
|---|---|---|
| Net.BuildPetriNet | crates/cordis-runtime/src/execution/net.rs:131-220 | accepts a spec if and only if ids are distinct, arcs refer to declared places and transitions, and no place has two consumers; the graph then indexes exactly the spec, otherwise the first defect in the builder's order is reported |
| Net.IndexArcs | crates/cordis-runtime/src/execution/net.rs:152-197 | succeeds exactly on clean arc lists, groups arcs by transition and transitions by place without losing order, and otherwise names the first defective arc |
| Net.IndexConsumers | crates/cordis-runtime/src/execution/net.rs:199-210 | each consumed place maps to its only consumer; otherwise the least place with several consumers is named with all of them |
| Net.ConsumersDecideValidity | crates/cordis-runtime/src/execution/net.rs:199-210 | counting consumers per place decides whether two arcs of different transitions share an input place |
| ExecuteNet.ValidatedNet | crates/cordis-runtime/src/execution/net.rs:158-210 | a net the builder accepts has every structural fact the engine relies on, and the engine's net is the given one: every spec under its id, the ids in order, each arc once at its transition in the order of declaration |
| ExecuteNet.CheckPairs | crates/cordis-runtime/src/execution/engine.rs:192-210 | finds the first KeyedPair transition, in id order, whose number of input arcs is not two, or none if all have two |
| ExecuteNet.ExecuteNet | crates/cordis-runtime/src/execution/engine.rs:141-404 | an invalid net or pair is reported in the envelope; otherwise the given net is run until it halts, and the output tells what that run did: outcomes are the latest completion of each transition and Cancelled for the rest after a Terminal, keyed outcomes are exactly the completions, the order has one entry per completion and per retry, each counter has its own account; without an open subgraph it never fails |
| ExecuteNet.OutputTells | crates/cordis-runtime/src/execution/engine.rs:394-404 | the same as a lemma about every turn of every run |
| ExecuteNet.RunBatch | crates/cordis-runtime/src/execution/engine.rs:219-225 | the items of one serial batch are that many turns of the model run, stopping at a Terminal |
| EngineRuns.RunSafe | crates/cordis-runtime/src/execution/engine.rs:535-547 | internal errors are unreachable: at every turn of every run, serial or parallel, the invariants hold and the only possible failure is a Router meeting a subgraph that was open when the run started |
| EngineRuns.TurnSafe | crates/cordis-runtime/src/execution/engine.rs:216-392 | one turn from any reachable state keeps all invariants and either starts an attempt or fills a batch |
| EngineRuns.RunTerminates | crates/cordis-runtime/src/execution/engine.rs:216-225 | every run halts within twice its budget of turns, also on cyclic nets, and the execution order is no longer than root keys times the sum of max_retries + 1 over the transitions |
| EngineRuns.RoundSafe | crates/cordis-runtime/src/execution/engine.rs:226-391 | a parallel round keeps the invariants, runs at least one job and fails only as its Routers do |
| EngineRuns.RoundJobs | crates/cordis-runtime/src/execution/engine.rs:259-349 | a round that does not fail like its Routers reaches the merge with one job per batch item, distinct keys, inputs held and one result per job, and is that merge |
| EngineRuns.BuildAllSafe | crates/cordis-runtime/src/execution/engine.rs:259-277 | building the jobs of a batch with distinct keys never errs internally and yields one job per item, each holding its own consumed inputs |
| EngineRuns.StartInv | crates/cordis-runtime/src/execution/engine.rs:783-806 | queueing the roots of any validated net succeeds and establishes the invariants, with every root queued |
| EngineRuns.BatchSafe | crates/cordis-runtime/src/execution/engine.rs:808-841 | taking a batch keeps queue, batch and shadow set in agreement without duplicates |
| EngineTheorems.CompletesAtMostOnce | crates/cordis-runtime/src/execution/engine.rs:571-620 | in every run each (transition, key) completes at most once, under a root key, after at most max_retries failed attempts, and fails for good only when they are used up |
| EngineWakeups.NeverLost | crates/cordis-runtime/src/execution/engine.rs:843-865 | at every turn of every run before a Terminal, serial or parallel, the pairs that hold inputs or are enabled with a reason to run, and are not complete, are exactly the incomplete ones that are queued or that a drain dropped |
| EngineWakeups.RoundKnown | crates/cordis-runtime/src/execution/engine.rs:226-391 | a parallel round forgets exactly what its drain drops and nothing else |
| EngineWakeups.Quiescent | crates/cordis-runtime/src/execution/engine.rs:1073-1099 | a run that ends without a Terminal leaves no held inputs and nothing enabled that has a reason to run if and only if every pair its drains dropped has completed after all; otherwise those pairs are what is left |
| EngineWakeups.DropsNothing | crates/cordis-runtime/src/execution/engine.rs:235-248 | a drain drops no pair if and only if the queued keys differ and all items fit in one batch |
| EngineWakeups.DroppedNothing | crates/cordis-runtime/src/execution/engine.rs:235-248 | a run has dropped nothing if and only if every round so far had room for its whole queue |
| EngineWakeups.NothingLostWithRoom | crates/cordis-runtime/src/execution/engine.rs:226-248 | a run with room in every round, and so every serial run, has every enabled or holding pair queued at every turn and ends with nothing left to do |
| EngineWakeups.DrainForgets | crates/cordis-runtime/src/execution/engine.rs:235-248 | right after the drain of a run that had lost nothing, all enabled pairs are in the batch if and only if the round had room |
| EngineStarvation.KeysServed | crates/cordis-runtime/src/execution/engine.rs:235-248 | a batch serves every queued key if and only if there are no more queued keys than places |
| EngineStarvation.KeyStarves | crates/cordis-runtime/src/execution/engine.rs:235-248 | a key that a drain does not serve is never queued again before a Terminal: its tokens, inputs, attempts and completions stay for the rest of the run as the drain found them |
| EngineStarvation.TooManyKeysLoseWork | crates/cordis-runtime/src/execution/engine.rs:245-248 | once more keys are queued than a round has places, some pair should run and is not queued at every later turn before a Terminal |
| EngineQueue.WakeInsert | crates/cordis-runtime/src/execution/engine.rs:1073-1099 | inserting a token queues its consumer whenever the token enables it, and no other pair becomes enabled unqueued |
| EngineTheorems.Conservation | crates/cordis-runtime/src/execution/engine.rs:1001-1114 | in every state of every run the token counter equals waiting plus held plus consumed plus dropped tokens, and the output arcs of the completed pairs; no token is in two accounts or twice in one |
| EngineTheorems.DroppedOnlyLate | crates/cordis-runtime/src/execution/engine.rs:1073-1080 | a token is dropped only if its place's consumer has completed that key |
| EngineTheorems.Causality | crates/cordis-runtime/src/execution/engine.rs:1027-1050 | in every state of every run each token that waits, is held or was consumed was made for its place by a firing under the same key, an earlier one than the firing that consumed it, and carries the payload, the final outcome, the id and the logical group (or "default") of its maker and the execution id |
| EngineAnswers.ResultsAreAnswers | crates/cordis-runtime/src/execution/engine.rs:551-700 | in every state of every run, serial or parallel, the inputs of each started pair were enough for its join, and each of its results, retried ones included, is the runner's answer to that attempt on those inputs: a Task or Terminal with a set and missed deadline timed out and otherwise ends as reported, a Router's success stands and its other late results time out, Gates succeed, AllOf pairs with a bad input are skipped; the runner saw the context as the lasting writes before had left it, and its own writes are the next ones |
| EngineAnswers.AttemptAnswers | crates/cordis-runtime/src/execution/engine.rs:644-735 | the same for one attempt, from any context that shows its effects |
| EngineAnswers.QueuesAreFifo | crates/cordis-runtime/src/execution/engine.rs:1073-1099 | in every state of every run the tokens of each place and key stand in the order in which they were minted |
| EngineInputs.EnabledMeaning | crates/cordis-runtime/src/execution/engine.rs:904-966 | a transition may run exactly if it has no inputs, or its required arcs are filled and its policy is met: all filled, any filled, a success or all filled, or at least k tokens counted arc by arc |
| EngineInputs.ConsumeAt | crates/cordis-runtime/src/execution/engine.rs:968-999 | each input place hands out all its tokens of the key, in their order |
| EngineInputs.ConsumeOrdered | crates/cordis-runtime/src/execution/engine.rs:968-999 | the inputs come arc by arc, each place at its first arc and under its label, the oldest token first |
| EngineTheorems.RootKeysMeet | crates/cordis-runtime/src/execution/engine.rs:783-806 | two roots run under one key exactly if they are one root or in one group, or one has a group and the other, without one, has an id that spells it |
| EngineTheorems.SuccessPropagates | crates/cordis-runtime/src/execution/engine.rs:501-506 | along any chain of AllOf joins a Success at the end means a Success at every ancestor |
| EngineTheorems.AllOfAncestorsSucceeded | crates/cordis-runtime/src/execution/engine.rs:589-600 | the same in every reachable state of every run |
| EngineTokens.JoinMonotone | crates/cordis-runtime/src/execution/engine.rs:1116-1154 | every join policy stays satisfied when queues only grow |
| EngineTokens.EnabledLocal | crates/cordis-runtime/src/execution/engine.rs:904-966 | whether a pair is enabled depends only on its own input places under its own key |
| EngineTokens.ConsumeDrains | crates/cordis-runtime/src/execution/engine.rs:968-999 | consuming inputs never misses a bucket of a validated net and empties exactly the transition's places under the key |
| EngineTokens.ConsumeConserves | crates/cordis-runtime/src/execution/engine.rs:968-999 | what leaves the places is, as a multiset, what the trigger receives |
| EngineSafety.TakeSafe | crates/cordis-runtime/src/execution/engine.rs:874-902 | a queued pair's inputs are always there: taking or re-using them succeeds and keeps the invariants |
| EngineSafety.EmitSafe | crates/cordis-runtime/src/execution/engine.rs:1027-1050 | emitting the output tokens of a completion never errs and keeps the invariants, token by token |
| EngineSafety.CompleteSafe | crates/cordis-runtime/src/execution/engine.rs:1001-1053 | completing a pair that was taken off the queue never errs, records it once and sends all its tokens |
| EngineSafety.RetrySafe | crates/cordis-runtime/src/execution/engine.rs:604-617 | requeueing a failed attempt keeps its inputs and the invariants |
| EngineScheduling.CmpReadyLawful | crates/cordis-runtime/src/execution/engine.rs:132-139 | the ready order is a total preorder |
| EngineScheduling.CmpReadyTies | crates/cordis-runtime/src/execution/engine.rs:132-139 | on a queue without duplicates ties in the ready order are equalities |
| EngineScheduling.NextBatchSplits | crates/cordis-runtime/src/execution/engine.rs:808-841 | in both modes batch and remaining queue are together exactly the old queue, in Throughput mode in its order; the batch has the lesser of the queue's length and the parallelism, which counts as at least one |
| EngineScheduling.DeterministicBatch | crates/cordis-runtime/src/execution/engine.rs:825-839 | the Deterministic batch is the same for every permutation of the queue and consists of its least elements, in strictly increasing order |
| EngineScheduling.UrgentFirst | crates/cordis-runtime/src/execution/engine.rs:132-139 | what waits behind a Deterministic batch comes after all of it by level, then by priority, then by id, then by key |
| EngineOrder.FirstInFirstOut | crates/cordis-runtime/src/execution/engine.rs:808-841 | on the serial path in Throughput mode what a run has started followed by what waits only ever grows at its end, so pairs start in the order in which they were queued, beginning with the roots in the order of their ids |
| EngineOrder.DeterministicRuns | crates/cordis-runtime/src/execution/engine.rs:825-839 | in every Deterministic run each batch takes the most urgent pairs of the queue by the levels and priorities of their specs, the most urgent first |
| EngineOrder.RoundsByUrgency | crates/cordis-runtime/src/execution/engine.rs:235-248 | each parallel round of every run starts the most urgent of the pairs queued first for their keys, as many as fit, the most urgent first |
| EngineOrder.RoundsFireInOrder | crates/cordis-runtime/src/execution/engine.rs:350-391 | each parallel round of every run completes its pairs in the order of its batch |
| EngineOrder.OrderGrows | crates/cordis-runtime/src/execution/engine.rs:576-580 | in every run the execution order only grows at its end |
| EngineOrder.RunTitled | crates/cordis-runtime/src/execution/engine.rs:843-865 | at every turn each waiting item carries the level and priority of its spec, and is marked as a retry only after a failed attempt |
| EngineOrder.StartInOrder | crates/cordis-runtime/src/execution/engine.rs:783-806 | the run begins with exactly the roots waiting, under their root keys, in the order of the ids |
| EngineOrder.RetriedLast | crates/cordis-runtime/src/execution/engine.rs:603-617 | a failed attempt with retries left puts its pair at the end of the queue, marked as a retry |
| EngineScheduling.FirstPerKeyIsFirst | crates/cordis-runtime/src/execution/engine.rs:236-241 | the drain keeps, for every queued key, the item that was queued first |
| EngineScheduling.ParallelBatchFacts | crates/cordis-runtime/src/execution/engine.rs:235-248 | a parallel batch has pairwise distinct keys, comes from the queue, fits max_concurrency and is not empty |
| EngineScheduling.ParallelBatchIsLeast | crates/cordis-runtime/src/execution/engine.rs:243-248 | the parallel batch is the least of the items kept per key, as many as there are places, the least first |
| EngineScheduling.ParallelDrainKeepsAll | crates/cordis-runtime/src/execution/engine.rs:235-248 | the batch holds every queued item if and only if their keys differ and all fit in one batch |
| EngineLostWork.ParallelLosesWork | crates/cordis-runtime/src/execution/engine.rs:235-248 | a net with two roots of one group on which a parallel run ends without a Terminal while a root is enabled and has not run |
| EngineLedger.RunBooks | crates/cordis-runtime/src/execution/engine.rs:111-121 | at every turn of every run each entry of the execution order is a completion or a retry of that transition, the counters count the retries and the Cancelled completions, the outcome map holds each transition's latest completion, the context marks exactly what was skipped, and the run stops exactly with a Terminal's completion, which marks Cancelled what never completed; only a parallel round it cuts short leaves attempts unaccounted for |
| EngineCounters.RouterCounters | crates/cordis-runtime/src/execution/router.rs:28-88 | at every turn of every run each Router counter is the number of attempts Routers executed with that outcome, over completions and retries; commits are the successes and rollbacks the rest; only a parallel round that a Terminal cuts short counts more |
| EngineLedger.ConcludeBooks | crates/cordis-runtime/src/execution/engine.rs:603-637 | concluding an attempt counts it as a retry or as a completion, never both and never neither |
| EngineQuorum.QuorumCountsTheInputs | crates/cordis-runtime/src/execution/engine.rs:1122-1127 | the number a quorum compares with its threshold is what the trigger will receive if and only if no place with waiting tokens is on two input arcs, and otherwise more |
| EngineQuorum.OneTokenFillsTwo | crates/cordis-runtime/src/execution/engine.rs:1122-1127 | one token on a place with two arcs fills a quorum of two |
| EngineQuorum.EnabledAsleep | crates/cordis-runtime/src/execution/engine.rs:1116-1154 | an enabled pair has no reason to be queued if and only if it is a Quorum(0) with input arcs, none required, without a waiting token |
| EngineQuorum.QuorumZeroSleeps | crates/cordis-runtime/src/execution/engine.rs:1123-1125 | at every turn of every run before a Terminal the incomplete pairs that are enabled and neither queued nor dropped by a drain are exactly those of a Quorum(0) without waiting or held inputs |
| EngineConfluence.Confluence | crates/cordis-runtime/src/execution/engine.rs:216-392 | with one producer arc per place, all-input joins, no Terminal and a runner blind to context, time and token numbers, any two finished runs, serial or parallel, whose dropped pairs have all completed agree under any settings and contexts: the same pairs with the same inputs up to numbering, attempts, outcomes and payloads |
| EngineConfluence.NoRunGoesAstray | crates/cordis-runtime/src/execution/engine.rs:216-392 | on such nets whatever has happened at any turn of any run, serial or parallel, also happens, with the same inputs up to numbering and the same results, in every finished run whose dropped pairs have all completed |
| EngineConfluence.AgreementCondition | crates/cordis-runtime/src/execution/engine.rs:226-391 | a finished run, serial or parallel, completes everything such a run completes if and only if all pairs its own drains dropped have completed |
| EngineConfluence.RoomIsThorough | crates/cordis-runtime/src/execution/engine.rs:235-248 | every finished run with room in every round, and so every finished serial run, is one whose dropped pairs have all completed |
| EngineVerdicts.RunDetermined | crates/cordis-runtime/src/execution/engine.rs:551-638 | in every run of such a net, serial or parallel, each attempt and each result follows from the inputs of its pair alone, and the inputs are one per delivering arc |
| EngineInputs.OneToken | crates/cordis-runtime/src/execution/engine.rs:1001-1053 | on such nets a place holds at most one token per key in every reachable state |
| EngineColumns.CompleteElsewhere | crates/cordis-runtime/src/execution/engine.rs:1001-1099 | completing (transition, k) leaves tokens, completions, outcomes, queue membership, cache and attempts of every other key as they were |
| EngineColumns.ConcludeBlind | crates/cordis-runtime/src/execution/engine.rs:350-390 | the effect on the pair's own key depends only on that key's part of the state |
| EngineColumns.OrderIrrelevant | crates/cordis-runtime/src/execution/engine.rs:350-390 | concluding the jobs of a batch without Terminals in any order gives the same state for every key, up to token numbers and queue order |
| EngineColumns.RoundOrderIrrelevant | crates/cordis-runtime/src/execution/engine.rs:350-390 | in every round without Terminals of every reachable state, merging the results in another order would give the next state of the run for every key, up to token numbers and queue order |
| EngineInterleaving.ThreadsAreSomeRunner | crates/cordis-runtime/src/execution/engine.rs:279-330 | whatever results the worker threads of a round return and in whatever order their writes reach the context, some runner makes the modelled round return the same results and leave the same context |
| EngineInterleaving.BuiltJobsReturn | crates/cordis-runtime/src/execution/engine.rs:452-533 | the jobs a round leaves to its threads are never to be skipped and are Task, Terminal or Gate |
| EngineRouter.RouterAtomicity | crates/cordis-runtime/src/execution/engine.rs:596-617 | at every turn of every run the context view is the initial view plus the lasting effects, executions, outcome counters, commits and rollbacks add up, a Router pair has at most one lasting attempt, has one if it ended in Success, and has one without Success exactly if its commit lay behind a Terminal that cut its parallel round short, which ends the run |
| EngineRouter.SerialCutsNothing | crates/cordis-runtime/src/execution/engine.rs:219-225 | on the serial path there is no such Router, so lasting attempts and successes coincide |
| EngineCutShort.CommittedYetCancelled | crates/cordis-runtime/src/execution/engine.rs:379-388 | a two-root net on which one parallel round leaves a Router recorded as Cancelled with its writes in the context |
| Engine.EngineState.PushReady | crates/cordis-runtime/src/execution/engine.rs:843-865 | the method is the model's push: no duplicates, no completed keys, an error for an unknown transition |
| Engine.EngineState.EnqueueRoots | crates/cordis-runtime/src/execution/engine.rs:783-806 | the loop queues exactly what the model's recursion over the transition ids queues |
| Engine.EngineState.NextBatch | crates/cordis-runtime/src/execution/engine.rs:808-841 | returns the model's batch and leaves the model's queue, in both modes |
| Engine.EngineState.IsTransitionReady | crates/cordis-runtime/src/execution/engine.rs:904-966 | the loop over required arcs and the join policy decide the model's enabling condition |
| Engine.EngineState.ConsumeInputs | crates/cordis-runtime/src/execution/engine.rs:968-999 | takes the tokens arc by arc as the model does, or reports the missing bucket |
| Engine.EngineState.EnsureTriggerInputs | crates/cordis-runtime/src/execution/engine.rs:874-902 | consumes once and re-uses the cached inputs on later attempts, as the model says |
| Engine.EngineState.InsertToken | crates/cordis-runtime/src/execution/engine.rs:1073-1099 | drops late tokens, appends the others and wakes the consumer, as the model says |
| Engine.EngineState.CompleteTransition | crates/cordis-runtime/src/execution/engine.rs:1001-1053 | the new state is the model's completion, and only a Skipped outcome marks the context |
| Engine.EngineState.ProcessOneItem | crates/cordis-runtime/src/execution/engine.rs:551-638 | state, context, metrics and result are those of the model's step, errors included |
| Engine.EngineState.DrainBatch | crates/cordis-runtime/src/execution/engine.rs:235-248 | empties the queue and returns the first item per key, least first, at most as many as allowed |
| Engine.EngineState.BuildParallelJob | crates/cordis-runtime/src/execution/engine.rs:452-533 | the job, with its skip or Router result settled, is the model's |
| Engine.EngineState.MergeParallelJobs | crates/cordis-runtime/src/execution/engine.rs:350-390 | concludes the results in job order up to a Terminal, as the model says |
| Engine.EngineState.RunRound | crates/cordis-runtime/src/execution/engine.rs:226-391 | a whole parallel round is the model's round |
| Backoff.DelayDoublesUpToCap | crates/cordis-runtime/src/execution/engine.rs:1164-1177 | the delay is the base doubled once per attempt and capped if and only if the attempt is at most the 21st, the base is zero, or 2^20 times the base reaches the cap; saturation never shows |
| Backoff.DelayNeverShrinks | crates/cordis-runtime/src/execution/engine.rs:1164-1177 | later attempts never wait less than earlier ones, and never more than the cap |
| Backoff.PlainDelays | crates/cordis-runtime/src/execution/engine.rs:1164-1180 | no policy waits nothing, a fixed one the same before every attempt, an exponential one nothing before attempt zero and the capped base before the first |
| Router.RouterIsAtomic | crates/cordis-runtime/src/execution/router.rs:28-91 | a Router attempt without an open subgraph never fails; a success stands however late, other results become Timeout exactly if a deadline is set and missed; the view changes by the attempt's writes exactly on Success; and it is counted once, under its outcome, as a commit or a rollback |
| Router.Execute | crates/cordis-runtime/src/execution/router.rs:28-91 | the method on the context object gives the model's result, context and counters |
| ContextModel.LookupIsView | crates/cordis-runtime/src/context/mod.rs:414-462 | a lookup through overlay, request, session and global finds exactly the entry of one visible map, and a miss is an error exactly on a schema conflict no overlay entry hides |
| ContextModel.MissMeaning | crates/cordis-runtime/src/context/mod.rs:451-461 | the schema scan reports a conflict exactly when some layer holds another major version of the slot |
| ContextModel.MissNames | crates/cordis-runtime/src/context/mod.rs:451-461 | a miss is an error exactly with this key and the least conflicting version of the topmost layer that has any |
| ContextModel.ConflictMeaning | crates/cordis-runtime/src/context/mod.rs:452-457 | an entry conflicts exactly if it is of the same slot and its version is outside the hundred of the requested one |
| ContextModel.StepRefines | crates/cordis-runtime/src/context/mod.rs:735-983 | each of put, remove, begin, commit_overlay, rollback_overlay and commit_session is the same operation on one plain map with one saved copy, with the same reply |
| ContextModel.StepsRefine | crates/cordis-runtime/src/context/mod.rs:735-983 | the same over every sequence of operations |
| ContextModel.StepsCount | crates/cordis-runtime/src/context/mod.rs:735-983 | over every sequence of operations each counter counts its own: writes the puts and removes, rollbacks the overlays rolled back, conflicts the refused commits, the version the accepted ones |
| ContextModel.FlushKeepsView | crates/cordis-runtime/src/context/mod.rs:852-893 | committing an overlay moves data between layers and clears tombstones in all three without changing the view |
| ContextModel.Transaction | crates/cordis-runtime/src/context/mod.rs:800-926 | after begin, any writes and any session commits, rollback restores the view at begin, commit keeps the writes, and either way no subgraph stays open |
| ContextModel.RemoveIsFinal | crates/cordis-runtime/src/context/mod.rs:361-377 | a key removed outside a transaction never comes back without a put, whatever layer held it and whatever is committed later |
| ContextModel.CommitWindow | crates/cordis-runtime/src/context/mod.rs:959-974 | copy followed by clear is the atomic commit, and a clear after other steps keeps the view exactly when each visible request entry is also what the layers below hold |
| ContextModel.WindowWritesVanish | crates/cordis-runtime/src/context/mod.rs:959-974 | whatever operations and first halves of operations other threads perform between the two halves of commit_session, all that reached the request layer is lost: the view ends as it was below the overlay before the commit, under the overlay then open |
| ContextModel.CloneRepairs | crates/cordis-runtime/src/context/mod.rs:279-311 | repair turns any torn pair into a consistent one, a clone has the same view, and cloning changes nothing exactly on consistent stores |
| ContextModel.RuntimeContext.ListByNs | crates/cordis-runtime/src/context/mod.rs:662-731 | lists exactly the keys of the namespace that are visible, so exactly those contains finds, each once and in key order |
| ContextModel.RuntimeContext.Contains | crates/cordis-runtime/src/context/mod.rs:657-660 | holds exactly for the keys of the visible map and counts one read |
| ContextModel.RuntimeContext.LookupEntry | crates/cordis-runtime/src/context/mod.rs:414-462 | the method is the model's lookup, schema conflict included |
| ContextModel.RuntimeContext.SchemaCheck | crates/cordis-runtime/src/context/mod.rs:451-461 | names the least conflicting version of the first layer that has one |
| ContextModel.RuntimeContext.Put | crates/cordis-runtime/src/context/mod.rs:735-767 | writes to the overlay if a subgraph is open, else to the request layer, and to nothing else |
| ContextModel.RuntimeContext.Remove | crates/cordis-runtime/src/context/mod.rs:769-788 | leaves a tombstone if a subgraph is open, else removes the key from all three layers |
| ContextModel.RuntimeContext.BeginSubgraph | crates/cordis-runtime/src/context/mod.rs:800-828 | opens an empty overlay, or refuses and changes nothing while one is open |
| ContextModel.RuntimeContext.CommitOverlay | crates/cordis-runtime/src/context/mod.rs:830-893 | the two loops move the overlay into the request layer and sweep its tombstones, as the model says |
| ContextModel.RuntimeContext.RollbackOverlay | crates/cordis-runtime/src/context/mod.rs:895-926 | drops the overlay of the open subgraph and counts it, or refuses an unknown id |
| ContextModel.RuntimeContext.CommitSession | crates/cordis-runtime/src/context/mod.rs:928-983 | on the expected version copies request into session, clears request and bumps the version, else counts a conflict and changes nothing |
| Locks.DeadlockCondition | crates/cordis-runtime/src/context/mod.rs:959-974 | the threads can reach a stuck state if and only if some thread commits a session while another looks below the request layer or commits a session too |
| Locks.OrdinaryCallsNeverStuck | crates/cordis-runtime/src/context/mod.rs:414-450 | any number of threads running any of the other methods are stuck in no reachable state |
| Locks.CanFinish | crates/cordis-runtime/src/context/mod.rs:664-716 | from every reachable state of compatible threads some schedule lets every call return |
| Locks.SomeThreadMoves | crates/cordis-runtime/src/context/mod.rs:747-786 | while some call has not returned, following the holders of awaited locks ends at a thread that can move |
| Locks.PathDisciplined | crates/cordis-runtime/src/context/mod.rs:800-926 | each method's lock actions climb in the order active, overlays, request, session, global and give everything back, commit_session excepted in one place |
| Locks.PathTakes | crates/cordis-runtime/src/context/mod.rs:414-983 | each method takes exactly the locks of what it looks at or changes, in this order, each while it holds exactly these others |
| Locks.IncompatibleGetsStuck | crates/cordis-runtime/src/context/mod.rs:959-974 | for every pair of such calls, anywhere in any programs, a schedule that runs both into each other |
| Services.ReachableInv | crates/cordis-runtime/src/context/mod.rs:1056-1230 | in every interleaving each started instance is in exactly one of: its own start call, the registry, a stopper's hands, the zombies, stopped, given up by a kill; and it is filed under its own key |
| Services.NoneOrphaned | crates/cordis-runtime/src/context/mod.rs:1056-1230 | once no call is in flight each instance that ever started is registered under its key, stopped, a zombie, or was given up |
| Services.AbandonedOnlyByKill | crates/cordis-runtime/src/context/mod.rs:1203-1230 | only a kill that finds a zombie still stuck gives an instance up |
| Services.StoppedForGood | crates/cordis-runtime/src/context/mod.rs:1110-1134 | a stopped instance never returns to the registry, to a stopper or to the zombies |
| Services.StopEnds | crates/cordis-runtime/src/context/mod.rs:1162-1199 | a stop in time or without a limit stops its instance, one that misses its limit makes it a zombie, nothing else makes one, and only a kill of its subtree ends one |
| Services.KillEnds | crates/cordis-runtime/src/context/mod.rs:1203-1230 | a kill leaves other plugins' zombies, stops its own that have ended and gives up those still stuck |
| Services.TimelyStopsLeaveNoZombies | crates/cordis-runtime/src/context/mod.rs:1138-1199 | in every interleaving in which all stops are in time no zombie comes into being |
| Services.UntimedStopsLeaveNoZombies | crates/cordis-runtime/src/context/mod.rs:1110-1134 | nor in any in which stops have no limit |
| Services.SecondStartDoesNothing | crates/cordis-runtime/src/context/mod.rs:1056-1088 | a start of a key that is taken launches nothing and changes nothing |
| Services.StartRegisters | crates/cordis-runtime/src/context/mod.rs:1056-1106 | an undisturbed start of a free key registers its instance under that key and nothing else |
| Services.RaceHasOneWinner | crates/cordis-runtime/src/context/mod.rs:1089-1104 | of two starts of one key that both passed the first check, the first to register owns the key and the other is stopped |
| Services.BelongsToSubtree | crates/cordis-runtime/src/context/mod.rs:1025-1030 | for paths without colons the boundary condition holds, and a service key belongs to a plugin exactly if its owner is the plugin or one of its descendants |
| Services.BoundaryCondition | crates/cordis-runtime/src/context/mod.rs:1025-1030 | for any two paths the key test separates subtree from foreign services, for every node name, if and only if the owner is in the subtree or neither path followed by the separator is a prefix of the other |
| Services.ColonsMislead | crates/cordis-runtime/src/context/mod.rs:1028-1030 | with a colon in a path, in either position, an unrelated plugin's service is matched |
| Services.TakesTheSubtree | crates/cordis-runtime/src/context/mod.rs:1114-1127 | wherever that condition holds a stop takes exactly the services of the subtree out of the registry and leaves the others |
| Services.ServiceRegistry.TakePlugin | crates/cordis-runtime/src/context/mod.rs:1141-1160 | the locked loop removes exactly the matching entries and returns them |
| Services.ServiceRegistry.Register | crates/cordis-runtime/src/context/mod.rs:1089-1104 | inserts the instance unless the key is taken, and replaces nothing |
| Services.ServiceRegistry.KillZombies | crates/cordis-runtime/src/context/mod.rs:1203-1230 | removes exactly the matching zombies, keeps the others in order and counts the removed |
| Gate.EvaluateGate | crates/cordis-runtime/src/execution/gate.rs:49-64 | each policy's loop decides what its quantified description says |
| Gate.DecisionIsStable | crates/cordis-runtime/src/execution/gate.rs:49-248 | once a gate has decided, under any policy, its success flag never changes while outcomes and completion order grow |
| Gate.DecisionMeans | crates/cordis-runtime/src/execution/gate.rs:49-248 | each policy decides success, or failure, exactly when its description in terms of the recorded outcomes, and for the first two in order the completion order, holds |
| Gate.CancelsThePending | crates/cordis-runtime/src/execution/gate.rs:117-217 | a gate that cancels, cancels exactly the upstreams without an outcome, as often as they are listed; FirstCompleted does whenever there are some and FirstSuccess always names its list |
| Gate.AllOfIsAtLeastAll | crates/cordis-runtime/src/execution/gate.rs:66-88 | AllOf decides as AtLeast of the whole list exactly if an upstream has failed or none was skipped or cancelled |
| Gate.FirstSuccessIsAnyOf | crates/cordis-runtime/src/execution/gate.rs:117-167 | while the completion order lists what is recorded FirstSuccess decides as AnyOf, except that it waits on an empty list |
| Gate.AnyOfIsAtLeastOne | crates/cordis-runtime/src/execution/gate.rs:90-115 | AnyOf decides as AtLeast(1) for every upstream list and every outcome map |
| Gate.AtLeastIsTight | crates/cordis-runtime/src/execution/gate.rs:219-248 | AtLeast(k) waits if and only if some extension decides success and another decides failure |
| Gate.FalseFailure | crates/cordis-runtime/src/execution/gate.rs:152-166 | FirstSuccess reports failure despite a success exactly when all upstreams are recorded and the completion order lists none of the successful ones |
| Gate.FalseFailureHappens | crates/cordis-runtime/src/execution/gate.rs:158-163 | such a failure on a one-node list, taken back once the order catches up |
| Gate.AllOfMayWaitForever | crates/cordis-runtime/src/execution/gate.rs:66-88 | a waiting AllOf gate waits under all extensions exactly when every upstream is recorded |
| AutoUpdate.AutoUpdater.Execute | crates/cordis-runtime/src/kernel/auto_update.rs:210-305 | with writes that may fail and leave anything and a verifier that may write: promoted means the patches landed one after the other, each doing to its file what its kind means, and were verified; rolled back or failed means every patched file is as before, with the reason why a patch was refused or failed, and every other file as the verifier left it; only a failed rollback can leave more, and then only in patched files |
| AutoUpdate.AutoUpdater.ApplyPatches | crates/cordis-runtime/src/kernel/auto_update.rs:258-268 | the loop lands the patches one after the other, left to right; on an error, which says which patch was refused or could not be written and why, the backups taken so far restore every file |
| AutoUpdate.AutoUpdater.ApplyOne | crates/cordis-runtime/src/kernel/auto_update.rs:230-256 | on success the patch has landed on its file and nothing else changed; the backup recorded before the write undoes whatever the write left |
| AutoUpdate.PatchMeans | crates/cordis-runtime/src/kernel/auto_update.rs:234-238 | a text patch puts its text in the place of the leftmost occurrence, a JSON or TOML patch prints the parsed document with the value at its path and everything apart from it as before; each does so exactly where that is possible, and is otherwise refused with the error for what is missing |
| AutoUpdate.PrepareMeans | crates/cordis-runtime/src/kernel/auto_update.rs:223-249 | a patch lands exactly if its shape is complete, its path is relative without "..", inside the workspace and of a text file, and its kind applies; otherwise the first of these that fails is reported |
| AutoUpdate.PathStaysBelow | crates/cordis-runtime/src/kernel/auto_update.rs:307-326 | a path is accepted exactly if it does not begin with a slash and two dots stand alone between no slashes or ends |
| AutoUpdate.ApplyAllMeans | crates/cordis-runtime/src/kernel/auto_update.rs:258-268 | the fold of the patches succeeds with exactly the files in which they have landed one after the other |
| AutoUpdate.AutoUpdater.Rollback | crates/cordis-runtime/src/kernel/auto_update.rs:328-342 | a completed rollback has written the backups last to first; a failed one has touched only backed-up files |
| AutoUpdate.RestoreUndoesAll | crates/cordis-runtime/src/kernel/auto_update.rs:328-342 | restoring in reverse undoes every applied patch list, several patches to one file and several paths to one file included |
| AutoUpdate.RestoreUndoes | crates/cordis-runtime/src/kernel/auto_update.rs:276-303 | after any further writes the restore puts every backed up file back as it was and leaves the others alone |
| AutoUpdate.UndoneQuietly | crates/cordis-runtime/src/kernel/auto_update.rs:270-303 | if the verifier wrote nothing an undone transaction leaves every file as it was |
| AutoUpdate.ForwardOrderLeavesFirstPatch | crates/cordis-runtime/src/kernel/auto_update.rs:334-334 | restoring first to last would leave a file that was patched twice half patched |
| AutoUpdate.ApplyAllLocal | crates/cordis-runtime/src/kernel/auto_update.rs:258-268 | applying patches changes no file that no patch names and creates none |
| TextPatch.AppliesExactly | crates/cordis-runtime/src/kernel/auto_update.rs:345-372 | a text patch applies if and only if the target occurs and every occurrence overlaps the leftmost one |
| TextPatch.ReplacesLeftmost | crates/cordis-runtime/src/kernel/auto_update.rs:371-371 | an applied patch replaces the leftmost occurrence and keeps the text before and after it |
| TextPatch.SingleOccurrenceGuard | crates/cordis-runtime/src/kernel/auto_update.rs:350-369 | the guard lets only single occurrences through, for every text, if and only if no proper prefix of the target is also its suffix |
| TextPatch.TextRewrites | crates/cordis-runtime/src/kernel/auto_update.rs:345-372 | the result of a text patch is exactly the text with the replacement in the place of the leftmost occurrence, which all others overlap |
| TextPatch.TomlReplaces | crates/cordis-runtime/src/kernel/auto_update.rs:477-501 | the result is the one document that has the value at the path and reads as before at all paths apart from it |
| TextPatch.SplitFinds | crates/cordis-runtime/src/kernel/auto_update.rs:450-457 | splitting yields exactly the pieces that stand between two separators or an end |
| TextPatch.JoinSplits | crates/cordis-runtime/src/kernel/auto_update.rs:450-457 | joining parts and splitting again gives the parts |
| JsonPatch.JsonReplaced | crates/cordis-runtime/src/kernel/auto_update.rs:374-404 | a JSON replacement succeeds exactly on pointers that lead somewhere; the value then stands there, paths apart from it read as before and what it passes through keeps its keys and its length |
| JsonPatch.JsonOnlyOne | crates/cordis-runtime/src/kernel/auto_update.rs:374-404 | no other document meets that description |
| JsonPatch.PointersReachAll | crates/cordis-runtime/src/kernel/auto_update.rs:391-397 | for every path of member names and indexes, whatever characters they hold, the escaped pointer leads along it |
| JsonPatch.IndexUnique | crates/cordis-runtime/src/kernel/auto_update.rs:391-397 | different pointer tokens never name the same array item |
| TextPatch.ReplaceTomlDottedValue | crates/cordis-runtime/src/kernel/auto_update.rs:467-508 | the cursor walk, writing through the last table, computes the document with the value at the path replaced, or the walk's error |
| TextPatch.ReplacedThere | crates/cordis-runtime/src/kernel/auto_update.rs:477-501 | the replacement succeeds exactly on existing keys, and the new value then stands at the path |
| TextPatch.UntouchedElsewhere | crates/cordis-runtime/src/kernel/auto_update.rs:477-501 | every path that neither contains nor extends the replaced one reads as before |
| TextPatch.ReplaceBack | crates/cordis-runtime/src/kernel/auto_update.rs:477-501 | putting the old value back restores the document |
| TextPatch.SplitJoins | crates/cordis-runtime/src/kernel/auto_update.rs:450-457 | splitting a dotted key loses nothing and no part contains the separator |
| History.FilterKernelIntrospectionMessages | crates/cordis-runtime/src/agent.rs:95-162 | the loop computes the filter |
| History.FilterErases | crates/cordis-runtime/src/agent.rs:95-162 | for every chat the calls and results that remain are, in order, the old ones without introspection calls and without results whose id an earlier introspection call had |
| History.FilterSurvives | crates/cordis-runtime/src/agent.rs:95-162 | the same as a property of single events: the remaining events are, in order, those that are neither introspection calls nor results whose id an earlier introspection call had |
| History.FilterKeepsChainsValid | crates/cordis-runtime/src/agent.rs:77-94 | on chats with unique call ids and results after their calls, exactly the introspection calls and their results go, and the output is such a chat again |
| History.AnswersKept | crates/cordis-runtime/src/agent.rs:77-94 | on such chats every other call is kept and is answered exactly if it was |
| History.OrdinaryResultsKept | crates/cordis-runtime/src/agent.rs:95-162 | for every chat each ordinary call keeps its result if and only if no answered ordinary call reuses the id of an earlier introspection call |
| History.OutputIsClean | crates/cordis-runtime/src/agent.rs:99-113 | no message of the output calls an introspection tool, whatever the chat |
| History.FilterIdempotent | crates/cordis-runtime/src/agent.rs:95-162 | filtering twice is filtering once |
| History.CleanUnchanged | crates/cordis-runtime/src/agent.rs:106-109 | the filter changes nothing exactly on chats without introspection calls |
| History.NothingSaidIsLost | crates/cordis-runtime/src/agent.rs:116-142 | every text that is not a tool result survives, in order |
| History.FilterKeepsMessages | crates/cordis-runtime/src/agent.rs:95-162 | the output is the input with messages left out and introspection calls stripped, the field too where no call is left, and nothing else changed or reordered; no message without calls or answers is left out |
| History.ReusedIdLosesResult | crates/cordis-runtime/src/agent.rs:151-157 | a chat with a reused id in which an ordinary call loses its result |

## Left out

- EngineRuns.RoundSafe: a runner that panics is not modelled, only one that returns; that the threads' writes land in job order loses nothing (EngineInterleaving.ThreadsAreSomeRunner).
- Engine.EngineState.RunRound: the method runs the jobs in job order too, as one of the interleavings.
- Locks.DeadlockCondition: the path a call takes is chosen freely, so a program counts as able to deadlock when some outcome of its lookups and version checks leads there; `clone` is left out, and memory reclamation and lock poisoning are not modelled.
- Services.ReachableInv: a stopper may stop its entries in any order, which includes the source's; when a `stop` returns or times out is decided by the service.
- AutoUpdate.AutoUpdater.Execute: the file a path leads to does not change during the transaction, and the source reports a failed rollback by error text, not by its own variant.
- Integer widths: counters, sequence numbers and session versions are unbounded; the 64-bit arithmetic is written out only in the retry delay.
- Time: real sleeping, `join_wait_ms`, `router_exec_ms`, `net_build_ms` and commit latencies; a deadline is one flag of the runner's report.
- Execution ids: `make_execution_id` is a parameter.
- Gate policy on Gate transitions: the engine never reads it, so Gate transitions just succeed here as there.
- Error texts: errors carry their variant and data, not the message; `normalize_execution_error` is the one envelope.
- Serialization: slot values are opaque JSON, so the serialization error of `put` and typed reads are not modelled.
- JSON and TOML texts: parsing, printing and the conversion between them are partial functions around the modelled documents; pointers follow RFC 6901, sections 3 and 4.
- Path containment: `canonical_workspace_root`, `ensure_under_workspace` and `ensure_restore_contained` in `kernel/plugin_iteration.rs` are not part of this model; they appear as an arbitrary predicate and arbitrary failures.
- The local service container of the context (`provide`, `inject`, `maybe`, `dispose`): type-erased values behind plain map operations.
- `plugin/*`, `host.rs`, `main.rs`, `command_router.rs`, `config.rs`, `soul.rs`, `llm_sink.rs` and the other crates: dynamic loading, FFI, CLI and message plumbing.
- The rest of `agent.rs` and `kernel/*`: LLM turns, tools, prompts, evaluation and reports.

# Verified model of the bot framework and of vault sizing

A Dafny 4.11 model of the logic at the centre of this repository, with proofs of what that logic is for:

- **The dataflow engine** (`framework/engine`): a graph of maps and folds evaluated step by step. One step
  applies its writes, schedules the operators they reach, evaluates them in a fixed order and commits all of
  it or none. The proofs say that this incremental evaluation agrees with recomputing every map and with
  folding every fold over its whole history, that each write is delivered exactly once, that steps end, that
  a failed step leaves no trace, and that reachability over the graph is sound and least.
- **The journal and its replay**: keyed levels are journaled as deltas, and the replayer must reproduce every
  recorded step, whatever was rolled back and whatever the journal's queue dropped.
- **The runner and its lanes**: bounds, priority of recovery work, order of starts and the call budget, over every
  run; that work starts only once every pending step has run and every expiry has been told; that the loop ends.
- **The task family** (`framework/controller`): which acts go to the signer, and what each rests on.
- **Vault sizing** (`bots/vault-*-reallocation`): fixed-point sizing with every division rounded down, and
  the shared deposit pools.

## How it is laid out

Where the program changes state in place, so does the model: `Core.Core` is the engine, with its maps as
fields and its delivery buffers as heap objects, rolled back in place; `Builder.GraphBuilder`,
`Journal.Deltas`, `JournalQueue.Journaling`, `Lanes.LaneState`, `RunnerLoop.Loop`, `TaskFamily.Drafting` and
`CapPools.DepositPools` follow the same rule. Each of their methods is proved against a function of the old
state, and what the program promises is proved about those functions, over whole runs:

| modules | about |
|---|---|
| `Basics`, `DataValues`, `JsonTexts`, `Encoding`, `Orders` | values, their canonical text, orders and sorts |
| `Graphs`, `EvaluationOrder`, `Builder`, `Reach` | graphs: building, ordering, reachability |
| `Steps`, `Propagation`, `Pushes` | what one step does, as functions |
| `Readers`, `BufferStore`, `Core` | the engine in place, proved to do just that |
| `Deliveries`, `Invariants`, `StepInvariants`, `EngineRuns` | what every step and every run keeps of maps and folds |
| `Requests`, `Watching`, `Expiring`, `OrderedSteps` | what they keep of effects, watch reads, expiries and the order operators run in |
| `KeyedLevels` | keyed levels as last-word maps |
| `Journal`, `EffectBuffers`, `Replay`, `JournalQueue` | deltas, replay, and the queue in front of the sink |
| `Lanes`, `LaneRuns` | the scheduler and its runs |
| `Drains`, `DrainRuns`, `DrainEnds`, `RunnerLoop` | the runner's loop, what its runs keep, that it ends, and the loop in place |
| `Intents`, `TaskEntries`, `Backoff`, `Acts`, `Families`, `TaskFamily`, `TaskRuns`, `PreparationLane` | the task family, its runs and the lane its preparations run in |
| `VaultMath`, `CapPools` | sizing and caps |

`compute`, `applyInput`, `afterInputs`, `expiries`, the policy, `ready` and the other callbacks are arbitrary
functions, any of which may throw (`None`). The kernel, the clock, the sink and the work an effect does are
the environment: their answers, in any order, are the inputs the run theorems quantify over.

One assumption stands for the digests: SHA-256 has no collisions among the values met, so a digest is modelled
as the value itself. That equality of encodings is equality as data is proved in `Encoding`.

## Findings

- The engine's own documentation, under "Initial values", starts a map with a value if all it reads is `latest` edges
  of nodes that start with one, and no map that samples. The code asks only for the mode `latest`, which a `sample`
  edge has too (`framework/engine/src/graph.ts:78-82`, `framework/engine/src/core.ts:86`), so a map that samples may
  start with a value as well. One fold and one map that samples it show it (`EvaluationOrder.SampledMapStarts`), and
  `EvaluationOrder.StartsAsDocumented` gives the exact condition on what is declared: nodes start as documented if and
  only if no map whose reads are all of the newest values of nodes documented to start samples one of them. The model
  follows the code.
- "Nothing is appended after a failure" holds of a failed append and of an entry that outgrows the
  capacity as it is written (`JournalQueue.NothingFollowsAFailedAppend`). It does not hold of an entry refused
  for its size when it is offered: what was taken before it is still appended. Two entries of 6 bytes under a
  capacity of 10 show it (`JournalQueue.AppendedAfterAnOverflow`), and `JournalQueue.OverflowLetsTheQueueDrain` gives
  the exact condition in any run, for any sizes of entries: that a write was under way which the sink had been handed
  already, or which fits once compacted.
- Waiting normal work can refuse recovery work after all: a normal job of the same effect and identity does, and by
  `LaneRuns.NormalWorkNeverRefusesRecovery` nothing else.
- The bounds on what a withdrawal leaves hold exactly of markets with any supply; an empty market, whose utilization
  counts as 0, is the one exception.

## Model

| member | source | states |
|---|---|---|
| `Encoding.EncodingIsCanonical` | framework/engine/src/data.ts:23-55 | exactly the values that are JSON plus bigint, with finite numbers, no `undefined` outside a field and no `$bigint` field, are encoded, and each as the one text of the data it is |
| `Encoding.DecodingInvertsEncoding` | framework/engine/src/data.ts:55-77 | decoding an encoding gives the value back, but for `undefined` fields, the order of fields and minus zero |
| `Encoding.EncodesEquallyExactlyWhenSameData` | framework/engine/src/data.ts:51-55 | two values encode equally if and only if they are the same data |
| `Encoding.FieldOrderIsNoData` | framework/engine/src/data.ts:23-34 | objects with the same defined fields are the same data in whatever order they list them |
| `Encoding.DecodeInvertsText` | framework/engine/src/data.ts:69-77 | the reviver tells each bigint from the object, string or number that looks like it |
| `JsonTexts.QuoteReadsBack` | framework/engine/src/data.ts:37-37 | a quoted string is self-delimiting: whatever follows it, reading gives the string back and stops after it |
| `JsonTexts.WriteReadsBack` | framework/engine/src/data.ts:36-49 | the text of any JSON value is self-delimiting, so no two values share a text |
| `EvaluationOrder.Order` | framework/engine/src/graph.ts:303-323 | a permutation of the operators; every producer before its readers when there is no cycle, and otherwise still every producer declared earlier |
| `EvaluationOrder.ArrangedPointsForward` | framework/engine/src/graph.ts:299-323 | with cycles, only a read of a reserved or emitted node can point to a later operator |
| `EvaluationOrder.InitialValues` | framework/engine/src/core.ts:80-99 | each fold starts at its initial value, each map at what it computes from its inputs when all have one; fails naming a map that throws on them |
| `EvaluationOrder.InitialsOfAllAreRight` | framework/engine/src/core.ts:80-99 | one pass in evaluation order finds every initial value there is |
| `EvaluationOrder.InitialsAreStarting` | framework/engine/src/core.ts:80-99 | the nodes that start with a value are known from the operators alone: every fold, and each map all of whose reads, sampling or not, are of the newest values of such nodes |
| `EvaluationOrder.StartsAsDocumented` | framework/engine/src/core.ts:80-87 | what is documented to start with a value does; nothing else does if and only if no map whose reads are all of the newest values of nodes documented to start samples one of them |
| `EvaluationOrder.SampledMapStarts` | framework/engine/src/core.ts:86-86 | in a well-formed graph of one fold and one map that samples it, the map starts with a value though documented not to |
| `Builder.BuiltStarts` | framework/engine/src/graph.ts:615-637 | evaluation order changes nothing of which nodes start with a value: the declaration decides it, before it is built |
| `Builder.BuiltWellFormed` | framework/engine/src/graph.ts:615-637 | a declaration that keeps the checks builds a well-formed graph: at most one operator writes each node, and none that coalesces or is a level is read by `every` |
| `Builder.ArrangedAcyclic` | framework/engine/src/graph.ts:303-323 | without a cycle, every edge of the built graph points to an earlier operator |
| `Builder.AddingOperatorKeeps` | framework/engine/src/graph.ts:430-461 | an operator that passes the read and claim checks leaves the declaration consistent |
| `Builder.GraphBuilder.Build` | framework/engine/src/graph.ts:615-637 | refuses a reservation no fold produced, a node with no producer, a second recovery scope and a map failing on its initial inputs, and nothing else; what it builds is well formed, has the one recovery scope's members, starts the nodes the declaration decides and, if acyclic, points forward only |
| `Builder.GraphBuilder.Source` | framework/engine/src/graph.ts:471-482 | declares and claims a level or an occurrence for its source, unless its node is taken |
| `Builder.GraphBuilder.Node` | framework/engine/src/graph.ts:491-519 | declares a node nothing produces yet, reserved for a fold or not, unless it is taken |
| `Builder.GraphBuilder.Clock` | framework/engine/src/graph.ts:483-490 | declares and claims a clock with a positive period, as a member of an open recovery scope |
| `Builder.GraphBuilder.BeginRecovery` | framework/engine/src/graph.ts:595-604 | opens a recovery scope, unless one is open |
| `Builder.GraphBuilder.EndRecovery` | framework/engine/src/graph.ts:605-607 | closes it, with the members declared inside |
| `Builder.GraphBuilder.Map` | framework/engine/src/graph.ts:496-513 | declares the map, unless its node is taken or it reads an undeclared node, or reads a coalescing node or a level by `every`; a refusal changes nothing |
| `Builder.GraphBuilder.Fold` | framework/engine/src/graph.ts:520-563 | declares the fold, claiming its node and its emits, exactly when its target is new or reserved and unproduced, its reads are allowed and its emits distinct, unreserved and unproduced; a refusal changes nothing |
| `Builder.GraphBuilder.CheckReads` | framework/engine/src/graph.ts:448-461 | accepts exactly reads of declared nodes, `every` only of those that neither coalesce nor are levels |
| `Builder.GraphBuilder.CheckEmits` | framework/engine/src/graph.ts:538-544 | accepts exactly emits that are unreserved, unproduced and named once |
| `Builder.GraphBuilder.AddEffect` | framework/engine/src/graph.ts:564-594 | declares the effect and claims its results node, or leaves everything as it was |
| `Core.Core.Run` | framework/engine/src/core.ts:336-367 | a step commits exactly what its wakes, its writes and the operators they lead to make of the state; when anything throws, all five maps and the write counter are as before, buffers pushed in place included, and the failing operator is named |
| `Core.Core.Write` | framework/engine/src/core.ts:203-232 | one write: refused for a malformed expiry, dropped when its node coalesces an equal one, else recorded, buffered for each `every` read and its readers scheduled |
| `Core.Core.Wake` | framework/engine/src/core.ts:235-240 | a node counts as written again and only its watchers are scheduled |
| `Core.Core.Schedule` | framework/engine/src/core.ts:187-194 | schedules an operator once, counts each re-entry and refuses the 65th |
| `Core.Core.EvaluateMap` | framework/engine/src/core.ts:256-273 | blocked by unreadable inputs, `failed` outweighing `unknown`, before taking any delivery; else writes what it computes |
| `Core.Core.TakeWatched` | framework/engine/src/core.ts:276-284 | each watched node written since the fold last ran, once, at its last write |
| `Core.Core.EvaluateFold` | framework/engine/src/core.ts:286-313 | applies deliveries and watched records in write order, runs `afterInputs` only if something arrived, writes the state and then each emit |
| `Core.Core.Due` | framework/engine/src/core.ts:391-395 | exactly the nodes a running watcher has an expiry of at or before the time |
| `Core.Core.NextExpiry` | framework/engine/src/core.ts:382-389 | the earliest time anything is due |
| `Core.Core.KeepOnly` | framework/engine/src/core.ts:399-401 | changes which operators are evaluated and nothing else |
| `Core.Core.TakeRequests` | framework/engine/src/core.ts:246-254 | an effect takes what waits for it at or below `writeSeq`, in write order, and leaves its buffers empty; `Requests.EffectsTakeEachWriteOnce` shows that is everything |
| `Core.Core.constructor` | framework/engine/src/core.ts:129-187 | a fresh engine holds every initial value, its expiries and empty buffers |
| `Readers.ReadersRight` | framework/engine/src/core.ts:155-170 | a node's readers are exactly the reads of it the graph declares, each once |
| `Readers.VisitedIsScheduled` | framework/engine/src/core.ts:225-231 | visiting readers one by one schedules what scheduling them at once does, or fails alike |
| `Core.Core.Deliver` | framework/engine/src/core.ts:225-226 | a delivery is pushed to the buffer of every `every` read of its node, and to no other |
| `BufferStore.Buffers.Take` | framework/engine/src/core.ts:246-254 | takes the deliveries waiting at or below `writeSeq`, merged by write order, and empties the buffers it took |
| `Deliveries.MergedIsAStableSort` | framework/engine/src/core.ts:246-254 | merging up to `upTo` is ascending by write, with equal writes in read order; of deliveries ordered at or below `upTo` it loses and adds none |
| `Deliveries.MergedBuffersAreOwed` | framework/engine/src/core.ts:246-254 | sorting a reader's buffers gives the order the log of writes was made in, each delivery once |
| `StepInvariants.FoldTakesWhatIsOwed` | framework/engine/src/core.ts:286-301 | of what a fold takes, the deliveries are exactly those logged since its last take, in order |
| `Invariants.WriteKeeps` | framework/engine/src/core.ts:203-232 | a write schedules everything it makes stale: not scheduled implies consistent |
| `StepInvariants.EvaluatingMapKeeps` | framework/engine/src/core.ts:256-273 | evaluating a map restores its consistency and breaks no other operator's |
| `StepInvariants.EvaluatingFoldKeeps` | framework/engine/src/core.ts:286-313 | evaluating a fold leaves it owed nothing and breaks no other operator's consistency |
| `StepInvariants.RunKeeps` | framework/engine/src/core.ts:336-357 | a committed step takes a settled state to a settled state, with cycles or without |
| `Propagation.BeginningSpendsOne` | framework/engine/src/core.ts:347-353 | each evaluation lowers what is left to run by one |
| `Propagation.RoundSpendsOne` | framework/engine/src/core.ts:346-354 | whatever the evaluation writes and schedules, one round lowers what is left to run; so the loop ends |
| `Propagation.NoOperatorRunsPastTheBound` | framework/engine/src/core.ts:187-194 | no step evaluates any one operator more than 65 times, however operators feed back |
| `OrderedSteps.ForwardStepsRunEachOnce` | framework/engine/src/core.ts:346-354 | when every edge points forward, in any state, a step runs its operators in evaluation order, each at most once, and never fails for the cycle bound |
| `EngineRuns.MapsReadAsRecomputed` | framework/engine/src/core.ts:203-273 | in every reachable state, a kept map over triggering reads holds exactly what recomputing it gives when all its inputs are readable; else it holds none, and says `failed` exactly when some input did |
| `EngineRuns.SamplingMapsNeverWait` | framework/engine/src/core.ts:227-230 | a kept map with `sample` reads too is readable whenever all its inputs are |
| `EngineRuns.InitialNodesAlwaysReadable` | framework/engine/src/core.ts:72-99 | a node with an initial value holds one in every reachable state |
| `EngineRuns.FoldsTakeEachWriteOnce` | framework/engine/src/core.ts:225-254 | over every run, what a kept fold has applied is, one for one, each committed write of its `every` inputs, in write order |
| `Requests.StepsDeliver` | framework/engine/src/core.ts:225-226 | a committed step adds to an effect's buffers exactly the writes to its inputs that it records, in order |
| `Requests.EffectsTakeEachWriteOnce` | framework/engine/src/core.ts:245-254 | over every run, what an effect has taken and would take next are together each committed write of its inputs, once, in write order; taking leaves nothing unread |
| `Watching.FoldsSeeEveryWatchedWrite` | framework/engine/src/core.ts:275-284 | in every reachable state a kept fold has been handed each node it watches as of the node's last write or wake, and never one that has not happened |
| `EngineRuns.FoldsHoldTheirHistory` | framework/engine/src/core.ts:286-307 | a kept fold with only `every` reads and no `afterInputs` holds the left fold of `applyInput` over that whole history |
| `Invariants.SortedUniqueSorts` | framework/engine/src/core.ts:116-116 | the stored expiries are those found, ascending, each once |
| `Expiring.WakingLeavesNothingDue` | framework/engine/src/core.ts:197-243 | a committed step that woke all that was due at a time leaves nothing due at that time, though it writes nodes with expiries of their own |
| `Expiring.StoredExpiriesAscend` | framework/engine/src/core.ts:105-117 | in every reachable state each stored expiry list ascends, so its head decides what is due |
| `Reach.Reachables` | framework/engine/src/reach.ts:27-60 | the least set holding the seeds and closed under the carriers, each node mapped to the one it was reached through, with a way back to a seed |
| `Reach.Pass` | framework/engine/src/reach.ts:51-57 | one pass extends what is reached soundly, and finds nothing only at the fixpoint |
| `Reach.PathTo` | framework/controller/src/tasks.ts:337-346 | following the map from any reached node ends at a seed, along nodes that are reached |
| `Reach.ScheduledIsStarted` | framework/engine/src/reach.ts:6-11 | whatever a write schedules is started from its node, because a sample of a node with an initial value never schedules |
| `Reach.StepsWriteOnlyTheReachable` | framework/engine/src/reach.ts:27-60 | in every reachable state a committed push step writes no node outside what is reachable from the pushed ones |
| `KeyedLevels.KeysReadAsTheLastWord` | framework/engine/src/keyed.ts:81-127 | after any history of accepted writes a key reads as the last write that was complete or named it says, entries over absent over failed, and as unknown before any |
| `KeyedLevels.RefusedHistories` | framework/engine/src/keyed.ts:119-120 | a history is refused exactly when some write of it is an unasserted empty complete level |
| `KeyedLevels.MappingCommutesWithReading` | framework/engine/src/keyed.ts:184-208 | projecting a level then reading a key is reading it then projecting; coverage and the basis of every known key are kept |
| `KeyedLevels.MappingNeverLengthens` | framework/engine/src/keyed.ts:196-204 | no projected key holds longer than the read it came from |
| `KeyedLevels.MappingTwice` | framework/engine/src/keyed.ts:175-212 | two projections in turn read key by key as one after the other |
| `KeyedLevels.ProjectedKeysReadAsTheLastWord` | framework/engine/src/keyed.ts:81-212 | after any history of accepted writes a projected key reads as the projection of the last word said of it, and its level wakes its watchers whenever that lapses |
| `KeyedLevels.KeysLapseWithTheirLevel` | framework/engine/src/keyed.ts:73-78 | whenever a key's record lapses, its level wakes its watchers |
| `Journal.ExpansionInvertsCompaction` | framework/engine/src/journal.ts:112-164 | for every sequence of writes, expanding what was compacted gives back every write in order and never meets an invalid delta; both sides reach the same memory |
| `Journal.ShapeDecidesExpansion` | framework/engine/src/journal.ts:82-110 | the shape checker accepts exactly the writes that can be expanded, and stays the key sets of the full memory |
| `Journal.ShapeDecidesExpansionOfAll` | framework/engine/src/journal.ts:93-164 | the same over any sequence of writes, the key sets after it included |
| `Journal.Deltas.CompactEntry` | framework/engine/src/journal.ts:112-144 | compacts the writes of a step against the shared memory and leaves every other entry alone |
| `Journal.Deltas.Expand` | framework/engine/src/journal.ts:146-164 | the write a journaled one stands for, or none for a delta that is invalid or has nothing to apply to |
| `Journal.Shapes.Advance` | framework/engine/src/journal.ts:93-110 | advances the key sets, accepting exactly what expands |
| `EffectBuffers.LeftoversNeverInfluenceAStep` | framework/engine/src/replay.ts:38-44 | two states that differ only in what effects left unread take any step alike, with the same derived writes |
| `Replay.CommittedStepReplays` | framework/engine/src/replay.ts:33-50 | a committed step, journaled compacted and expanded again, replays with the writes it derived |
| `Replay.ReplayReproducesEveryRun` | framework/engine/src/replay.ts:18-53 | for every run, with steps rolled back and a degrade to the recovery scope, replaying any prefix of what it journaled is ok with the number of steps in it |
| `Replay.ReplayAll` | framework/engine/src/replay.ts:18-53 | the loop over a fresh engine reports what the specification of replay does |
| `Replay.ReplayStep` | framework/engine/src/replay.ts:33-50 | one step re-run on the engine in place: reproduced, or the reason it was not |
| `JournalQueue.JournalConserves` | framework/engine/src/runner.ts:164-311 | in every run the counted bytes are those queued and under way and within the capacity; what the sink accepted is, compacted and in order, the first of what was taken, and until a write fails the rest is under way or queued in order, through overflow too; compaction remembers only what was accepted; the journal is finalized at most once, with nothing left and never after a timeout |
| `JournalQueue.NothingFollowsAFailedAppend` | framework/engine/src/runner.ts:257-292 | in any run, after an append fails, or an entry outgrows the capacity as it is compacted, the sink accepts nothing more, whatever happens |
| `JournalQueue.OverflowLetsTheQueueDrain` | framework/engine/src/runner.ts:295-303 | in any run, whatever size each entry has, after one refused for its size the sink may still accept something if and only if a write was under way that it had been handed already, or that fits in some compacted form |
| `JournalQueue.AppendedAfterAnOverflow` | framework/engine/src/runner.ts:295-303 | an instance: with room for 10 bytes and two entries of 6, the first is appended after the second has failed the journal |
| `JournalQueue.AfterGrows` | framework/engine/src/runner.ts:183-188 | only a failed append, or an entry that outgrows the capacity as it is compacted, drops what waits, and none is accepted with it |
| `JournalQueue.AcceptedJournalsReplay` | framework/engine/src/runner.ts:220-293 | however queue and sink fared, replaying what the sink accepted reproduces every step in it |
| `JournalQueue.Journaling.Append` | framework/engine/src/runner.ts:295-303 | queues the entry, or closes the journal at one that would exceed the capacity, or ignores it once closed |
| `JournalQueue.Journaling.Hand` | framework/engine/src/runner.ts:210-273 | describes a failure, compacts a step and re-sizes the write under way, or clears the queue when it no longer fits |
| `JournalQueue.Journaling.Accepted` | framework/engine/src/runner.ts:274-282 | only an accepted write advances the deltas and gives its bytes back |
| `JournalQueue.Journaling.Refused` | framework/engine/src/runner.ts:283-291 | a failed write drops the queue and closes the journal |
| `JournalQueue.Journaling.WriteJournal` | framework/engine/src/runner.ts:220-251 | takes the next entry when nothing is under way, or finalizes a closing journal once |
| `LaneRuns.LanesKeepTheirBounds` | framework/engine/src/runner.ts:390-550 | in every run no lane runs more than its concurrency, no two waiting or running requests share an identity, and neither kind outgrows the queue and the slots |
| `LaneRuns.NormalWorkNeverRefusesRecovery` | framework/engine/src/runner.ts:390-412 | of all the normal work that may wait, only a job of the same effect and identity refuses a recovery request that is admitted without it |
| `LaneRuns.RecoveryStartsFirst` | framework/engine/src/runner.ts:515-548 | a turn that starts a normal job found no ready recovery job waiting in its lane, and none starts anything unready |
| `LaneRuns.RecoveryNeverWaitsOnTheBudget` | framework/engine/src/runner.ts:543-546 | with a slot free a ready recovery job starts whatever the budget |
| `LaneRuns.LanesStartInOrder` | framework/engine/src/runner.ts:515-550 | in every run what was admitted began, waits or was dropped, once; when no effect on the lane waits to be ready, what began and then what waits of each kind is what was admitted less what was dropped, in order, though a refused job is put back first |
| `LaneRuns.LanesKeepTheirBudget` | framework/engine/src/runner.ts:360-378 | with a clock that never runs backwards, at most `calls` normal starts fall in any half-open window of `perMs` |
| `LaneRuns.LanesKnowOnlyRequests` | framework/engine/src/runner.ts:380-412 | whatever a lane has been through, each job it holds and each high-water mark came in one of its requests |
| `Lanes.LaneState.Admit` | framework/engine/src/runner.ts:381-412 | admits a request or refuses it, by place in line, identity or queue bound; the high-water mark rises either way once it is passed |
| `Lanes.LaneState.DrawBudget` | framework/engine/src/runner.ts:360-378 | forgets starts out of the window and draws one if one is left |
| `Lanes.LaneState.NextJob` | framework/engine/src/runner.ts:515-523 | the first ready recovery job, else the first ready normal one, taken from its place |
| `Lanes.LaneState.Pump` | framework/engine/src/runner.ts:531-548 | starts jobs until the lane is full, nothing is ready, the budget refuses or the runner must go on |
| `Lanes.LaneState.Settle` | framework/engine/src/runner.ts:479-488 | settled work frees its slot and its identity, and nothing else |
| `Lanes.LaneState.Keep` | framework/engine/src/runner.ts:715-716 | a degrade drops the waiting work of every effect but those kept, in place |
| `Lanes.LaneState.FinishQueued` | framework/engine/src/runner.ts:504-513 | after a stop, starts what was kept within the concurrency |
| `DrainRuns.StartsAreUndisturbed` | framework/engine/src/runner.ts:527-551 | in every run, all the work a live runner ever starts it starts with no step pending and, once started itself, with no expiry passed that a kept watcher of its node was not told of |
| `DrainRuns.WakesAdvance` | framework/engine/src/runner.ts:567-609 | with a clock that never runs backwards, each committed wake is strictly later than the one before, whatever is written, degraded or retried between them |
| `DrainRuns.RunnersLanesKeepTheirPromises` | framework/engine/src/runner.ts:390-551 | each lane of a runner keeps its bounds and loses nothing, through every step, degrade and stop |
| `DrainEnds.DrainsEnd` | framework/engine/src/runner.ts:598-631 | in no state a runner comes to can its loop spin: at one reading of the clock it makes at most two passes for each step pending or pushed meanwhile and three more, and ends with the runner stopped or nothing left to do |
| `DrainEnds.GuardedQuiets` | framework/engine/src/runner.ts:575-621 | a pass that wakes what is due leaves nothing due at its time, even where the wake fails and is retried degraded, or the runner has stopped |
| `RunnerLoop.Loop.Propagate` | framework/engine/src/runner.ts:575-591 | runs the writes or wakes all that is due; a step that commits is journaled and routed, one that fails leaves the engine as it was |
| `RunnerLoop.Loop.Recover` | framework/engine/src/runner.ts:701-745 | a step that threw stops the runner or degrades it: its lanes are filtered, the step is rerun without the rest, and the wind-downs are queued |
| `RunnerLoop.Loop.PumpLane` | framework/engine/src/runner.ts:528-551 | before each start looks again at what is pending and what expired |
| `RunnerLoop.Loop.Work` | framework/engine/src/runner.ts:598-609 | one thing a call, steps before wakes and wakes before the pump, and false once there is none to do |
| `RunnerLoop.Loop.Drain` | framework/engine/src/runner.ts:623-631 | works until the runner stops or nothing is left to do, and counts its passes |
| `Acts.GroundsAreTight` | framework/controller/src/act.ts:126-147 | refused exactly when resting on no fact or on no deadline; its block is the newest of all it read, its `notAfter` the earliest of all deadlines |
| `Intents.IssuedIdsParse` | framework/controller/src/intent.ts:7-18 | an issued id gives back key, run and task, even when the key contains `#` or `.` |
| `Intents.IssuedIdsDiffer` | framework/controller/src/intent.ts:7-8 | ids issued for different keys, tasks or numbers differ |
| `Intents.RunIdsProbed` | framework/controller/src/intent.ts:11-18 | one id of a run parses exactly when all of its ids do |
| `Intents.TicketsDiffer` | framework/controller/src/tasks.ts:607-608 | tickets of different numbers differ |
| `TaskEntries.WithReadsBack` | framework/controller/src/own.ts:22-33 | setting one task entry sets that entry and no other |
| `TaskEntries.KeptReadsBack` | framework/controller/src/own.ts:35-45 | filtering keeps exactly the entries the test holds for |
| `TaskEntries.NoKeyLeftEmpty` | framework/controller/src/own.ts:22-45 | no key is ever left without an entry |
| `Orders.SameIdsAreTheSameBag` | framework/controller/src/tasks.ts:197-200 | two id lists compare equal exactly when they hold the same ids as often |
| `Orders.RankedRight` | framework/controller/src/tasks.ts:349-365 | a permutation of the keys, by priority, and among equals in turn after the one last served |
| `Backoff.ApplyInput` | framework/controller/src/backoff.ts:156-197 | the loop over settlements, then failures, comes to the fold's next state and events |
| `Backoff.SlotsKeepToThemselves` | framework/controller/src/backoff.ts:175-196 | what an input does to one task of one key does not depend on any other |
| `Backoff.WaitsNeverShorten` | framework/controller/src/backoff.ts:85-101 | between settlements a kept `until` never moves earlier and its count never falls; it is forgotten only once its wait ended `maxBlocks` ago |
| `Backoff.WaitsRunFromTheLastFailure` | framework/controller/src/backoff.ts:75-97 | over every run, what a slot still waits for is the wait its failures in a row earned, counted from the block it last failed at, and ends at most `maxBlocks` after it |
| `Backoff.NothingHeldBeyondTheMaximum` | framework/controller/src/backoff.ts:75-97 | however long a key keeps failing, nothing holds it from `maxBlocks` after its last failure on |
| `Backoff.FailuresWiden` | framework/controller/src/backoff.ts:85-97 | failures of a slot in one input count one each and set its wait from the current block |
| `Backoff.WideningCounts` | framework/controller/src/backoff.ts:182-195 | each failure of a slot adds one to its count, failures of others none |
| `Backoff.PruningChangesNoAnswer` | framework/controller/src/backoff.ts:99-101 | pruning changes `isBackedOff` neither at its block nor at any later one |
| `TaskRuns.SubmitsAreSafe` | framework/controller/src/tasks.ts:527-556 | every submitted act, in every run: a present candidate whose policy wants that task and those conflicts as bags; its fact at the version captured; captured expiry and `validUntil` after now; its key neither busy nor submitted nor backed off; new work accepted; and from a preparation asked for and never voided |
| `TaskRuns.FamiliesKeepTheirBounds` | framework/controller/src/tasks.ts:597-659 | in every run preparing, ready and submitted keys are disjoint, preparations stay within the lane, and no decision raises the reservations above the greater of the maximum and what it found |
| `TaskRuns.IssuedOnce` | framework/controller/src/tasks.ts:527-628 | in every run preparation numbers strictly rise, and no ticket or intent id is issued twice; each act's key and run read back from its id |
| `TaskRuns.SubmitsNameTheirTask` | framework/controller/src/tasks.ts:527-556 | in every run the id of each submitted act reads back as its key, its run and the task of the preparation it answers |
| `PreparationLane.PreparationsKeepTheirPlace` | framework/engine/src/runner.ts:380-412 | however a lane's requests, starts, settlements and drops interleave with a family's preparations, the runner refuses none of those for its number or its ticket |
| `TaskRuns.NormalizingVoids` | framework/controller/src/tasks.ts:579-595 | exactly the keys whose policy return is refused have their preparation voided |
| `TaskRuns.HoldingKeeps` | framework/controller/src/tasks.ts:206-217 | a ready act is kept exactly when it is unexpired and its candidate still wants that task with those conflicts |
| `TaskRuns.DecidingIsRight` | framework/controller/src/tasks.ts:630-684 | one decision: numbered requests, safe submits, disjoint keys, reservations within bounds |
| `TaskFamily.Decide` | framework/controller/src/tasks.ts:630-684 | the decision drafted in place is the one specified, or throws alike |
| `TaskFamily.Drafting.NormalizePolicies` | framework/controller/src/tasks.ts:579-595 | the policy of each present candidate, voiding and reporting the refused ones |
| `TaskFamily.Drafting.Submit` | framework/controller/src/tasks.ts:527-556 | moves one ready act to submitted under a fresh id, or drops it for the first reason that holds |
| `TaskFamily.Drafting.SubmitAll` | framework/controller/src/tasks.ts:651-657 | best ranked first, while reservations are left, passing over busy and backed off keys |
| `TaskFamily.Drafting.FindPreparable` | framework/controller/src/tasks.ts:558-577 | exactly the candidates that may be prepared now |
| `TaskFamily.Drafting.PrepareNext` | framework/controller/src/tasks.ts:597-628 | asks for preparations, best ranked first, while lane and reservations have room |
| `VaultMath.DepositsNeverUndershoot` | bots/vault-v2-reallocation/src/math.ts:38-74 | depositing any amount up to the sized deposit leaves utilization at least the target, exactly |
| `VaultMath.DepositsReachTheirTarget` | bots/vault-v2-reallocation/src/math.ts:71-74 | the whole sized deposit lands as close to the target as its two roundings down allow |
| `VaultMath.WithdrawalsBarelyOvershoot` | bots/vault-v2-reallocation/src/math.ts:66-88 | for targets up to 100%, after any withdrawal up to the sized one, borrow times WAD is under target times the supply left plus twice the supply before, if and only if the market had any supply |
| `VaultMath.WithdrawalsLeaveLiquidity` | bots/vault-v2-reallocation/src/math.ts:66-88 | a target of at most 99.9% leaves supply above borrow, once borrow times WAD is at least 2000 times the supply, if and only if there was any supply |
| `VaultMath.WithdrawalsWithinPosition` | bots/vault-v1-reallocation/src/math.ts:56-84 | never more than the vault's own position, nor than the market supplies |
| `CapPools.AllocationsFit` | bots/vault-v2-reallocation/src/math.ts:144-158 | an allocation within the sized amount keeps utilization at the target and the accrued position within the buffered cap |
| `CapPools.DepositsFitTheirCap` | bots/vault-v1-reallocation/src/math.ts:91-101 | the single-cap vault's form of the same |
| `CapPools.BufferedCeiling` | bots/vault-v2-reallocation/src/math.ts:106-113 | at most the buffered absolute cap and, unless the relative cap is the WAD sentinel, the buffered relative cap; and equal to the binding one |
| `CapPools.AccrualDrift` | bots/vault-v2-reallocation/src/math.ts:132-135 | the drift trues the stored allocation up to the greater of it and the accrued position |
| `CapPools.PoolsBalance` | bots/vault-v2-reallocation/src/math.ts:204-238 | over any sequence of credits and takes every pool keeps headroom less deficit equal to its starting slack plus credited less taken, one of the two zero, and no deficit once anything was taken |
| `CapPools.PlansNeverOverspendAdapter` | bots/vault-v2-reallocation/src/math.ts:176-238 | once a plan takes anything, the adapter's effective allocation is within its buffered ceiling |
| `CapPools.PlansNeverOverspendCollateral` | bots/vault-v2-reallocation/src/math.ts:176-238 | and each listed collateral's within its own, once anything is taken of it |
| `CapPools.DriftsAddUp` | bots/vault-v2-reallocation/src/math.ts:177-182 | the collaterals' drifts sum to the adapter's |
| `CapPools.BasisCoversAnyTouched` | bots/vault-v2-reallocation/src/math.ts:160-168 | the drift counted covers the true-up of whichever markets a plan touches, in all and of each collateral |
| `CapPools.UnlistedTakesNothing` | bots/vault-v2-reallocation/src/math.ts:233-237 | nothing is taken of a collateral with no pool |
| `CapPools.CreateDepositPools` | bots/vault-v2-reallocation/src/math.ts:176-202 | the pools built in place are those specified, each room its own |
| `CapPools.DepositPools.CreditPools` | bots/vault-v2-reallocation/src/math.ts:214-224 | credits the adapter and the collateral in place, repaying each deficit first and opening a pool for a collateral without one |
| `CapPools.DepositPools.TakeFromPools` | bots/vault-v2-reallocation/src/math.ts:227-238 | clamps to both pools, draws it from both and returns it |
| `CapPools.SumDrifts` | bots/vault-v2-reallocation/src/math.ts:177-182 | the loop computes the total drift and the drift of each collateral |

## Left out

- Encoding.Decode: reads text without blanks between tokens and without escaped halves of surrogate pairs, which
  `encode` only writes for a lone surrogate; strings are sequences of Unicode scalar values, so lone surrogates are
  not modelled, and `BigInt` is given an optional minus sign and digits, never blanks, a plus sign or hexadecimal.
- Encoding.Encode: a finite number is known by its shortest decimal text, which the runtime writes and reads; the path
  a refusal names and the getters, prototypes and freezing of objects are not modelled.
- Orders.Less: compares character by character where the runtime compares UTF-16 code units, which differ only
  between characters past U+FFFF and those from U+E000 to U+FFFF.
- VaultMath.WithdrawalTo: sizes nothing toward a target of 0, as the V2 code does; the V1 code throws there.
- Reach.StepsWriteOnlyTheReachable: speaks of steps that push writes; as in the code, what clocks and expiries lead
  to is not seeded, and effects write in later steps.
- Pushes.LevelWrite: a level write whose value is `undefined` is refused at once, where the code queues it and fails
  the step.
- Builder.GraphBuilder.Fold: nodes are named by their ids, so handles of other graphs, scope prefixes and the typed
  shapes of handles are not modelled, nor which check of several failing ones is reported.
- EngineRuns.FoldsTakeEachWriteOnce: of an operator no longer kept after a degrade it claims a prefix only.
- Lanes.LaneState.Admit: identities, positions and kinds are given with each request, so a lane policy that throws or
  re-enters the runner is not modelled, nor the timer that pumps again when the budget frees a start.
- RunnerLoop.Loop.Propagate: the engine and each lane are values the loop replaces; they change in place in `Core.Core`
  and `Lanes.LaneState`. What deliveries become requests of, what handlers push, when timers ring and whether the
  journal fails are the environment's; `armExpiry` and abort signals are not modelled.
- RunnerLoop.Loop.Recover: which failures degrade the runner is the environment's choice, at most once a run; a
  wind-down callback that throws is one that leaves nothing to wind down.
- JournalQueue.Journaling.Append: an entry's encoded size and a failure's description are arbitrary functions of the
  entry; promises, abort signals and the error a finalization reports are not modelled.
- Replay.ReplayReproducesEveryRun: the run is what the runner did, as events; when a runner degrades or stops is in
  `Drains`, without its journal, and what it reports is not modelled.
- Families.Answered: the event that reports a preparation's fault, and the timeout that answers for a handler, are
  left out; an answer may come at any time, or never.
- Families.WantedBy: a policy is a function that wants a task or is refused; how a refusal is told from a defect
  is not modelled.
- Acts.GroundsOf: that every reading comes from a fact of the act's domain is left to the types.
- The iteration order of objects is sorted order, and `__proto__` is a name like any other.
- The engine's reads are listed in declaration order; integer-like field names, which the runtime moves first, are
  not treated apart.
- `apyToRate`, `rateToApy` and the inverse of the rate curve are approximations over library code that is not part of
  this model.
- Address checksums: collaterals are named by one normal form.
- The kernel's reducer is not part of this model: its view, its notices and its block heads are inputs.
- Strategies, reconcilers, quoting, swaps, solidity lenses, RPC clients, scripts, configuration and logging.

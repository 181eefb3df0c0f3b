# gleanflow: a verified model of the task protocol

gleanflow expands a DAG of stages into chunk tasks, runs them through a leased queue that redelivers, and takes a
completion marker in an object store as the only truth about what is done. This project models that machinery in Dafny
and proves what it promises: no interleaving, failure, lease expiry or crash changes the outputs; a restart ends with the
right outputs exactly when what it finds in the store fits; no chunk is lost; a stage ends only when everything its manifest
names is finished; a run delivers and retries no more than its redeliveries allow; remedies conserve the work; packing is
optimal; the distributed group-by means what the single query means; written parts read back as what was written.

`dafny verify dfyconfig.toml` checks everything.

## How the model is laid out

| file | what it models |
|---|---|
| `Sequences.dfy`, `Names.dfy` | lists and sums; decimal and zero-padded names and their string order |
| `Partition.dfy` | `pack` as the loop it is, and what its result is |
| `GroupBy.dfy`, `MapReduce.dfy` | `groupby_agg` as a query transformation; the two stages it becomes |
| `Store.dfy`, `Context.dfy`, `Bridge.dfy` | `LocalStore`, `PartWriter`, `Ctx` as classes over one flat key-to-records map; what they do there is what the machine does to a chunk's directory |
| `Checkpoint.dfy` | `Checkpoint.fit` with a process that may die between any two of its actions |
| `Pipeline.dfy` | stage registration and the recursive topological visit |
| `Queue.dfy`, `LocalQueue.dfy` | the queue as a value, and the mutable `LocalQueue` with shared task objects that refines it |
| `QueueLaws.dfy`, `Counters.dfy`, `Leases.dfy` | its laws over whole runs of operations: exclusivity, deliveries, what the counters count, the order of service, what a lease promises until when |
| `Machine.dfy`, `Soundness.dfy`, `Tracking.dfy`, `Progress.dfy`, `Attempts.dfy`, `Interleave.dfy` | queue, store, markers and workers as one state machine; what every step and every run keeps |
| `Planning.dfy`, `Remediation.dfy`, `Books.dfy`, `Staging.dfy` | plans, manifests, the three remedies and the balance they keep |
| `Trace.dfy`, `Spending.dfy`, `Controller.dfy` | the controller's methods and loops over that machine, exactly which steps they take, and what a drain can use up |
| `Reference.dfy`, `Restart.dfy` | the sequential evaluation of the DAG, completed runs compared with it, and runs over what an earlier run left |
| `Runs.dfy`, `StaleMarkers.dfy`, `StaleFailures.dfy` | concrete runs, step by step, that show where a promise ends |

**Interleavings.** A run of the machine is any sequence of atomic steps: spawn, claim, look at the marker, read a member,
compute, put one part, write the marker, ack, fail, heartbeat, crash, sweep, and the controller's own steps. The controller
is a class whose methods make its steps one at a time. Before each of them it lets a burst of worker steps happen. The bursts
come from a `script`, which is arbitrary, so a contract proved for every script holds for every number of workers and every
interleaving. A run is woven from the controller's steps and the bursts that have gone by, each played in full; that is part of
what every method keeps (`Controller.Controller.Yield`, `Interleave.EverythingHappens`). The sweeps in the controller's own calls of `depth` are among those steps.
The length of the script stands for the six-hour deadline. What the failure handler answers is a second
arbitrary list.

**Exact traces.** Contracts of the controller's methods also say which of its own steps they take, in order: `own` is the run
without the workers' steps. A remedy takes exactly the steps its answer asks for, a round goes through exactly when policy,
budget and all answers allow it, one that is given up has dealt with the dead tasks before the first that is not remedied,
and a stage fails only when the deadline passed or a poll saw dead letters that could not all be remedied.

**The store a run starts over.** A process makes its task objects afresh, so every run starts with none; what it finds in the
store is arbitrary. `Program.found` and `Program.cached` are the files and the markers it finds. Marker soundness, the barrier,
remedies, conservation and schedule independence are proved over any of it. `Restart.CleanIff` says when the outputs are those
of a run over an empty store.

**Lease discipline.** `LocalQueue.fail` puts a task back even when the caller's lease has run out, so a key can be in two
places (`QueueLaws.StaleFailDuplicates` is such a run). `QueueLaws.OrderlyIff` gives the exact condition for each operation,
`QueueLaws.ExclusiveIffOrderly` for whole runs: a key acknowledged or failed must be in flight (or acknowledged before, or
never seen), a reset one known and not dead, and no dead letter may be taken. In the machine the flag `strict` says that stale
workers do not report failures. Only these need it: exclusivity of places, the conservation of members and weight under
remedies, distinct ids in a remedied manifest, and the bound on a remedied drain in terms of its rounds
(`StaleFailures.StaleFailureDoubles` is a run that puts every piece into a manifest twice). Marker soundness, no lost chunk,
the barrier of every stage of a remedied run, over upstream manifests that name a chunk twice too, the smoke gate, schedule
independence, restarts, the delivery bound and the falling measure hold without it.

**Where the code and its documentation differ.** The model follows the code.
- `config.py` calls `max_remediations` a cap on auto-fixes per stage. It bounds the rounds of one `_drain` call: a stage
  behind the smoke gate drains twice (`Controller.Controller.Drain`), and one round remedies as many chunks as are dead
  (`StaleFailures.CapIsOnRounds`: two, under a cap of one).
- Part names are padded to five digits. From part 100000 on they no longer sort in part order, so a chunk of distinct
  records reads back as it was written exactly up to 100000 parts (`Store.PartOrderIff`, `Store.ReadBackIff`).
- Listing a chunk sees the parts of another exactly when their paths are the same or the first, with a slash, begins the
  second (`Context.SeenIff`): with chunk ids a and a/b it does (`Context.SlashesMixChunks`), without slashes in names it never
  does (`Context.ChunksApart`).
- A re-run is not always idempotent. A remedied manifest is planned afresh on a re-run, and the packer gives the same ids to
  other members, while markers written under the old ids still count: `StaleMarkers.StaleAfterSkip` is a remedied run and a
  re-run that completes with a packed chunk that lacks a file. A restart ends right if and only if what it finds suits every
  planned task (`Restart.CleanIff`); over what an earlier run left, if and only if every planned key that has a marker had
  belonged to a task with the same output and no other had got more parts than the planned task makes
  (`Restart.RestartIff`). That is so whenever no planned key was given to another task (`Restart.AgreeSuits`), as in every
  run without remedies (`Restart.StaticAgrees`).

**Assumptions.** Stage functions are deterministic and use only their input and `write`. A put is atomic. Weights and
aggregated values are reals. Task keys are unique, as `task.py` demands, and source chunk ids are distinct within a stage.
Stages are listed in the order `topo_order` gives. Every chunk has a directory of its own: no two chunks have the same path
`data/<stage>/<chunk>`, and no chunk's path, with a slash, begins another's. `Context.SeenIff` shows that this is exactly what
it takes, and `Bridge.SubOfPut` that a put then changes the directory of its own chunk and no other.

## Model

| member | source | states |
|---|---|---|
| Partition.Pack | gleanflow/partition.py:43-74 | The packing loop returns the greedy packing for every list, target and prefix, and one chunk per member for a target of zero or less. |
| Partition.GreedyBlocksAreGreedy | gleanflow/partition.py:58-73 | The greedy blocks are non-empty, concatenate to the input, weigh at most the target or hold one member, and each overflows with the first member of the next. |
| Partition.GreedyPackingUnique | gleanflow/partition.py:67-73 | Any blocks with those properties are the ones the packer makes, so the properties fix its result. |
| Partition.PackingOptimal | gleanflow/partition.py:43-74 | With non-negative weights no order-preserving packing under the same cap has fewer chunks. |
| Partition.PackingConserves | gleanflow/partition.py:51-74 | The chunks' members concatenate to the input list and their weights sum to its weight, for every target. |
| Partition.OneToOneConserves | gleanflow/partition.py:77-84 | The same for one chunk per member. |
| Partition.PackingCap | gleanflow/partition.py:43-74 | Chunk i is a non-empty stretch of the list: its members and its weight are those of the stretch, it weighs at most the target or has one member, and with the next member it would weigh more than the target; the first stretch starts the list and the last ends it. |
| Partition.PackingBound | gleanflow/partition.py:43-74 | k >= 2 chunks of total weight W satisfy (k-1)*target < 2*W. |
| Partition.SingleChunkIff | gleanflow/partition.py:67-74 | There is exactly one chunk if and only if there is a member and all fit one chunk or it is the only one. |
| Partition.PackedIdsDistinct | gleanflow/partition.py:60-62 | Ids made from the prefix and the position never repeat. |
| Names.Pad5Order | gleanflow/store.py:178 | Five-digit names sort as their numbers do. |
| Names.DecInjective | gleanflow/partition.py:61 | Different numbers have different decimal names. |
| Names.DecValue | gleanflow/partition.py:61 | The decimal name of a number is its numeral, without leading zeros. |
| Names.Pad5Value | gleanflow/store.py:178 | The padded name is a numeral of the number of at least five digits. |
| GroupBy.CompileAggs | gleanflow/polars.py:113-144 | The loop compiles exactly when every aggregation is combinable, to the plan of the list; otherwise it names the first that is not. |
| GroupBy.PlanEntry | gleanflow/polars.py:123-143 | Where each aggregation's partial columns and ratio stand in the plan. |
| GroupBy.PlanResolves | gleanflow/polars.py:163-167 | Every ratio and every selected name of a plan finds its column. |
| GroupBy.CombineGroup | gleanflow/polars.py:158-167 | Folding the partial folds of a group over all partitions is the fold over all its rows, for sum, min, max and row count, groups missing from some partitions included. |
| GroupBy.RewritePreserves | gleanflow/polars.py:147-169 | For every partitioning, filter and list of combinable aggregations, reducing the concatenated partials gives the table one group-by over all filtered rows gives; without a partial there is none. |
| GroupBy.AnswersUnique | gleanflow/polars.py:147-169 | Two tables that answer a query over the same bag of rows are equal. |
| GroupBy.RechunkingInvisible | gleanflow/polars.py:147-169 | Two partitionings of the same rows, in any order, reduce to the same table. |
| MapReduce.ReducedTable | gleanflow/polars.py:88-107 | After the map stage ran with any packing, retries, resplits and skips, the reduce gives the answer to the query over the files that were not skipped. |
| MapReduce.RepackedTable | gleanflow/polars.py:88-107 | Two runs over the same files with any two targets and any two histories of resplits reduce to the same table. |
| MapReduce.OneReduceTask | gleanflow/polars.py:106-107 | The reduce stage is one task if and only if there is a partial and it is the only one or the weights total at most 10^15; it then reads all partials in manifest order. |
| MapReduce.FilesReducedOnce | gleanflow/polars.py:106-107 | With non-negative file weights totalling at most 10^15, and whatever was retried, resplit and skipped, the reduce is one task if and only if some file was not skipped. |
| MapReduce.RowsPermuted | gleanflow/polars.py:59-63 | The same files in another order hold the same rows in another order. |
| Store.LocalStore.PutBytes | gleanflow/store.py:64-70 | One atomic update of one key. |
| Store.LocalStore.List | gleanflow/store.py:79-89 | Exactly the keys under the prefix, or inside the directory it names, temporary files left out, in ascending order. |
| Store.ListingUnique | gleanflow/store.py:79-89 | A store and a prefix have one listing. |
| Store.ListedIff | gleanflow/store.py:79-89 | From the keys alone: what is listed begins with the prefix and is no temporary file; everything inside the directory the prefix names is listed but temporary files; and another key with the prefix is left out only when there is such a directory. |
| Store.PartKeyInjective | gleanflow/store.py:178 | Different parts have different keys. |
| Store.PartOrderIff | gleanflow/store.py:178 | The first n part keys are in ascending order if and only if n <= 100000. |
| Store.BlocksLaws | gleanflow/store.py:167-182 | The parts of a stream concatenate to it, none is empty, and all but the last have exactly cap rows. |
| Store.PartWriter.constructor | gleanflow/store.py:158-165 | A writer starts with nothing written and its prefix without trailing slashes. |
| Store.RStripIs | gleanflow/store.py:160 | Stripping takes the trailing slashes and nothing else. |
| Store.PartWriter.Flush | gleanflow/store.py:175-182 | A non-empty buffer becomes the next part in the store, an empty one nothing; what was written stays the same. |
| Store.PartWriter.Append | gleanflow/store.py:171-173 | One record more is written; between records the buffer is shorter than a part. |
| Store.PartWriter.Write | gleanflow/store.py:167-173 | However records are batched, they are appended in order; only this prefix's parts change in the store. |
| Store.PartWriter.Close | gleanflow/store.py:184-186 | All parts of everything written are stored under their names, and their keys are returned in part order. |
| Store.ListingOfParts | gleanflow/store.py:79-89 | A finished chunk is listed in part order if and only if it has at most 100000 parts. |
| Store.OutputRoundTrip | gleanflow/context.py:69-73 | Reading the listed parts of a finished chunk returns the written records in order, whatever an earlier attempt left behind. |
| Store.ReadBackIff | gleanflow/context.py:69-73 | A chunk of distinct records reads back as it was written if and only if it has at most 100000 parts. |
| Context.Ctx.constructor | gleanflow/context.py:20-30 | A fresh context has written nothing. |
| Context.InputIs | gleanflow/context.py:51-73 | A task's input is the concatenation of the records its members' reader yields, or of what is stored under its members, or nothing. |
| Context.Ctx.Input | gleanflow/context.py:51-73 | Returns exactly that: member after member, the reader's records for a source, the listed parts for a stage. |
| Context.Ctx.ReadMember | gleanflow/context.py:70-72 | A member of a stage is read part by part in listing order. |
| Context.Ctx.Write | gleanflow/context.py:84-93 | The first write opens the writer; what was written grows by the records. |
| Context.Ctx.Finalize | gleanflow/context.py:116-119 | The keys of exactly the parts of what was written, all stored; none when nothing was ever written. |
| Context.SeenIff | gleanflow/context.py:69-72 | A part lies under a chunk's listing prefix if and only if its chunk has the same path, or the first path with a slash begins it, whatever the names. |
| Context.ChunksApart | gleanflow/context.py:69-72 | Where no name has a slash that comes down to being the same chunk of the same stage. |
| Context.SlashesMixChunks | gleanflow/context.py:69-72 | With chunk ids a and a/b, the parts of the second are listed with the first. |
| Context.KeySpelled | gleanflow/context.py:41-43 | Part 7 of chunk c of stage s is stored as data/s/c/part-00007, with the extension of its format. |
| Bridge.SubListing | gleanflow/store.py:79-89 | Listing a chunk's prefix in the flat store lists its directory, in the same order. |
| Bridge.ReadsAgree | gleanflow/context.py:69-73 | Reading a chunk out of the flat store is reading its directory. |
| Bridge.FinishedChunk | gleanflow/context.py:116-119 | What a finished context leaves in the store, over whatever lay under its prefix, is the directory the machine's clean execution leaves over that, and it reads back the same. |
| Bridge.SubOfPut | gleanflow/store.py:178-180 | A put of any chunk's part leaves a chunk's directory as it is, unless the part's chunk has the same path or one below it; then it sets that file and no other. |
| Bridge.InputIsRead | gleanflow/context.py:51-73 | What a context's input returns for a task is what the machine's worker reads for its members, one after the other. |
| Bridge.WorkerHasInput | gleanflow/worker.py:53-56 | A worker of the machine that has read all members holds exactly that input, runs the stage function on it, and cuts the output into parts of cap_rows rows, or one. |
| Ckpt.Checkpoint.Restore | gleanflow/ckpt.py:28-38 | The stored model with the most rounds, none when there is no model. |
| Ckpt.Checkpoint.Save | gleanflow/ckpt.py:40-41 | The model is stored under its round count. |
| Ckpt.Checkpoint.Fit | gleanflow/ckpt.py:43-60 | An attempt that returns has the model uninterrupted training has after the larger of the asked and the stored rounds. Exactly which checkpoints it adds: min(first + i*every, rounds) for i = 1, 2, ... up to rounds, or, when it dies, the first life/2 of these; each training step has min(every, rounds left) rounds; it returns if and only if it lives long enough to train and save every block. |
| Ckpt.Checkpoint.FitThroughCrashes | gleanflow/ckpt.py:43-60 | Any number of crashes followed by a completed fit yields the uninterrupted model, trains at most rounds + crashes*every rounds, and leaves in an empty store exactly the checkpoints of an uninterrupted fit. |
| Pipeline.Pipeline.Register | gleanflow/pipeline.py:58-71 | A new name is appended; a known one keeps its place and is replaced. |
| Pipeline.Pipeline.TopoOrder | gleanflow/pipeline.py:77-92 | Without cycles, every stage exactly once, each after the stage it names as what it reads; a stage comes before one registered earlier only if that one, or one registered earlier still, needs it. |
| Pipeline.RegisteredInOrder | gleanflow/pipeline.py:90-92 | Stages registered upstream first run in the order they were registered. |
| Pipeline.Visitor.Visit | gleanflow/pipeline.py:81-88 | The recursive visit ends, puts the stage in the order, and adds only stages above it. |
| Pipeline.DepIff | gleanflow/pipeline.py:84-85 | A stage depends on another exactly when it names it as what it reads. |
| Pipeline.AcyclicIffChainsEnd | gleanflow/pipeline.py:81-88 | The recursion ends from every stage if and only if there is no cycle. |
| Queue.FailCounts | gleanflow/queue/local.py:62-69 | A failure takes its key from the leases to the ready end, or to the dead once the redeliveries are used up; without a lease it makes a copy. Every other key stays in its places, as often, with its counter. |
| Queue.SweepCounts | gleanflow/queue/local.py:28-36 | A sweep loses and duplicates nothing: every key keeps its number of copies, and exactly the unexpired leases remain. |
| Queue.ClaimCounts | gleanflow/queue/local.py:42-50 | A claim keeps the number of copies of every key, except that it merges two copies of a key handed out while its lease still stands. |
| QueueLaws.LeaseExclusivity | gleanflow/queue/local.py:28-74 | Over every disciplined run each enqueued key is in exactly one of ready, in flight, dead and acknowledged; live attempts are at most the limit, dead ones exactly one more. |
| QueueLaws.ExclusiveFromStart | gleanflow/queue/local.py:21-74 | The same over a new queue, for every key ever enqueued. |
| QueueLaws.LeaseRespected | gleanflow/queue/local.py:42-56 | No claim returns a key whose lease, as last extended, has not run out. |
| QueueLaws.StaleFailDuplicates | gleanflow/queue/local.py:62-69 | Without the discipline four operations put one key in two places. |
| QueueLaws.OrderlyIff | gleanflow/queue/local.py:28-74 | From a state with every key in one place an operation leads to such a state if and only if it enqueues a new key, acknowledges one in flight or acknowledged before, fails one in flight or never seen, resets one known and not dead, takes no dead letter, or is a claim, an extension or a sweep. |
| QueueLaws.ExclusiveIffOrderly | gleanflow/queue/local.py:28-74 | A run keeps every key in one place throughout if and only if every operation meets that condition when it happens. |
| QueueLaws.DisciplinedIsOrderly | gleanflow/queue/local.py:28-74 | Every run under the lease discipline meets it. |
| QueueLaws.StepPotential | gleanflow/queue/local.py:28-74 | Every operation pays for the delivery it makes out of the deliveries still possible; only an enqueue or a reset adds to them. |
| QueueLaws.DeliveryBound | gleanflow/queue/local.py:28-74 | Over every run, deliveries and deliveries still possible are at most what was possible at first plus what enqueues and resets added. |
| QueueLaws.DeliveriesWithoutRemediation | gleanflow/queue/local.py:28-74 | From an empty queue, n enqueues are delivered at most n*(max_redeliveries+1) times, stale acks and fails included. |
| QueueLaws.DeliveriesPerTask | gleanflow/queue/local.py:28-74 | Each task by itself: over every run its deliveries are at most the times it is enqueued and the redeliveries it has or is granted again, whatever stale acks and fails come. |
| QueueLaws.DeliveriesOfOne | gleanflow/queue/local.py:28-74 | From a new queue a task enqueued once and never reset is delivered at most max_redeliveries + 1 times. |
| Leases.LeaseHolds | gleanflow/queue/local.py:28-56 | A claim or a heartbeat for a key at `now` with `lease` promises it until now + lease: through any operations that do not acknowledge, fail or enqueue the key and do not sweep past the time granted so far (a further heartbeat grants another), no claim hands the key out, and a sweep then takes it out of flight if and only if it is not before the time granted last. |
| Leases.LeaseEnds | gleanflow/queue/local.py:28-36 | That sweep counts one failure: the key is ready again, or dead when its redeliveries are used up. |
| Counters.CounterCounts | gleanflow/queue/local.py:28-69 | Over every run without a reset a task's counter rises by exactly its failures and expiries, and its dead letters, with those taken, by exactly those past max_redeliveries. |
| Counters.AfterReset | gleanflow/controller.py:299 | After a reset the counter is the number of failures since, and the task dies at failure max_redeliveries + 1, not before. |
| Counters.FirstInFirstOut | gleanflow/queue/local.py:38-69 | What is handed out, followed by what is still ready, begins with what was ready, in order: no task overtakes another. |
| Counters.EnqueuedIsServed | gleanflow/queue/local.py:38-50 | A task enqueued behind n ready ones is handed out by delivery n + 1. |
| Counters.DepthCounts | gleanflow/queue/local.py:71-74 | The depth and the dead letters make up all the queue holds; it is nought just when nothing is ready and no lease stands. |
| LocalQueue.LocalQueue.constructor | gleanflow/queue/local.py:21-26 | A new queue is empty. |
| LocalQueue.LocalQueue.Enqueue | gleanflow/queue/local.py:38-40 | The mutable queue with shared task objects does what the value queue does on enqueue, for a task just made and for one it knows. |
| LocalQueue.LocalQueue.Reset | gleanflow/controller.py:292-302 | Setting the counter of a task object the queue was given to zero is the value queue's reset, so a retry is within the refinement. |
| LocalQueue.LocalQueue.Redeliver | gleanflow/queue/local.py:62-69 | The shared counter goes up and the task goes to the ready end or the dead list, as the value queue says. |
| LocalQueue.LocalQueue.Sweep | gleanflow/queue/local.py:28-36 | The loop over expired leases, in dict order, does what the value queue's sweep does. |
| LocalQueue.LocalQueue.Claim | gleanflow/queue/local.py:42-50 | Refines the value queue's claim, the returned task and its lease, which `Leases.LeaseHolds` ties to the time of the claim, included. |
| LocalQueue.LocalQueue.Extend | gleanflow/queue/local.py:52-56 | Refines the value queue's extend: only a leased key gets a new deadline, and `Leases.LeaseHolds` says until when it then holds. |
| LocalQueue.LocalQueue.Ack | gleanflow/queue/local.py:58-60 | Refines the value queue's ack. |
| LocalQueue.LocalQueue.Fail | gleanflow/queue/local.py:62-69 | Refines the value queue's fail, with or without a lease. |
| LocalQueue.LocalQueue.Depth | gleanflow/queue/local.py:71-74 | Sweeps, then counts ready and leased tasks. |
| LocalQueue.LocalQueue.TakeDead | gleanflow/controller.py:217-220 | Removes the first occurrence of a dead task, and nothing when there is none. |
| Machine.DirOfPut | gleanflow/worker.py:53-67 | Putting part i of a chunk again changes nothing; putting the next part extends what is stored by it. |
| Soundness.ReadOneIs | gleanflow/context.py:69-73 | What a worker reads for a finished member is what that member holds after a clean execution, or held when the run found it finished. |
| Soundness.PutOk | gleanflow/worker.py:53-56 | Every part a worker puts, first or duplicate execution, is the part a clean execution puts there. |
| Soundness.MarkOk | gleanflow/worker.py:57-61 | When a marker is written all parts of the chunk are stored. |
| Soundness.StepOk | gleanflow/worker.py:24-108 | Every step of workers, clock and controller keeps the invariant: chunks found finished are untouched, what was put for any other is a prefix of a clean execution's parts over what was found, marked chunks are complete, the queue holds only tasks whose input is finished. |
| Soundness.RunsAreSound | gleanflow/worker.py:53-67 | The invariant holds in every reachable state, with no lease discipline. |
| Soundness.MarkedChunk | gleanflow/markers.py:29-30 | A marked chunk holds exactly the files of one clean execution over what was found there, or, found finished, the files that were found. |
| Soundness.StepLater | gleanflow/markers.py:37-49 | No step loses a marker, a stored file or a known task. |
| Soundness.OutputStable | gleanflow/controller.py:109-117 | What a task produces is the same in any two registries that do not give one key to two tasks. |
| Tracking.StepSafe | gleanflow/queue/local.py:28-69 | Only the controller's taking a dead letter can bring a chunk closer to being lost; stale acks, stale fails and duplicates cannot. |
| Tracking.NoChunkLost | gleanflow/queue/local.py:28-69 | Once enqueued and until the controller takes it from the dead letters, a key is ready, in flight, dead or marked at every reachable point. |
| Tracking.FinishedIsSkipped | gleanflow/worker.py:27-32 | A task delivered although its chunk has a marker is acknowledged, and nothing is read, run or written for it. |
| Tracking.StepUntouched | gleanflow/worker.py:92-108 | Workers never pick up a chunk that was not enqueued. |
| Tracking.StepUnmarked | gleanflow/worker.py:57-61 | Nor can they finish one. |
| Tracking.StepCopies | gleanflow/queue/local.py:28-69 | Under the lease discipline no worker step makes a second copy of a key. |
| Progress.StepMeasure | gleanflow/queue/local.py:28-69 | A measure never rises while workers work and falls with every claim, ack, failure, crash and expiry. |
| Progress.NothingHeld | gleanflow/controller.py:172-175 | A world with an empty queue and idle workers holds only what was enqueued. |
| Progress.RunSpends | gleanflow/worker.py:92-108 | After any steps of any run, the controller's included, queue and workers hold only what was enqueued; claims, acks, failures, crashes and expiries are at most the measure at the start and three for each delivery the controller made possible; and deliveries are at most what was possible at the start and what it made possible. |
| Progress.RunSpendsOn | gleanflow/controller.py:172-228 | The same over every run of machine and controller, for each task. |
| Attempts.LeaseHoldsInRuns | gleanflow/worker.py:38-49 | In runs of the machine: a worker handed a task has it to itself until the lease of the claim, or of the last heartbeat, is over, as long as nobody reports on it; the first sweep from then on takes it back. |
| Attempts.CounterInRuns | gleanflow/queue/local.py:28-69 | In runs of the machine a counter the controller does not reset rises by exactly the task's failures and expiries, and its dead letters by exactly those past the redeliveries. |
| Attempts.FreshCounter | gleanflow/controller.py:299-300 | A task sent afresh has, when it is enqueued, a counter of exactly its failures since the counter stood at nought. |
| Attempts.FreshDeaths | gleanflow/controller.py:299-300 | From then on, until it is reset again, it gains a dead letter for each failure past max_redeliveries, and for no other. |
| Spending.RoundSpends | gleanflow/controller.py:206-225 | A round over distinct dead tasks makes possible at most the redeliveries of as many tasks as those waited for have shares (two each, two for every member), and what is waited for afterwards has no more shares. |
| Spending.DrainUses | gleanflow/controller.py:193-243 | Over a whole drain under the discipline all that is used up is at most the measure at its start and (rounds + 1) times the shares of its tasks and their redeliveries, three for each. |
| Progress.QuietMeansSettled | gleanflow/controller.py:199-228 | Once nothing is ready and nothing leased, every chunk waited for is marked or dead, so the next poll acts. |
| Interleave.WorkerAdvanced | gleanflow/worker.py:24-108 | What the controller can rely on across any worker step: nothing undone, nothing lost, no dead letter gone, idle chunks still idle. |
| Interleave.EverythingHappens | gleanflow/worker.py:92-108 | Without the discipline every burst of steps of workers and clocks happens as it is, so scripts cover every interleaving. |
| Planning.PieceIdsUnique | gleanflow/controller.py:315-316 | The id of a piece names its parent and its place and is no packed id: c<i> and c<i>-m<j> never collide. |
| Planning.SharedChunksAreNumbered | gleanflow/controller.py:93-100 | When a planned chunk has several members, every id of the plan is a packed id. |
| Planning.PlanIdsDistinct | gleanflow/controller.py:93-107 | Over distinct upstream ids a plan has distinct ids, packed or not. |
| Planning.MembersAreUpstream | gleanflow/controller.py:109-117 | Every member of a planned chunk is one of the upstream chunks. |
| Planning.PlanConserves | gleanflow/controller.py:90-100 | A plan holds exactly the upstream chunks in order, and their weight. |
| Planning.PlanPacks | gleanflow/controller.py:95-97 | With a positive target, target_rows when it is given and else target_bytes, chunk i of a plan is a stretch of the upstream with its members and weight and the id c<i>, within the target or a single member, and overflowing it with the next; the stretches cover the upstream. |
| Planning.PlanDetermined | gleanflow/controller.py:95-97 | With non-negative weights any blocks with these properties are the plan. |
| Planning.PlanKeeps | gleanflow/controller.py:98-100 | Without a positive target a plan has one chunk per upstream chunk, with its id, its reference and its weight. |
| Planning.SixFilesInPairs | tests/test_polars.py:70-85 | Six files of weight one and a target of two bytes make three chunks of two. |
| Planning.PlanOfNothing | gleanflow/controller.py:79-117 | A stage without reads has exactly one chunk, of weight one and without members: `all`, or c0 when the stage gives a target. |
| Planning.HeaviestFirstStable | gleanflow/partition.py:34-35 | Tasks of equal weight keep their order. |
| Planning.HeaviestFirstLaws | gleanflow/partition.py:34-35 | The same tasks, by descending weight. |
| Remediation.PiecesBalance | gleanflow/controller.py:313-320 | All pieces of a task together have its members and its weight. |
| Remediation.PiecesShare | gleanflow/controller.py:313-320 | Piece j has member j alone, an equal share of the weight, and the id of its parent with -m<j>. |
| Remediation.SkipConserves | gleanflow/controller.py:331-340 | Skipping takes exactly the chunk's members and weight out of what the manifest stands for. |
| Remediation.ResplitConserves | gleanflow/controller.py:304-340 | Resplitting leaves the members and the weight the manifest stands for, and its ids distinct. |
| Remediation.ResplitConservesIff | gleanflow/controller.py:304-340 | It does so if and only if the manifest still names the chunk; otherwise the chunk's members come in once more. |
| Remediation.ResplitNoPieces | gleanflow/controller.py:315-324 | Afterwards the manifest still names no piece beside its parent. |
| Books.RetryBooks | gleanflow/controller.py:292-302 | A retried dead letter leaves the books as they are, and is in two places only until the old one is taken. |
| Books.ResplitBooks | gleanflow/controller.py:304-329 | The books balance after a resplit, and no piece of a chunk still named whole has been enqueued. |
| Books.SkipBooks | gleanflow/controller.py:331-334 | The books balance after a skip, less the skipped members and weight. |
| Books.PiecesAreNotDead | gleanflow/controller.py:213-224 | A piece enqueued in a round is none of the dead letters the round still removes. |
| Books.RoundSafe | gleanflow/controller.py:214-224 | What is waited for after a round stays safe although the old dead letters go. |
| Books.RoundEnds | gleanflow/controller.py:206-225 | A finished round leaves the drain in order: all waited-for chunks known and not lost, all named chunks covered, chunks held back untouched. |
| Staging.PlannedReads | gleanflow/controller.py:79-117 | Everything a planned task reads is known and finished. |
| Staging.PlanConsistent | gleanflow/controller.py:93-117 | Over an upstream that may name a chunk more than once, planned chunks of one id are one chunk. |
| Staging.PlanHasNoPieces | gleanflow/controller.py:315-316 | No planned chunk has the id of another's piece. |
| Staging.PlanFollowed | gleanflow/controller.py:109-117 | All the tasks a stage ever knows are planned ones and pieces of planned ones. |
| Staging.PlanDraining | gleanflow/controller.py:90-118 | After planning, all chunks are held back and the books show exactly what the stage was planned over. |
| Staging.EnqueuedDraining | gleanflow/controller.py:175-191 | Chunks that are enqueued are waited for from then on, and the books still balance. |
| Staging.PendingKeeps | gleanflow/controller.py:165-175 | The chunks to run are exactly those without a marker, heaviest first. |
| Controller.Controller.constructor | gleanflow/controller.py:36-55 | A controller starts over a sound world in which all that is held was enqueued, with nothing enqueued by itself. |
| Controller.Controller.Yield | gleanflow/controller.py:197-239 | The next burst is played in full: exactly its admissible steps happen, in order, and the world only advances. |
| Controller.Controller.Retry | gleanflow/controller.py:292-302 | The task is sent afresh: its counter stands at nought and is not touched by the controller until the task is enqueued; it is then safe even without its dead letter. |
| Controller.Controller.Retried | gleanflow/controller.py:299-300 | In the run of a controller, a task sent afresh has a counter of exactly its failures since, and dies again exactly when they exceed max_redeliveries. |
| Controller.Controller.EnqueueAll | gleanflow/controller.py:183-187 | Exactly the given tasks are enqueued, in the given order, while the workers go on, and none of them is lost. |
| Controller.Controller.ManifestReplace | gleanflow/controller.py:336-340 | The old entry goes and its replacements are appended. |
| Controller.Controller.ResplitTask | gleanflow/controller.py:304-329 | A task of several members is replaced by its pieces in manifest and queue; one with at most one member is retried. A task retried instead is sent afresh. |
| Controller.Controller.SkipTask | gleanflow/controller.py:331-334 | The manifest forgets the chunk and the books write it off. |
| Controller.Controller.Remedy | gleanflow/controller.py:259-269 | One answer of the handler is carried out: exactly the steps, manifest and new tasks of that remedy; an unknown action does nothing. A task whose answer comes to a retry is sent afresh. |
| Controller.Controller.TreatNext | gleanflow/controller.py:253-269 | One dead task is remedied if and only if policy, budget and the next answer allow it. |
| Controller.Controller.HandleFailures | gleanflow/controller.py:246-271 | A round deals with every dead task, each as answered and over the manifest the ones before left, if and only if the policy is remediate, there is budget and all answers are remedies; other policies change nothing. Every dead task whose answer comes to a retry is sent afresh. |
| Controller.Controller.RemoveDead | gleanflow/controller.py:215-222 | The dead letters of the round are taken and every chunk waited for stays safe. |
| Controller.Controller.Round | gleanflow/controller.py:206-225 | After a round that does not give up, the drain is in order again: exactly the answered steps, then the dead letters taken, and the new tasks in place of the dead; chunks held back were not enqueued. All retried tasks were sent afresh. |
| Trace.OneMoreAnswer | gleanflow/controller.py:253-269 | A round's steps, manifest and new tasks are those of its dead tasks one after the other. |
| Trace.RoundIsOver | gleanflow/controller.py:206-225 | Once its dead letters are taken, a round leaves the drain in order and the books balanced. |
| Controller.Controller.AllMarked | gleanflow/controller.py:227-229 | All active tasks were seen marked, looked up one by one while the workers went on. |
| Controller.Controller.PollOnce | gleanflow/controller.py:197-229 | One turn is what the poll saw: a round of remedies when there are dead letters that can all be remedied, giving up when they cannot, finished when all is marked, and otherwise nothing. A turn that goes on lowers the budget, or else the measure whenever anything happened. After a round all retried tasks were sent afresh. |
| Controller.Controller.Drain | gleanflow/controller.py:193-243 | A normal return means every chunk the manifest names is finished, except those held back; at most max_remediations rounds; it fails only at the deadline or when dead letters cannot be remedied with the budget left, as SmokeFailed at the gate. All that is used up is paid for by the measure at its start and the controller's steps, which under the discipline add the deliveries of (rounds + 1) rounds at most. It is its turns, one after the other from the given tasks and the whole budget, each what its poll saw; a turn without a round lets at most one burst go by and one for each marker it looks up, and the deadline comes only when all bursts have gone by in such turns. |
| Planning.Cut | gleanflow/controller.py:93-100 | The chunks are those of the plan the stage's targets ask for, which `Planning.PlanPacks` and `Planning.PlanKeeps` describe. |
| Controller.Controller.Plan | gleanflow/controller.py:90-118 | The manifest and the tasks of the plan exist and nothing else changed; the books open on what the stage was planned over. |
| Controller.Controller.LookUp | gleanflow/controller.py:165-170 | Exactly the tasks that had no marker when the stage began. |
| Controller.Controller.SmokeTest | gleanflow/controller.py:175-182 | The first pending chunk runs alone: no other is enqueued before it, or all that replaced it, is finished, and if the gate raises none is. What it comes to is what a drain of that task comes to. |
| Controller.Controller.FanOut | gleanflow/controller.py:183-191 | All that is left is enqueued and waited for. What it comes to is what a drain of those tasks comes to. |
| Controller.Controller.RunGated | gleanflow/controller.py:175-191 | The smoke gate over the whole run: before fan-out nothing else was enqueued, and at fan-out everything else the manifest names was finished. |
| Controller.Controller.RunPending | gleanflow/controller.py:175-191 | The gate applies with smoke on and at least two pending chunks; without remedies exactly the pending tasks are enqueued, heaviest first. |
| Controller.Controller.RunStage | gleanflow/controller.py:161-191 | The stage barrier: on a normal return every manifest id has a marker, with smoke gate, chunks found finished, retries, resplits and skips, and whether or not the upstream manifest names a chunk twice; the gated chunk has maximal weight; members and weight are conserved; the stage's tasks are the planned ones and pieces of them; without remedies only unmarked chunks are enqueued. |
| Controller.Controller.Run | gleanflow/controller.py:138-155 | Over any store, with remedies or without and with no lease discipline, a normal return leaves every stage complete; without remedies as planned, no chunk marked at the start was enqueued, and deliveries are at most the planned chunks without a marker times (max_redeliveries + 1); with them, under the discipline, every manifest stands for what its stage was planned over less what was skipped. |
| Controller.Resume | gleanflow/controller.py:161-191 | A run, remedied or not, cut off after any step and restarted over the store ends, if it completes and the first run gave no planned key to another task, with the files of any other completed run; it never enqueues a chunk marked at the restart and delivers at most the others times (max_redeliveries + 1). It fails only for a reason. |
| Reference.PlanIsStatic | gleanflow/controller.py:79-100 | Without remedies the plan made from the stored manifests is the one the stages alone determine. |
| Reference.StageWasRun | gleanflow/controller.py:138-143 | What holds after some stages holds after one more. |
| Reference.StayConserved | gleanflow/controller.py:336-340 | Later stages do not disturb the conservation of earlier ones. |
| Reference.SameOutputs | gleanflow/controller.py:138-155 | Schedule independence: any two completed runs without remedies over the same store hold the same finished chunks with the same files. |
| Reference.SequentialAgrees | gleanflow/controller.py:138-143 | A chunk-by-chunk evaluation of the DAG, without store, parts or tasks, computes what the tasks' outputs are. |
| Restart.MatchesSequential | gleanflow/controller.py:138-155 | A completed run, over an empty store or any that fits, holds under every planned chunk the parts of the records of that evaluation, and they read back as those records. |
| Restart.StageOfNothing | gleanflow/controller.py:81-82 | After a completed run over a store that fits, the one chunk of a stage without reads is in the manifest, finished, and holds the parts of what the stage writes on no input. |
| Restart.FreshSound | gleanflow/controller.py:138-143 | A run may begin over any store, whatever state of whatever run left it. |
| Restart.CleanIff | gleanflow/controller.py:161-170 | A run over any store leaves every planned chunk as a run over an empty one would, if and only if what was found suits every planned task: the same files where there is a marker, and elsewhere no file but those the task writes. |
| Restart.HeldOver | gleanflow/controller.py:161-170 | Where an earlier run, remedied or not and cut off anywhere, gave no key of the plan to another task, starting over what it left is as good as starting over what it found. |
| Restart.RestartIff | gleanflow/controller.py:161-170 | After any first run over an empty store, a completed restart is right if and only if every planned key that had a marker had belonged to a task with the same output, and no other had got more parts than the planned task makes. |
| Restart.AgreeSuits | gleanflow/controller.py:161-170 | That is so when no planned key was given to another task. |
| Restart.StaticAgrees | gleanflow/controller.py:138-143 | A run without remedies gives no planned key to another task. |
| Restart.RestartSame | gleanflow/controller.py:161-191 | Then a completed restart holds the files of any completed run over the first store. |
| StaleMarkers.StaleAfterSkip | gleanflow/partition.py:58-62 | A concrete pair of runs: the first skips a dead chunk and packs the other alone; the second completes with all stages as planned, and the packed chunk, which has the same id and a marker, still holds one file where the evaluation gives two. |
| StaleMarkers.TurnSkips | gleanflow/controller.py:331-334 | In that run, the turn that finds the dead chunk and is told to skip it forgets it, takes the dead letter, and waits for the other chunk alone. |
| StaleFailures.StaleFailureDoubles | gleanflow/controller.py:304-340 | A concrete run without the lease discipline: a stale failure makes one task two dead letters, and a round that resplits both names every piece twice. |
| StaleFailures.CapIsOnRounds | gleanflow/controller.py:197-225 | A concrete run: with max_remediations of one, one turn retries two dead chunks. |
| Restart.CutOffAgrees | gleanflow/controller.py:161-191 | A run may be cut off after any of its steps: if it gave no planned key to another task by its end, it had not then. |

## Left out

- `force=True`: the drain cannot tell an old marker from a new one, so completion claims do not carry over.
- `SqsQueue`, `BatchFleet`, `S3Store`, the container entry point and Terraform: foreign services; the SQS queue has no dead-letter list for the failure path.
- The failure agent, its prompts and tools, and the CLI: the handler is an arbitrary list of answers.
- Web server, dashboard, webhooks, `Monitor`, `Tracker` and the failure and running markers: they observe and decide nothing.
- Fleet sizing, stage resources and the memory-doubling heuristic: one-line arithmetic.
- Real time: lease expiry is an arbitrary clock value in a step, the deadline is the length of the script.
- JSON and Parquet encodings and the shared temporary file of `put_bytes`: an object is the list of records it decodes to, a put is atomic.
- Custom `partition` hooks, `chunk_by`, `write_bytes`, `write_model` and `aux`: user code outside `input` and `write`.
- A source without chunks or enumerator and a missing upstream manifest: the errors they raise end the run before any task exists.
- Resplitting a reduce stage, and the extra parameters a resplit drops: packed stages have none, and splitting a reduce changes its meaning.
- Null values in `mean`: the source divides by the number of rows, so columns have no nulls.
- LocalQueue.LocalQueue.Enqueue: takes one task object per key. A piece made twice, as after a stale failure is resplit twice, is a second object with a counter of its own in the source; the model has one counter per key.
- Restart.MatchesSequential: asks that no chunk make more than 100000 parts; beyond that the reader's order is not the writer's.
- Spending.DrainUses: asks for the lease discipline, without which the dead letters of one round are not bounded by the tasks waited for; `Progress.RunSpends` bounds such a drain by the steps the controller takes.
- Restart.RestartIff: compares the files of planned chunks with those of a run over an empty store. A file that no planned chunk owns, left by an earlier plan, stays where it is and is read by nobody.

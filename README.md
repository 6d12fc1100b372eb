# GraphChi platform driver and PageRank operator, modelled in Dafny

This project models two parts of Rheem's GraphChi platform binding.

**The stage driver of `GraphChiExecutor`.** `execute(stage, …)` runs one execution stage as a worklist loop:
- the loop seeds a FIFO queue with the stage's start tasks;
- it pops a task and skips it if it was executed before;
- otherwise it executes the task, marks it executed, and appends every consumer of the task's output channels that belongs to the same stage.

The private `execute(task, …)` runs one task:
- it resolves each input channel to its instance in the execution state;
- it creates one output instance per output index;
- it calls the operator between two clock readings;
- it registers the non-null output instances;
- it appends one partial-execution record, holding the lineage nodes and the elapsed time.

**The contract logic of `GraphChiPageRankOperator`.** This covers:
- the shard count, computed from the input file size with Java's `int` cast and truncating division;
- the choice between sharding and reusing existing shards;
- the arity assertions and the `(HdfsFile)` casts of `execute`;
- how exceptions surface from the run;
- the supported-channel declarations.

Modules:

- `TaskGraph` (task_graph.dfy) defines the task graph:
  - tasks and channels are ids, and a plan maps each task to its stage and its channels;
  - `Enqueued` is the flattened, stage-filtered list of consumers that the loop appends;
  - reachability is defined along those edges.
- `Worklist` (worklist.dfy) defines `Schedule`, the order in which the loop executes tasks. It also holds the loop's properties: each task at most once, coverage of exactly the reachable tasks, at least one producer before each consumer, and a bound on the number of tasks run.
- `Execution` (execution.dfy) holds the per-task step:
  - `StepTask` works on a snapshot of the execution state;
  - `Run` folds `StepTask` over an execution order;
  - `ExecutionState` is the mutable store the driver writes through `register` and `add`.
- `GraphChiExecutor` (graphchi_executor.dfy) holds the two `execute` methods, and one method for each of the three loops of `execute(task, …)`. Each is proved against the functions above.
- `Scenarios` (scenarios.dfy) works through three concrete stages:
  - a chain;
  - a diamond, where the consumer is queued after its first producer;
  - a graph where a consumer runs before one of its producers. With every operator succeeding, this stage aborts with a missing input.
- `JavaInt` (java_int.dfy) models the narrowing of a `long` to an `int`, Java's truncating `/`, and the `long` type with its wrapping subtraction, used for the elapsed time `endTime - startTime`.
- `GraphChiPageRank` (pagerank_operator.dfy) models the PageRank operator. The GraphChi engine and the file systems are an abstract environment: each external call either returns or raises a given throwable.

Modelling choices:

- **Missing inputs.** When an input channel has no registered instance, the task fails with `MissingInput(task, channel)` before the operator is called, and the state is left unchanged. `getChannelInstance` belongs to the host framework, which this model does not include, so this explicit error result is the choice made here.
- **The operator.** It is a total function of the task id, the input instances and the created output instances. It returns either `Done(lineage, outputSlots, produced)` or `Failed(reason)`. `outputSlots` is the output array as the operator leaves it: `None` stands for a nulled slot, and a slot beyond its length keeps the instance the driver created. A failure aborts the stage, which models the exception propagating out of the loop.
- **The driver's view of the operator.** The driver calls `GraphChiExecutionOperator.execute(inputs, outputs, context)` and uses the returned tuple, so the driver's operator has that interface. The PageRank class is modelled on its own, with its `execute(Channel[], Channel[])` signature and its thrown exceptions.
- **The clock.** It is a function from reading number to a 64-bit `long`: the k-th task executed in one stage reads `clock(2k)` and `clock(2k + 1)`. The elapsed time is their difference with Java's `long` wrap-around. Nothing is claimed about its sign, because a wall clock is not monotone.
- **PageRank's `execute`.** It is modelled with Java assertions enabled. A wrong number of channels gives `AssertionError`, and a channel that is neither an `HdfsFile` nor null gives `ClassCastException`. A null channel passes the cast, and its first dereference, `getSinglePath()` while its file system is opened, raises `NullPointerException`.

## Model

| member | source | states |
|---|---|---|
| GraphChiExecutor.ExecuteStage | src/main/java/io/rheem/graphchi/execution/GraphChiExecutor.java:44-58 | The loop, with its FIFO queue and executed set, ends in exactly the state and outcome of running the tasks of `ExecutionOrder` in order. The k-th task reads clock readings 2k and 2k+1. The run stops at the first failing task. |
| GraphChiExecutor.ExecuteTask | src/main/java/io/rheem/graphchi/execution/GraphChiExecutor.java:63-93 | One task succeeds exactly when `StepTask` does, and then the new state is StepTask's. On failure it returns StepTask's error and leaves the state unchanged. |
| GraphChiExecutor.CollectInputInstances | src/main/java/io/rheem/graphchi/execution/GraphChiExecutor.java:66-69 | The input loop yields the registered instance of every input channel, in order, exactly as `ResolveInputs` does. When a channel has no instance, it reports the first such channel. |
| GraphChiExecutor.CreateOutputInstances | src/main/java/io/rheem/graphchi/execution/GraphChiExecutor.java:71-74 | The output loop creates exactly `CreatedOutputs`: one instance per output channel, carrying its index. |
| GraphChiExecutor.RegisterOutputInstances | src/main/java/io/rheem/graphchi/execution/GraphChiExecutor.java:84-88 | The registration loop leaves the instances as `RegisterAll` of the slots in index order, and leaves the log unchanged. |
| GraphChiExecutor.RunSkipsExecuted | src/main/java/io/rheem/graphchi/execution/GraphChiExecutor.java:49-50 | An unfolding step of Run over Schedule, used by the ExecuteStage loop proof: popping a task that was already executed changes nothing about the rest of the run. |
| GraphChiExecutor.RunNextTask | src/main/java/io/rheem/graphchi/execution/GraphChiExecutor.java:49-56 | Popping a fresh task runs it first. If it fails, the stage aborts with its error. Otherwise the run continues from the queue extended with its same-stage consumers, with the task marked executed. |
| TaskGraph.FlatConsumers | src/main/java/io/rheem/graphchi/execution/GraphChiExecutor.java:53-54 | A task is in the flattened list exactly when it consumes one of the given channels. |
| TaskGraph.ConsumersOf | src/main/java/io/rheem/graphchi/execution/GraphChiExecutor.java:54 | No ensures of its own: it is `channel.getConsumers()`. The choice made here is that a channel missing from the plan's consumer map has no consumers. FlatConsumers characterises the lists built from it. |
| TaskGraph.InStage | src/main/java/io/rheem/graphchi/execution/GraphChiExecutor.java:55 | No ensures of its own: it is the test `consumer.getStage() == stage`. The choice made here is that a task id outside the plan counts as outside every stage. SameStage and Enqueued state what the filter keeps. |
| TaskGraph.SameStage | src/main/java/io/rheem/graphchi/execution/GraphChiExecutor.java:55 | The filter keeps exactly the listed tasks that belong to the stage, and adds none. |
| TaskGraph.Enqueued | src/main/java/io/rheem/graphchi/execution/GraphChiExecutor.java:53-56 | A task is appended after `t` exactly when it is a same-stage consumer of one of `t`'s output channels. Every appended task belongs to the stage. |
| Worklist.Schedule | src/main/java/io/rheem/graphchi/execution/GraphChiExecutor.java:45-57 | The loop terminates: the measure is the set of not-yet-executed tasks, then the queue length. Every task it executes is a task of the plan. |
| Worklist.ExecutionOrder | src/main/java/io/rheem/graphchi/execution/GraphChiExecutor.java:45-57 | No ensures of its own: it is `Schedule` seeded with the stage's start tasks and nothing executed. ExecutedIsReachable, ExecutedAfterSomeProducer, ExecutionOrderBounded and ExecuteStage characterise it. |
| Worklist.ScheduleRunsEachOnce | src/main/java/io/rheem/graphchi/execution/GraphChiExecutor.java:48-52 | At most once: the order has no duplicates and contains no task that was executed earlier. |
| Worklist.ScheduleFresh | src/main/java/io/rheem/graphchi/execution/GraphChiExecutor.java:51-56 | A one-step unfolding of Schedule, used by the scenarios: a fresh task at the head of the queue is executed next, and its consumers are appended to the queue. |
| Worklist.ScheduleSkip | src/main/java/io/rheem/graphchi/execution/GraphChiExecutor.java:49-50 | A one-step unfolding of Schedule, used by the scenarios: a task at the head of the queue that was executed before is dropped. |
| Worklist.ScheduleExtendsProducers | src/main/java/io/rheem/graphchi/execution/GraphChiExecutor.java:51-56 | Every executed task was either in the initial queue or appended by a task executed before it. |
| Worklist.ScheduleCovers | src/main/java/io/rheem/graphchi/execution/GraphChiExecutor.java:45-57 | When the queue runs empty, every queued task has been executed, and so has every same-stage consumer of every executed task. |
| Worklist.ExecutedIsReachable | src/main/java/io/rheem/graphchi/execution/GraphChiExecutor.java:45-57 | On normal termination, a task is executed if and only if it is reachable from a start task along same-stage consumer edges. Every start task is executed. |
| Worklist.PrefixReachable | src/main/java/io/rheem/graphchi/execution/GraphChiExecutor.java:45-57 | Every task of an order built only from start tasks and tasks appended by earlier ones is reachable. |
| Worklist.ExecutedAfterSomeProducer | src/main/java/io/rheem/graphchi/execution/GraphChiExecutor.java:49-56 | Every executed task is a start task, or an earlier-executed task has it as a same-stage consumer of an output channel. Every executed task is a start task or belongs to the stage. |
| Worklist.ExecutionOrderBounded | src/main/java/io/rheem/graphchi/execution/GraphChiExecutor.java:45-57 | One call executes at most as many tasks as the plan contains. |
| Execution.ResolveInputs | src/main/java/io/rheem/graphchi/execution/GraphChiExecutor.java:66-69 | Resolution succeeds exactly when every input channel is registered. It then yields one instance per input channel, entry i being the registered instance of channel i. Otherwise it names the first unregistered channel. |
| Execution.CreatedOutputs | src/main/java/io/rheem/graphchi/execution/GraphChiExecutor.java:71-74 | There is one created instance per output channel, and entry i belongs to output channel i, with producer `t` and output index i. |
| Execution.CreateInstance | src/main/java/io/rheem/graphchi/execution/GraphChiExecutor.java:73 | No ensures of its own: it is `createInstance(this, operatorContext, i)`. The choice made here is that an instance is the value (channel, producing task, output index), the task id standing for the operator context. CreatedOutputs states what the output loop builds from it. |
| Execution.SlotsAfterCall | src/main/java/io/rheem/graphchi/execution/GraphChiExecutor.java:77-78 | The output array after the operator returned has one slot per created output instance. Entry i is what the operator left in slot i. A slot the operator did not touch keeps the created instance. |
| Execution.Register | src/main/java/io/rheem/graphchi/execution/GraphChiExecutor.java:86 | No ensures of its own: it is `executionState.register(instance)` on a snapshot. The choice made here is that registration is keyed by the instance's channel and the last write wins. RegisterAll folds it over the slots, RegisterAllGains characterises the result, and ExecutionState.Register updates the mutable store the same way. |
| Execution.RegisterAll | src/main/java/io/rheem/graphchi/execution/GraphChiExecutor.java:84-88 | No ensures of its own: it registers the non-null slots in index order. RegisterAllGains characterises it, and RegisterAllExtend gives its one-slot step. |
| Execution.StepTask | src/main/java/io/rheem/graphchi/execution/GraphChiExecutor.java:63-93 | No ensures of its own: it is the effect of `execute(task, …)` on a snapshot. TaskBookkeeping and StepTaskAppendsOne characterise it, and ExecuteTask is proved against it. |
| Execution.Elapsed | src/main/java/io/rheem/graphchi/execution/GraphChiExecutor.java:76-79 | No ensures of its own: it is the `long` difference of the k-th task's two clock readings. LongSub characterises the difference, and RunLogGrows ties it to the log. |
| Execution.Run | src/main/java/io/rheem/graphchi/execution/GraphChiExecutor.java:45-57 | No ensures of its own: it folds StepTask over an execution order and stops at the first error. RunAppendsOnePerTask, RunLogGrows and RunCountsTasks characterise it, and ExecuteStage is proved against it. |
| Execution.RegisterAllGains | src/main/java/io/rheem/graphchi/execution/GraphChiExecutor.java:84-88 | Registering the slots in index order gains exactly the channels of the non-null slots. A channel ends with the instance of its last non-null slot, and channels no slot mentions keep their instance. |
| Execution.RegisterAllExtend | src/main/java/io/rheem/graphchi/execution/GraphChiExecutor.java:84-88 | A one-step unfolding of RegisterAll, used by the RegisterOutputInstances loop proof: registering one more slot extends the registration of the slots before it. |
| Execution.TaskBookkeeping | src/main/java/io/rheem/graphchi/execution/GraphChiExecutor.java:66-91 | A task fails with MissingInput, before the operator runs, exactly when an input is unregistered, and the error names the first such input. Otherwise the operator sees the resolved inputs and the created outputs. A Failed result aborts the stage. On success the state gains exactly the non-null output slots and one partial execution, holding the lineage and `endTime - startTime` as a `long` difference. |
| Execution.StepTaskAppendsOne | src/main/java/io/rheem/graphchi/execution/GraphChiExecutor.java:90-91 | A successful task appends exactly one record, whose elapsed time is `endTime - startTime` as a `long` difference. Every error names the task. |
| Execution.RunAppendsOnePerTask | src/main/java/io/rheem/graphchi/execution/GraphChiExecutor.java:76-91 | The partial-execution log keeps its prefix and grows by one record per executed task, in execution order. The i-th new record holds task i's clock difference. A completed run appended one record per task. An aborted run names the task at which it stopped and appended one record for each task before it. |
| Execution.RunLogGrows | src/main/java/io/rheem/graphchi/execution/GraphChiExecutor.java:76-91 | Running an order keeps the log's prefix. The i-th new record holds the clock difference of the i-th task run. |
| Execution.RunCountsTasks | src/main/java/io/rheem/graphchi/execution/GraphChiExecutor.java:76-91 | A completed run appends one record per task of the order. An aborted run appends one record per task before the one it names, and that task is the next one of the order. |
| Execution.ElapsedCons | src/main/java/io/rheem/graphchi/execution/GraphChiExecutor.java:76-79 | Putting the k-th task's record in front of the records of the following tasks keeps the elapsed-time correspondence. |
| Execution.ExecutionState.GetChannelInstance | src/main/java/io/rheem/graphchi/execution/GraphChiExecutor.java:68 | A lookup finds an instance exactly when the channel is registered, and then returns the registered instance. |
| Execution.ExecutionState.Register | src/main/java/io/rheem/graphchi/execution/GraphChiExecutor.java:86 | Registering makes the instance the one of its channel and leaves the log alone. |
| Execution.ExecutionState.Add | src/main/java/io/rheem/graphchi/execution/GraphChiExecutor.java:91 | Adding appends the record to the log and leaves the instances alone. |
| Scenarios.ChainRunsInOrder | src/main/java/io/rheem/graphchi/execution/GraphChiExecutor.java:45-57 | A chain T1 -> T2 -> T3 executes in the order [1, 2, 3]. |
| Scenarios.ChainRunAppendsThree | src/main/java/io/rheem/graphchi/execution/GraphChiExecutor.java:63-93 | With an always-succeeding operator, the chain completes with three partial executions. |
| Scenarios.DiamondPlanHasDiamondEdges | src/main/java/io/rheem/graphchi/execution/GraphChiExecutor.java:53-56 | In the diamond T1 -> {T2, T3} -> T4, T1 enqueues [2, 3], T2 and T3 each enqueue [4], and T4 enqueues nothing. |
| Scenarios.DiamondQueuesConsumerAfterFirstProducer | src/main/java/io/rheem/graphchi/execution/GraphChiExecutor.java:48-56 | In the diamond, T4 is queued as soon as T2 has run and T3 has not. Its second queue entry is skipped. It runs after both producers only because T3 was queued first, giving the order [1, 2, 3, 4]. |
| Scenarios.SkewedPlanHasSkewedEdges | src/main/java/io/rheem/graphchi/execution/GraphChiExecutor.java:53-56 | In the skewed plan, T5 has T4 as a same-stage consumer, and the consumer lists of all five tasks are as drawn. |
| Scenarios.ConsumerRunsBeforeProducer | src/main/java/io/rheem/graphchi/execution/GraphChiExecutor.java:48-56 | Readiness is never checked: T4 executes at position 3, before its same-stage producer T5, giving the order [1, 2, 3, 4, 5]. |
| Scenarios.ConsumerBeforeProducerMissesInput | src/main/java/io/rheem/graphchi/execution/GraphChiExecutor.java:66-69 | In that order, with an always-succeeding operator, the stage aborts at T4 with MissingInput for channel 25, after three partial executions. |
| Scenarios.SucceedsRegistersOutputs | src/main/java/io/rheem/graphchi/execution/GraphChiExecutor.java:84-91 | When the operator leaves the created outputs in place, a task whose inputs are registered registers exactly its output channels and logs one record. |
| Scenarios.SecondInputMissing | src/main/java/io/rheem/graphchi/execution/GraphChiExecutor.java:66-69 | A task whose first input is registered and whose second is not fails with MissingInput for the second. |
| JavaInt.LongToInt | src/main/java/org/qcri/rheem/graphchi/operators/GraphChiPageRankOperator.java:67 | The `(int)` cast of a `long` yields the unique 32-bit value congruent to it modulo 2^32. It is the identity on values that already fit in an `int`. |
| JavaInt.JavaDiv | src/main/java/org/qcri/rheem/graphchi/operators/GraphChiPageRankOperator.java:67 | Java's `/` truncates toward zero: the remainder is smaller than the divisor in magnitude and never has the opposite sign of the dividend. |
| JavaInt.LongSub | src/main/java/io/rheem/graphchi/execution/GraphChiExecutor.java:90 | `endTime - startTime` on `long`: the unique 64-bit value congruent to the exact difference modulo 2^64. It is the exact difference whenever that fits in a `long`. |
| GraphChiPageRank.NumShards | src/main/java/org/qcri/rheem/graphchi/operators/GraphChiPageRankOperator.java:67 | `numShards - 2` is the truncated quotient of the 32-bit truncation of the file size by 10^7, with the bounds that implies. The count always lies in [-212, 216]. |
| GraphChiPageRank.NumShardsOfIntSize | src/main/java/org/qcri/rheem/graphchi/operators/GraphChiPageRankOperator.java:66-67 | For sizes from 0 to 2^31 - 1 there are at least two shards, plus one for every full 10^7 bytes. |
| GraphChiPageRank.TwoShardsExactlyForSmallSizes | src/main/java/org/qcri/rheem/graphchi/operators/GraphChiPageRankOperator.java:67 | The count is 2 if and only if the truncated size lies strictly between -10^7 and 10^7. |
| GraphChiPageRank.SmallFilesGetTwoShards | src/main/java/org/qcri/rheem/graphchi/operators/GraphChiPageRankOperator.java:67 | Files smaller than 10^7 bytes get two shards. |
| GraphChiPageRank.NumShardsMonotone | src/main/java/org/qcri/rheem/graphchi/operators/GraphChiPageRankOperator.java:67 | On sizes from 0 to 2^31 - 1, a larger file never gets fewer shards. |
| GraphChiPageRank.NumShardsPeriodic | src/main/java/org/qcri/rheem/graphchi/operators/GraphChiPageRankOperator.java:67 | The count depends only on the size modulo 2^32, because the cast discards the high bits. |
| GraphChiPageRank.CastBeforeDivideGoesNegative | src/main/java/org/qcri/rheem/graphchi/operators/GraphChiPageRankOperator.java:67 | Because the cast happens before the division, a 2^31-byte file gets -212 shards, and every size from 2^31 to 2^32 - 10^7 gets fewer than two. |
| GraphChiPageRank.SupportedInputChannels | src/main/java/org/qcri/rheem/graphchi/operators/GraphChiPageRankOperator.java:139-141 | For every index, the supported input channels are the one-element list whose only member is HdfsFile. |
| GraphChiPageRank.SupportedOutputChannels | src/main/java/org/qcri/rheem/graphchi/operators/GraphChiPageRankOperator.java:144-146 | For every index, the supported output channels are the one-element list whose only member is HdfsFile. |
| GraphChiPageRank.SupportedChannelsMatchCasts | src/main/java/org/qcri/rheem/graphchi/operators/GraphChiPageRankOperator.java:49-50 | The `(HdfsFile)` cast in `execute` accepts the declared supported channel of either slot and, besides it, only null, at every index. Input and output support agree. |
| GraphChiPageRank.CastsToHdfsFile | src/main/java/org/qcri/rheem/graphchi/operators/GraphChiPageRankOperator.java:49-50 | No ensures of its own: it is Java's reference cast `(HdfsFile) c`, which succeeds on an HdfsFile (or a subclass) and on null and fails on any other channel. SupportedChannelsMatchCasts relates it to the declared support, and Execute uses it for the ClassCastException case. |
| GraphChiPageRank.PlannedCalls | src/main/java/org/qcri/rheem/graphchi/operators/GraphChiPageRankOperator.java:58-107 | A run without exceptions makes six or seven external calls. It starts by opening the input file system and ends with the output write. |
| GraphChiPageRank.UpToFirstRaise | src/main/java/org/qcri/rheem/graphchi/operators/GraphChiPageRankOperator.java:58-110 | Cutting a non-empty plan at its first raising call leaves a non-empty trace. UpToFirstRaiseStops and SkipsNonRaising characterise it. |
| GraphChiPageRank.RunOutcome | src/main/java/org/qcri/rheem/graphchi/operators/GraphChiPageRankOperator.java:58-110 | No ensures of its own: it is the trace up to the first raise, together with what that raise surfaces as. CallOutcome, RunOutcomeWithoutRaise, UpToFirstRaiseStops and RunGraphChi characterise it. |
| GraphChiPageRank.UpToFirstRaiseStops | src/main/java/org/qcri/rheem/graphchi/operators/GraphChiPageRankOperator.java:58-110 | The calls made are a prefix of the planned calls. Every call but the last returned normally, and the run stops short of the plan only at a call that raised. |
| GraphChiPageRank.Surfaced | src/main/java/org/qcri/rheem/graphchi/operators/GraphChiPageRankOperator.java:105-107 | An UncheckedIOException leaving the output block becomes its IOException cause. Anything else, raised anywhere, propagates unchanged. |
| GraphChiPageRank.RunGraphChi | src/main/java/org/qcri/rheem/graphchi/operators/GraphChiPageRankOperator.java:58-110 | `runGraphChi` makes exactly the planned calls up to the first one that raises, and throws what that raise surfaces as, or nothing. |
| GraphChiPageRank.CallOutcome | src/main/java/org/qcri/rheem/graphchi/operators/GraphChiPageRankOperator.java:58-110 | When planned call k is reached with no earlier call raising, the run stops right after it with the throwable its raise surfaces as. If it does not raise, the run goes on to call k + 1. |
| GraphChiPageRank.RunOutcomeWithoutRaise | src/main/java/org/qcri/rheem/graphchi/operators/GraphChiPageRankOperator.java:58-110 | When no planned call raises, the run makes every planned call and throws nothing. |
| GraphChiPageRank.ShardsExactlyWhenIntervalsMissing | src/main/java/org/qcri/rheem/graphchi/operators/GraphChiPageRankOperator.java:67-77 | The sharder runs exactly when no intervals file exists for the computed shard count, provided the run gets past the file-size call. The sharder and the engine are both given that count. |
| GraphChiPageRank.Wrapped | src/main/java/org/qcri/rheem/graphchi/operators/GraphChiPageRankOperator.java:51-55 | `execute`'s handler turns an IOException into a RheemException and lets everything else through. No IOException comes out. |
| GraphChiPageRank.EnvFor | src/main/java/org/qcri/rheem/graphchi/operators/GraphChiPageRankOperator.java:49-92 | A null input channel makes opening the input file system raise NullPointerException, and a null output channel does the same for the output file system. Every other call behaves as in the given environment, and with no null channel the environment is unchanged. |
| GraphChiPageRank.NullInputFailsFirst | src/main/java/org/qcri/rheem/graphchi/operators/GraphChiPageRankOperator.java:49-61 | A null input channel passes the cast and then ends the run with NullPointerException at its first call, before any other call is made. |
| GraphChiPageRank.NullOutputFailsBeforeWrite | src/main/java/org/qcri/rheem/graphchi/operators/GraphChiPageRankOperator.java:49-93 | A null output channel with a non-null input passes the cast. The run then always throws and never writes the output, and every call before the last returned normally in the given environment. |
| GraphChiPageRank.Execute | src/main/java/org/qcri/rheem/graphchi/operators/GraphChiPageRankOperator.java:45-56 | Anything but one input channel and one output channel, the arity declared by the constructor, raises AssertionError before any call. A channel that is neither an HdfsFile nor null raises ClassCastException before any call. Otherwise `execute` runs `runGraphChi`, with null channels failing as EnvFor says, and wraps its IOException. With two HdfsFile channels the run is `RunOutcome` of the given environment. |
| GraphChiPageRank.IOFailuresSurfaceWrapped | src/main/java/org/qcri/rheem/graphchi/operators/GraphChiPageRankOperator.java:51-55 | Any IOException of the run, including a per-vertex write failure that reaches the handler as an UncheckedIOException, surfaces from `execute` as a RheemException "Running … failed." carrying the same failure. Other throwables propagate unchanged, including an UncheckedIOException raised outside the output block. |

## Left out

- The GraphChi engine and all file I/O are abstract calls of the environment, which either return or raise. This covers the temporary graph name, `FastSharder.shard` and its input stream, the engine's configuration and `run`, `VertexAggregator.foreach` and the `DataOutputStream` writes. These are foreign library calls and disk I/O. What they compute (shards, the PageRank values, the written bytes) is not modelled.
- The token parsers built in `createSharder` are left out, because they parse floating-point numbers. A failure of `createSharder` counts as a failure of the sharding call.
- The time values come from a clock parameter instead of `System.currentTimeMillis()`.
- `createPartialExecution` is modelled as building the record from the lineage and the elapsed time. `registerMeasuredCardinalities` is left out: both are inherited from a base class outside this model, and the latter only receives the produced instances.
- `getOperatorContext` and the cast to `GraphChiExecutionOperator` are left out. The task id stands for the operator context passed to `createInstance`.
- `dispose` is left out; it does nothing.
- The behaviour of the host's `getChannelInstance` for an unregistered channel is not known here. The model reports MissingInput for it.
- Exceptions thrown by the operator are not distinguished from one another. Any of them is the single `Failed(reason)` result, and it aborts the stage.
- PageRank's `execute` with Java assertions disabled is left out. There, a wrong arity would pass the assertions and end in an array index error or in a run on the first channels.
- Java `int` addition in `2 + …` is not wrapped: the quotient lies within ±214, so the sum cannot overflow.
- `GraphChiPlatform`, `PageRankMapping`, the plugin and the conversion and mapping registries are left out. They are registration and configuration glue, and `GraphChiPlatform`'s cost converter uses floating point.
- `getPlatform` is left out; it returns the platform singleton.
- The `logger.info("Found shards -- no need to preprocess")` call of the reuse branch is left out. It is logging and does not change the run.
- `getSinglePath()` and `Optional.get()` are not separate calls. Each is folded into the call that opens the file system it serves: `OpenInputFileSystem` for the input path, and `OpenOutputFileSystem` and `WriteOutput` for the output path. Whatever they raise is what that call raises in the environment.
- `HdfsFile` in `ChannelKind` stands for an instance of `HdfsFile` or of any subclass. Subclasses are not told apart, since the cast accepts them all.
- `Worklist.Schedule`: its own contract states only that executed tasks are plan tasks, namely termination plus membership. The loop's other properties are the lemmas about it listed above.

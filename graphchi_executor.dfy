/**
 * GraphChiExecutor: the stage driver (a worklist loop over the stage's task graph) and the
 * per-task execution that resolves inputs, creates outputs, invokes the operator and
 * records its effects in the execution state.
 */
module GraphChiExecutor {
  import opened Wrappers
  import opened TaskGraph
  import opened Worklist
  import opened Execution
  import opened JavaInt

  /**
   * `execute(task, optimizationContext, executionState)`. The clock readings before and
   * after the operator call are `clock(tick)` and `clock(tick + 1)`. On success the state is
   * what StepTask prescribes; on failure the state is unchanged and the error is StepTask's.
   */
  method ExecuteTask(plan: Plan, op: Operator, t: TaskId, clock: Clock, tick: nat, state: ExecutionState)
    returns (failure: Option<StageError>)
    requires t in plan.tasks
    modifies state
    ensures var r := StepTask(plan, op, old(state.Value()), t, clock(tick), clock(tick + 1));
            && (failure.None? <==> r.Ok?)
            && (r.Ok? ==> state.Value() == r.value)
            && (r.Err? ==> failure == Some(r.error) && state.Value() == old(state.Value()))
  {
    var task := plan.tasks[t];
    var inputInstances := CollectInputInstances(task.inputChannels, state);
    if inputInstances.Err? {
      return Some(MissingInput(t, inputInstances.error));
    }
    var outputInstances := CreateOutputInstances(t, task.outputChannels);

    var startTime := clock(tick);
    var results := op(t, inputInstances.value, outputInstances);
    var endTime := clock(tick + 1);
    if results.Failed? {
      return Some(OperatorFailure(t, results.reason));
    }

    RegisterOutputInstances(SlotsAfterCall(outputInstances, results.outputSlots), state);
    state.Add(PartialExecution(results.lineage, LongSub(endTime, startTime)));
    return None;
  }

  /**
   * The loop filling `inputChannelInstances`: the registered instance of every input channel,
   * in order, or the first input channel that has none.
   */
  method CollectInputInstances(channels: seq<ChannelId>, state: ExecutionState)
    returns (r: Result<seq<ChannelInstance>, ChannelId>)
    ensures r == ResolveInputs(state.instances, channels)
  {
    var inputInstances := new ChannelInstance[|channels|];
    for i := 0 to inputInstances.Length
      invariant RegisteredBefore(state.instances, channels, i)
      invariant forall j :: 0 <= j < i ==> inputInstances[j] == state.instances[channels[j]]
    {
      var instance := state.GetChannelInstance(channels[i]);
      if instance.None? {
        ghost var resolved := ResolveInputs(state.instances, channels);
        assert resolved.Err? && resolved.error == channels[i] by {
          var k :| 0 <= k < |channels| && channels[k] == resolved.error && resolved.error !in state.instances
                   && RegisteredBefore(state.instances, channels, k);
          assert k == i;
        }
        return Err(channels[i]);
      }
      inputInstances[i] := instance.value;
    }
    assert inputInstances[..] == ResolveInputs(state.instances, channels).value;
    return Ok(inputInstances[..]);
  }

  /** The loop filling `outputChannelInstances`: one fresh instance per output index. */
  method CreateOutputInstances(t: TaskId, channels: seq<ChannelId>) returns (r: seq<ChannelInstance>)
    ensures r == CreatedOutputs(t, channels)
  {
    var outputInstances := new ChannelInstance[|channels|];
    for i := 0 to outputInstances.Length
      invariant forall j :: 0 <= j < i ==> outputInstances[j] == CreateInstance(channels[j], t, j)
    {
      outputInstances[i] := CreateInstance(channels[i], t, i);
    }
    return outputInstances[..];
  }

  /** The loop registering every non-null slot of `outputChannelInstances`, in index order. */
  method RegisterOutputInstances(slots: seq<Option<ChannelInstance>>, state: ExecutionState)
    modifies state
    ensures state.instances == RegisterAll(old(state.instances), slots)
    ensures state.partials == old(state.partials)
  {
    ghost var registered := state.instances;
    for i := 0 to |slots|
      invariant state.instances == RegisterAll(registered, slots[..i])
      invariant state.partials == old(state.partials)
    {
      RegisterAllExtend(registered, slots, i);
      if slots[i].Some? {
        state.Register(slots[i].value);
      }
    }
    assert slots[..|slots|] == slots;
  }

  /**
   * `execute(stage, optimizationContext, executionState)`: the worklist loop. The tasks run
   * in ExecutionOrder(plan, stage), the k-th of them between clock readings 2k and 2k + 1,
   * until the order is exhausted or a task fails; the outcome and the new state are Run's.
   */
  method ExecuteStage(plan: Plan, stage: Stage, op: Operator, clock: Clock, state: ExecutionState)
    returns (outcome: StageOutcome)
    requires StartTasksKnown(plan, stage)
    modifies state
    ensures (state.Value(), outcome) == Run(plan, op, clock, old(state.Value()), ExecutionOrder(plan, stage), 0)
  {
    ghost var total := Run(plan, op, clock, state.Value(), ExecutionOrder(plan, stage), 0);
    var scheduledTasks := stage.startTasks;
    var executedTasks: set<TaskId> := {};
    var count := 0;
    while scheduledTasks != []
      invariant AllKnown(plan, scheduledTasks)
      invariant total == Run(plan, op, clock, state.Value(), Schedule(plan, stage, scheduledTasks, executedTasks), count)
      decreases plan.tasks.Keys - executedTasks, |scheduledTasks|
    {
      var task := scheduledTasks[0];
      var rest := scheduledTasks[1..];
      assert AllKnown(plan, rest);
      if task in executedTasks {
        RunSkipsExecuted(plan, stage, op, clock, state.Value(), scheduledTasks, executedTasks, count);
        assert total == Run(plan, op, clock, state.Value(), Schedule(plan, stage, rest, executedTasks), count);
        scheduledTasks := rest;
        continue;
      }
      var next := rest + Enqueued(plan, stage, task);
      ghost var before := state.Value();
      ghost var step := StepTask(plan, op, before, task, clock(2 * count), clock(2 * count + 1));
      RunNextTask(plan, stage, op, clock, before, scheduledTasks, executedTasks, count);
      var failure := ExecuteTask(plan, op, task, clock, 2 * count, state);
      if failure.Some? {
        return Aborted(failure.value);
      }
      assert state.Value() == step.value;
      assert total == Run(plan, op, clock, state.Value(), Schedule(plan, stage, next, executedTasks + {task}), count + 1);
      executedTasks := executedTasks + {task};
      count := count + 1;
      scheduledTasks := next;
    }
    return Completed;
  }

  /** Popping a task executed before leaves the remaining run unchanged. */
  lemma RunSkipsExecuted(plan: Plan, stage: Stage, op: Operator, clock: Clock, st: Snapshot,
                         queue: seq<TaskId>, executed: set<TaskId>, count: nat)
    requires AllKnown(plan, queue) && queue != [] && queue[0] in executed
    ensures AllKnown(plan, queue[1..])
    ensures Run(plan, op, clock, st, Schedule(plan, stage, queue, executed), count)
         == Run(plan, op, clock, st, Schedule(plan, stage, queue[1..], executed), count)
  {
  }

  /** Popping a fresh task executes it first and continues from the extended queue. */
  lemma RunNextTask(plan: Plan, stage: Stage, op: Operator, clock: Clock, st: Snapshot,
                    queue: seq<TaskId>, executed: set<TaskId>, count: nat)
    requires AllKnown(plan, queue) && queue != [] && queue[0] !in executed
    ensures AllKnown(plan, queue[1..] + Enqueued(plan, stage, queue[0]))
    ensures var t := queue[0];
            var step := StepTask(plan, op, st, t, clock(2 * count), clock(2 * count + 1));
            var run := Run(plan, op, clock, st, Schedule(plan, stage, queue, executed), count);
            && (step.Err? ==> run == (st, Aborted(step.error)))
            && (step.Ok? ==> run == Run(plan, op, clock, step.value, Schedule(plan, stage, queue[1..] + Enqueued(plan, stage, t), executed + {t}), count + 1))
  {
    var t := queue[0];
    var next := queue[1..] + Enqueued(plan, stage, t);
    var remaining := Schedule(plan, stage, next, executed + {t});
    assert Schedule(plan, stage, queue, executed) == [t] + remaining;
    assert ([t] + remaining)[1..] == remaining;
  }
}

/**
 * Concrete stages run through the worklist model: a linear chain, a diamond, and a graph in
 * which a task is popped before one of its producers has run. The driver gates execution
 * only on "executed before", so in the last one the consumer runs first and, with every
 * operator succeeding, the stage aborts with MissingInput.
 */
module Scenarios {
  import opened Wrappers
  import opened TaskGraph
  import opened Worklist
  import opened Execution

  /** An operator that always succeeds and leaves the created outputs in place. */
  function Succeeds(t: TaskId, inputs: seq<ChannelInstance>, outputs: seq<ChannelInstance>): OperatorResult {
    Done([], [], [])
  }

  const Empty := Snapshot(map[], [])

  /** T1 -> T2 -> T3 through channels 1 and 2, all in stage 0. */
  const ChainPlan := Plan(
    map[1 := Task(0, [], [1]), 2 := Task(0, [1], [2]), 3 := Task(0, [2], [])],
    map[1 := [2], 2 := [3]])
  const ChainStage := Stage(0, [1])

  /** The chain runs T1, then T2, then T3, each once. */
  lemma ChainRunsInOrder(p: Plan, s: Stage)
    requires p == ChainPlan && s == ChainStage
    ensures StartTasksKnown(p, s)
    ensures ExecutionOrder(p, s) == [1, 2, 3]
  {
    EnqueuedOne(p, s, 1, 1, 2);
    EnqueuedOne(p, s, 2, 2, 3);
    EnqueuedNone(p, s, 3);
    ScheduleFresh(p, s, [3], {1, 2});
    assert [3][1..] + [] == [] && {1, 2} + {3} == {1, 2, 3};
    ScheduleFresh(p, s, [2], {1});
    assert [2][1..] + [3] == [3] && {1} + {2} == {1, 2};
    ScheduleFresh(p, s, [1], {});
    assert [1][1..] + [2] == [2] && {} + {1} == {1};
  }

  /** The channels each task of the chain reads and writes. */
  predicate ChainChannels(p: Plan) {
    && 1 in p.tasks && p.tasks[1].inputChannels == [] && p.tasks[1].outputChannels == [1]
    && 2 in p.tasks && p.tasks[2].inputChannels == [1] && p.tasks[2].outputChannels == [2]
    && 3 in p.tasks && p.tasks[3].inputChannels == [2]
  }

  lemma ChainPlanHasChainChannels()
    ensures ChainChannels(ChainPlan)
  {
  }

  /** Running the chain from an empty state completes and appends three partial executions. */
  lemma ChainRunAppendsThree(p: Plan, clock: Clock)
    requires ChainChannels(p)
    ensures AllKnown(p, [1, 2, 3])
    ensures var r := Run(p, Succeeds, clock, Empty, [1, 2, 3], 0);
            r.1 == Completed && |r.0.partials| == 3
  {
    var order := [1, 2, 3];
    var st1 := StepTask(p, Succeeds, Empty, 1, clock(0), clock(1));
    SucceedsRegistersOutputs(p, Empty, 1, clock(0), clock(1));
    var st2 := StepTask(p, Succeeds, st1.value, 2, clock(2), clock(3));
    assert st2.Ok? && 2 in st2.value.instances && |st2.value.partials| == 2 by {
      assert 1 in st1.value.instances;
      SucceedsRegistersOutputs(p, st1.value, 2, clock(2), clock(3));
    }
    var st3 := StepTask(p, Succeeds, st2.value, 3, clock(4), clock(5));
    assert st3.Ok? && |st3.value.partials| == 3 by {
      SucceedsRegistersOutputs(p, st2.value, 3, clock(4), clock(5));
    }
    assert Run(p, Succeeds, clock, st2.value, order[2..], 2) == (st3.value, Completed) by {
      assert order[2..][1..] == [];
    }
    assert Run(p, Succeeds, clock, st1.value, order[1..], 1) == Run(p, Succeeds, clock, st2.value, order[2..], 2) by {
      assert order[1..][1..] == order[2..];
    }
  }

  /** T1 -> {T2, T3} -> T4: T1 writes channels 11 and 12, T2 writes 13, T3 writes 14, T4 reads 13 and 14. */
  const DiamondPlan := Plan(
    map[1 := Task(0, [], [11, 12]), 2 := Task(0, [11], [13]), 3 := Task(0, [12], [14]), 4 := Task(0, [13, 14], [])],
    map[11 := [2], 12 := [3], 13 := [4], 14 := [4]])
  const DiamondStage := Stage(0, [1])

  /** The consumer edges of the diamond, as the driver follows them. */
  predicate DiamondEdges(p: Plan, s: Stage) {
    && s.startTasks == [1]
    && (forall t :: 1 <= t <= 4 ==> t in p.tasks)
    && Enqueued(p, s, 1) == [2, 3]
    && Enqueued(p, s, 2) == [4]
    && Enqueued(p, s, 3) == [4]
    && Enqueued(p, s, 4) == []
  }

  lemma DiamondPlanHasDiamondEdges(p: Plan, s: Stage)
    requires p == DiamondPlan && s == DiamondStage
    ensures DiamondEdges(p, s)
  {
    forall t | 1 <= t <= 4 ensures t in p.tasks {
      assert t == 1 || t == 2 || t == 3 || t == 4;
    }
    EnqueuedTwo(p, s, 1, 11, 12, 2, 3);
    EnqueuedOne(p, s, 2, 13, 4);
    EnqueuedOne(p, s, 3, 14, 4);
    EnqueuedNone(p, s, 4);
  }

  /**
   * In the diamond, T4 is already queued once T2 has run and T3 has not (queue [3, 4],
   * executed {1, 2}); it is queued a second time by T3 and that second pop is skipped. It
   * happens to run after both producers because T3 was queued first.
   */
  lemma DiamondQueuesConsumerAfterFirstProducer(p: Plan, s: Stage)
    requires DiamondEdges(p, s)
    ensures StartTasksKnown(p, s)
    ensures Schedule(p, s, [1], {}) == [1, 2] + Schedule(p, s, [3, 4], {1, 2})
    ensures Schedule(p, s, [3, 4], {1, 2}) == [3] + Schedule(p, s, [4, 4], {1, 2, 3})
    ensures Schedule(p, s, [4, 4], {1, 2, 3}) == [4]
    ensures ExecutionOrder(p, s) == [1, 2, 3, 4]
  {
    DiamondRunsThreeThenFour(p, s);
    ScheduleFresh(p, s, [2, 3], {1});
    assert [2, 3][1..] + [4] == [3, 4] && {1} + {2} == {1, 2};
    ScheduleFresh(p, s, [1], {});
    assert [1][1..] + [2, 3] == [2, 3] && {} + {1} == {1};
  }

  /** After T1 and T2, the diamond runs T3 and then T4 once, skipping T4's second queue entry. */
  lemma DiamondRunsThreeThenFour(p: Plan, s: Stage)
    requires DiamondEdges(p, s)
    ensures Schedule(p, s, [3, 4], {1, 2}) == [3] + Schedule(p, s, [4, 4], {1, 2, 3})
    ensures Schedule(p, s, [4, 4], {1, 2, 3}) == [4]
  {
    ScheduleSkip(p, s, [4], {1, 2, 3, 4});
    assert [4][1..] == [];
    ScheduleFresh(p, s, [4, 4], {1, 2, 3});
    assert [4, 4][1..] + [] == [4] && {1, 2, 3} + {4} == {1, 2, 3, 4};
    ScheduleFresh(p, s, [3, 4], {1, 2});
    assert [3, 4][1..] + [4] == [4, 4] && {1, 2} + {3} == {1, 2, 3};
  }

  /**
   * T1 -> T2 -> T4 and T1 -> T3 -> T5 -> T4: T4 reads channel 23 (from T2) and channel 25
   * (from T5).
   */
  const SkewedPlan := Plan(
    map[1 := Task(0, [], [21, 22]), 2 := Task(0, [21], [23]), 3 := Task(0, [22], [24]),
        4 := Task(0, [23, 25], []), 5 := Task(0, [24], [25])],
    map[21 := [2], 22 := [3], 23 := [4], 24 := [5], 25 := [4]])
  const SkewedStage := Stage(0, [1])

  /** The consumer edges of the skewed plan, as the driver follows them. */
  predicate SkewedEdges(p: Plan, s: Stage) {
    && s.startTasks == [1]
    && (forall t :: 1 <= t <= 5 ==> t in p.tasks)
    && Enqueued(p, s, 1) == [2, 3]
    && Enqueued(p, s, 2) == [4]
    && Enqueued(p, s, 3) == [5]
    && Enqueued(p, s, 4) == []
    && Enqueued(p, s, 5) == [4]
  }

  lemma SkewedPlanHasSkewedEdges(p: Plan, s: Stage)
    requires p == SkewedPlan && s == SkewedStage
    ensures SkewedEdges(p, s)
    ensures ConsumesOutputOf(p, s, 5, 4)
  {
    forall t | 1 <= t <= 5 ensures t in p.tasks {
      assert t == 1 || t == 2 || t == 3 || t == 4 || t == 5;
    }
    SkewedEdgesFromFirstTasks(p, s);
    SkewedEdgesFromLastTasks(p, s);
  }

  /** What T1, T2 and T3 of the skewed plan enqueue. */
  lemma SkewedEdgesFromFirstTasks(p: Plan, s: Stage)
    requires p == SkewedPlan && s == SkewedStage
    ensures Enqueued(p, s, 1) == [2, 3] && Enqueued(p, s, 2) == [4] && Enqueued(p, s, 3) == [5]
  {
    EnqueuedTwo(p, s, 1, 21, 22, 2, 3);
    EnqueuedOne(p, s, 2, 23, 4);
    EnqueuedOne(p, s, 3, 24, 5);
  }

  /** What T4 and T5 of the skewed plan enqueue. */
  lemma SkewedEdgesFromLastTasks(p: Plan, s: Stage)
    requires p == SkewedPlan && s == SkewedStage
    ensures Enqueued(p, s, 4) == [] && Enqueued(p, s, 5) == [4]
    ensures ConsumesOutputOf(p, s, 5, 4)
  {
    EnqueuedNone(p, s, 4);
    EnqueuedOne(p, s, 5, 25, 4);
    assert 4 in Enqueued(p, s, 5);
  }

  /**
   * Readiness is not checked: T4 is executed at position 3, before its same-stage producer
   * T5 at position 4, which in turn enqueues T4 again.
   */
  lemma ConsumerRunsBeforeProducer(p: Plan, s: Stage)
    requires SkewedEdges(p, s)
    ensures StartTasksKnown(p, s)
    ensures ExecutionOrder(p, s) == [1, 2, 3, 4, 5]
    ensures 4 in Enqueued(p, s, 5)
  {
    SkewedRunsFromTwo(p, s);
    ScheduleFresh(p, s, [1], {});
    assert [1][1..] + [2, 3] == [2, 3] && {} + {1} == {1};
  }

  /** After T1, the skewed stage runs T2, T3, T4 and T5 in that order. */
  lemma SkewedRunsFromTwo(p: Plan, s: Stage)
    requires SkewedEdges(p, s)
    ensures Schedule(p, s, [2, 3], {1}) == [2, 3, 4, 5]
  {
    SkewedRunsFromThree(p, s);
    ScheduleFresh(p, s, [2, 3], {1});
    assert [2, 3][1..] + [4] == [3, 4] && {1} + {2} == {1, 2};
  }

  /** After T1 and T2, the skewed stage runs T3, T4 and T5 in that order. */
  lemma SkewedRunsFromThree(p: Plan, s: Stage)
    requires SkewedEdges(p, s)
    ensures Schedule(p, s, [3, 4], {1, 2}) == [3, 4, 5]
  {
    SkewedRunsFourThenFive(p, s);
    ScheduleFresh(p, s, [3, 4], {1, 2});
    assert [3, 4][1..] + [5] == [4, 5] && {1, 2} + {3} == {1, 2, 3};
  }

  /** After T1, T2 and T3, the skewed stage runs T4 and then T5, whose re-enqueued T4 is skipped. */
  lemma SkewedRunsFourThenFive(p: Plan, s: Stage)
    requires SkewedEdges(p, s)
    ensures Schedule(p, s, [4, 5], {1, 2, 3}) == [4, 5]
  {
    ScheduleSkip(p, s, [4], {1, 2, 3, 4, 5});
    assert [4][1..] == [];
    ScheduleFresh(p, s, [5], {1, 2, 3, 4});
    assert [5][1..] + [4] == [4] && {1, 2, 3, 4} + {5} == {1, 2, 3, 4, 5};
    ScheduleFresh(p, s, [4, 5], {1, 2, 3});
    assert [4, 5][1..] + [] == [5] && {1, 2, 3} + {4} == {1, 2, 3, 4};
  }

  /** The channels each task of the skewed plan reads and writes. */
  predicate SkewedChannels(p: Plan) {
    && 1 in p.tasks && p.tasks[1].inputChannels == [] && p.tasks[1].outputChannels == [21, 22]
    && 2 in p.tasks && p.tasks[2].inputChannels == [21] && p.tasks[2].outputChannels == [23]
    && 3 in p.tasks && p.tasks[3].inputChannels == [22] && p.tasks[3].outputChannels == [24]
    && 4 in p.tasks && p.tasks[4].inputChannels == [23, 25]
    && 5 in p.tasks
  }

  lemma SkewedPlanHasSkewedChannels()
    ensures SkewedChannels(SkewedPlan)
  {
  }

  /**
   * With every operator succeeding, the skewed stage aborts at T4 with MissingInput for
   * channel 25, whose producer T5 has not run yet, after T1, T2 and T3 completed.
   */
  lemma ConsumerBeforeProducerMissesInput(p: Plan, clock: Clock)
    requires SkewedChannels(p)
    ensures AllKnown(p, [1, 2, 3, 4, 5])
    ensures var r := Run(p, Succeeds, clock, Empty, [1, 2, 3, 4, 5], 0);
            r.1 == Aborted(MissingInput(4, 25)) && |r.0.partials| == 3
  {
    var st1 := StepTask(p, Succeeds, Empty, 1, clock(0), clock(1));
    SucceedsRegistersOutputs(p, Empty, 1, clock(0), clock(1));
    assert 21 in st1.value.instances && 22 in st1.value.instances;
    SkewedFromSecond(p, clock, st1.value);
    assert [1, 2, 3, 4, 5][1..] == [2, 3, 4, 5];
  }

  /** From T2 on, with channels 21 and 22 registered and 23 and 25 not, the run aborts at T4. */
  lemma SkewedFromSecond(p: Plan, clock: Clock, st: Snapshot)
    requires SkewedChannels(p)
    requires 21 in st.instances && 22 in st.instances && 25 !in st.instances
    ensures AllKnown(p, [2, 3, 4, 5])
    ensures var r := Run(p, Succeeds, clock, st, [2, 3, 4, 5], 1);
            r.1 == Aborted(MissingInput(4, 25)) && |r.0.partials| == |st.partials| + 2
  {
    var st2 := StepTask(p, Succeeds, st, 2, clock(2), clock(3));
    SucceedsRegistersOutputs(p, st, 2, clock(2), clock(3));
    assert 22 in st2.value.instances && 23 in st2.value.instances && 25 !in st2.value.instances;
    SkewedFromThird(p, clock, st2.value);
    assert [2, 3, 4, 5][1..] == [3, 4, 5];
  }

  /** From T3 on, with channels 22 and 23 registered and 25 not, the run aborts at T4. */
  lemma SkewedFromThird(p: Plan, clock: Clock, st: Snapshot)
    requires SkewedChannels(p)
    requires 22 in st.instances && 23 in st.instances && 25 !in st.instances
    ensures AllKnown(p, [3, 4, 5])
    ensures var r := Run(p, Succeeds, clock, st, [3, 4, 5], 2);
            r.1 == Aborted(MissingInput(4, 25)) && |r.0.partials| == |st.partials| + 1
  {
    var st3 := StepTask(p, Succeeds, st, 3, clock(4), clock(5));
    SucceedsRegistersOutputs(p, st, 3, clock(4), clock(5));
    assert 23 in st3.value.instances && 25 !in st3.value.instances;
    SecondInputMissing(p, st3.value, 4, clock(6), clock(7));
    assert [3, 4, 5][1..] == [4, 5];
  }

  /** A task with one output channel, consumed by one same-stage task, enqueues just that task. */
  lemma EnqueuedOne(p: Plan, s: Stage, t: TaskId, c: ChannelId, u: TaskId)
    requires t in p.tasks && p.tasks[t].outputChannels == [c]
    requires c in p.consumers && p.consumers[c] == [u] && InStage(p, u, s.id)
    ensures Enqueued(p, s, t) == [u]
  {
    assert [c][1..] == [];
    assert FlatConsumers(p, [c]) == [u] + FlatConsumers(p, []);
    assert [u][1..] == [];
    assert SameStage(p, s.id, [u]) == [u] + SameStage(p, s.id, []);
  }

  /** A task with two output channels, each consumed by one same-stage task, enqueues both in order. */
  lemma EnqueuedTwo(p: Plan, s: Stage, t: TaskId, c: ChannelId, d: ChannelId, u: TaskId, v: TaskId)
    requires t in p.tasks && p.tasks[t].outputChannels == [c, d]
    requires c in p.consumers && p.consumers[c] == [u] && InStage(p, u, s.id)
    requires d in p.consumers && p.consumers[d] == [v] && InStage(p, v, s.id)
    ensures Enqueued(p, s, t) == [u, v]
  {
    assert [c, d][1..] == [d] && [d][1..] == [];
    assert FlatConsumers(p, [d]) == [v] + FlatConsumers(p, []);
    assert FlatConsumers(p, [c, d]) == [u] + FlatConsumers(p, [d]);
    assert [u, v][1..] == [v] && [v][1..] == [];
    assert SameStage(p, s.id, [v]) == [v] + SameStage(p, s.id, []);
    assert SameStage(p, s.id, [u, v]) == [u] + SameStage(p, s.id, [v]);
  }

  /** A task without output channels enqueues nothing. */
  lemma EnqueuedNone(p: Plan, s: Stage, t: TaskId)
    requires t in p.tasks && p.tasks[t].outputChannels == []
    ensures Enqueued(p, s, t) == []
  {
  }

  /**
   * With an operator that always succeeds, a task whose inputs are all registered succeeds,
   * registers exactly its output channels on top of what was there, and logs one record.
   */
  lemma SucceedsRegistersOutputs(p: Plan, st: Snapshot, t: TaskId, startTime: int, endTime: int)
    requires t in p.tasks
    requires forall i :: 0 <= i < |p.tasks[t].inputChannels| ==> p.tasks[t].inputChannels[i] in st.instances
    ensures var r := StepTask(p, Succeeds, st, t, startTime, endTime);
            && r.Ok?
            && (forall c :: c in r.value.instances <==> c in st.instances || c in p.tasks[t].outputChannels)
            && |r.value.partials| == |st.partials| + 1
  {
    var outs := p.tasks[t].outputChannels;
    var created := CreatedOutputs(t, outs);
    var after := SlotsAfterCall(created, []);
    TaskBookkeeping(p, Succeeds, st, t, startTime, endTime);
    assert forall i :: 0 <= i < |after| ==> after[i] == Some(created[i]);
    forall c ensures (exists i :: 0 <= i < |after| && SlotOf(after, i, c)) <==> c in outs {
      if c in outs {
        var i :| 0 <= i < |outs| && outs[i] == c;
        assert SlotOf(after, i, c);
      }
    }
  }

  /** A task reading two channels of which only the second is unregistered fails with MissingInput for it. */
  lemma SecondInputMissing(p: Plan, st: Snapshot, t: TaskId, startTime: int, endTime: int)
    requires t in p.tasks && |p.tasks[t].inputChannels| == 2
    requires p.tasks[t].inputChannels[0] in st.instances && p.tasks[t].inputChannels[1] !in st.instances
    ensures StepTask(p, Succeeds, st, t, startTime, endTime) == Err(MissingInput(t, p.tasks[t].inputChannels[1]))
  {
    var ins := p.tasks[t].inputChannels;
    assert ins[1..][0] == ins[1];
  }
}

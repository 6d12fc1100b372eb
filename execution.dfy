/**
 * What the stage driver of GraphChiExecutor does to the shared execution state: channel
 * instances are resolved and registered, and one partial-execution record is appended per
 * executed task. The functions here describe the effect of executing one task and of
 * executing a sequence of tasks; the class ExecutionState is the mutable store itself.
 */
module Execution {
  import opened Wrappers
  import opened TaskGraph
  import opened Worklist
  import opened JavaInt

  type LineageNode = nat

  /** The runtime instance of a channel, created by a task for one of its output indices. */
  datatype ChannelInstance = ChannelInstance(channel: ChannelId, producer: TaskId, outputIndex: nat)

  /** One task's lineage nodes and measured wall-clock duration. */
  datatype PartialExecution = PartialExecution(lineage: seq<LineageNode>, elapsedMillis: int)

  /**
   * What an operator invocation yields. `outputSlots` is the content of the output-instance
   * array when the operator returns (None stands for a null entry); a slot beyond the end of
   * `outputSlots` still holds the instance the driver put there. `produced` are the
   * instances handed to the cardinality hook.
   */
  datatype OperatorResult =
    | Done(lineage: seq<LineageNode>, outputSlots: seq<Option<ChannelInstance>>, produced: seq<ChannelInstance>)
    | Failed(reason: string)

  /** An operator, given the task (standing for its operator context), its input instances and its output instances. */
  type Operator = (TaskId, seq<ChannelInstance>, seq<ChannelInstance>) -> OperatorResult

  /** The wall clock: the n-th reading within one stage execution returns the `long` clock(n). */
  type Clock = nat -> Long

  datatype StageError =
    | MissingInput(task: TaskId, channel: ChannelId)
    | OperatorFailure(task: TaskId, reason: string)

  datatype StageOutcome = Completed | Aborted(error: StageError)

  /** The execution state: registered channel instances and the partial-execution log. */
  datatype Snapshot = Snapshot(instances: map<ChannelId, ChannelInstance>, partials: seq<PartialExecution>)

  /** `channel.createInstance(executor, operatorContext, index)`. */
  function CreateInstance(c: ChannelId, t: TaskId, index: nat): ChannelInstance {
    ChannelInstance(c, t, index)
  }

  /** True when every channel before position `i` is registered. */
  predicate RegisteredBefore(instances: map<ChannelId, ChannelInstance>, channels: seq<ChannelId>, i: nat)
    requires i <= |channels|
  {
    forall j :: 0 <= j < i ==> channels[j] in instances
  }

  /**
   * The instances of the given input channels, in order, or the first channel that has no
   * registered instance.
   */
  function ResolveInputs(instances: map<ChannelId, ChannelInstance>, channels: seq<ChannelId>): (r: Result<seq<ChannelInstance>, ChannelId>)
    ensures r.Ok? <==> RegisteredBefore(instances, channels, |channels|)
    ensures r.Ok? ==> |r.value| == |channels| && forall i :: 0 <= i < |channels| ==> r.value[i] == instances[channels[i]]
    ensures r.Err? ==> exists i :: 0 <= i < |channels| && channels[i] == r.error && r.error !in instances && RegisteredBefore(instances, channels, i)
  {
    if channels == [] then Ok([])
    else if channels[0] !in instances then Err(channels[0])
    else match ResolveInputs(instances, channels[1..])
      case Ok(rest) => Ok([instances[channels[0]]] + rest)
      case Err(c) =>
        assert forall j :: 0 <= j < |channels| - 1 ==> channels[1..][j] == channels[j + 1];
        Err(c)
  }

  /** The output instances the driver creates, one per output channel, with its index. */
  function CreatedOutputs(t: TaskId, channels: seq<ChannelId>): (r: seq<ChannelInstance>)
    ensures |r| == |channels|
    ensures forall i :: 0 <= i < |r| ==> r[i] == ChannelInstance(channels[i], t, i)
  {
    seq(|channels|, i requires 0 <= i < |channels| => CreateInstance(channels[i], t, i))
  }

  /** The output-instance array after the operator returned. */
  function SlotsAfterCall(created: seq<ChannelInstance>, slots: seq<Option<ChannelInstance>>): (r: seq<Option<ChannelInstance>>)
    ensures |r| == |created|
  {
    seq(|created|, i requires 0 <= i < |created| => if i < |slots| then slots[i] else Some(created[i]))
  }

  /** `executionState.register(instance)`: the instance becomes the one of its channel. */
  function Register(instances: map<ChannelId, ChannelInstance>, ci: ChannelInstance): map<ChannelId, ChannelInstance> {
    instances[ci.channel := ci]
  }

  /** Registers every non-null slot, in index order. */
  function RegisterAll(instances: map<ChannelId, ChannelInstance>, slots: seq<Option<ChannelInstance>>): map<ChannelId, ChannelInstance>
  {
    if slots == [] then instances
    else
      var before := RegisterAll(instances, slots[..|slots| - 1]);
      var last := slots[|slots| - 1];
      if last.Some? then Register(before, last.value) else before
  }

  /** Registering one slot more. */
  lemma RegisterAllExtend(instances: map<ChannelId, ChannelInstance>, slots: seq<Option<ChannelInstance>>, i: nat)
    requires i < |slots|
    ensures RegisterAll(instances, slots[..i + 1])
         == if slots[i].Some? then Register(RegisterAll(instances, slots[..i]), slots[i].value)
            else RegisterAll(instances, slots[..i])
  {
    assert slots[..i + 1][..i] == slots[..i];
  }

  /** Slot `i` is non-null and holds an instance of channel `c`. */
  predicate SlotOf(slots: seq<Option<ChannelInstance>>, i: int, c: ChannelId) {
    0 <= i < |slots| && slots[i].Some? && slots[i].value.channel == c
  }

  /** Slot `i` is the last non-null slot holding an instance of channel `c`. */
  predicate LastSlotOf(slots: seq<Option<ChannelInstance>>, i: int, c: ChannelId) {
    SlotOf(slots, i, c) && forall j :: i < j < |slots| ==> !SlotOf(slots, j, c)
  }

  /**
   * Registration gains exactly the non-null slots: a channel is registered afterwards iff it
   * was before or some slot holds one of its instances; then its instance is the one in the
   * last such slot, and a channel no slot mentions keeps its instance.
   */
  lemma {:induction false} RegisterAllGains(instances: map<ChannelId, ChannelInstance>, slots: seq<Option<ChannelInstance>>)
    ensures var m := RegisterAll(instances, slots);
            && (forall c :: c in m <==> c in instances || exists i :: 0 <= i < |slots| && SlotOf(slots, i, c))
            && (forall c, i :: LastSlotOf(slots, i, c) ==> c in m && m[c] == slots[i].value)
            && (forall c :: c in instances && (forall i :: 0 <= i < |slots| ==> !SlotOf(slots, i, c)) ==> m[c] == instances[c])
  {
    if slots != [] {
      var n := |slots| - 1;
      var init := slots[..n];
      var before := RegisterAll(instances, init);
      var m := RegisterAll(instances, slots);
      RegisterAllGains(instances, init);
      assert forall i, c :: 0 <= i < n ==> (SlotOf(init, i, c) <==> SlotOf(slots, i, c));
      forall c ensures c in m <==> c in instances || exists i :: 0 <= i < |slots| && SlotOf(slots, i, c) {
        if SlotOf(slots, n, c) {
          assert c in m;
        } else {
          assert c in m <==> c in before;
        }
      }
      forall c, i | LastSlotOf(slots, i, c) ensures c in m && m[c] == slots[i].value {
        if i < n {
          assert LastSlotOf(init, i, c);
          assert !SlotOf(slots, n, c);
        }
      }
      forall c | c in instances && (forall i :: 0 <= i < |slots| ==> !SlotOf(slots, i, c))
        ensures m[c] == instances[c]
      {
        assert !SlotOf(slots, n, c);
        assert forall i :: 0 <= i < n ==> !SlotOf(init, i, c);
        assert m[c] == before[c];
      }
    }
  }

  /**
   * Executing task `t` on the state `st` with clock readings `startTime` and `endTime`
   * around the operator call.
   */
  function StepTask(plan: Plan, op: Operator, st: Snapshot, t: TaskId, startTime: int, endTime: int): Result<Snapshot, StageError>
    requires t in plan.tasks
  {
    var task := plan.tasks[t];
    match ResolveInputs(st.instances, task.inputChannels)
    case Err(c) => Err(MissingInput(t, c))
    case Ok(inputs) =>
      var created := CreatedOutputs(t, task.outputChannels);
      match op(t, inputs, created)
      case Failed(reason) => Err(OperatorFailure(t, reason))
      case Done(lineage, slots, produced) =>
        Ok(Snapshot(RegisterAll(st.instances, SlotsAfterCall(created, slots)),
                    st.partials + [PartialExecution(lineage, LongSub(endTime, startTime))]))
  }

  /**
   * Executing one task: it fails with MissingInput, before the operator is invoked, exactly
   * when an input channel is unregistered (naming the first such channel); otherwise the
   * operator sees the registered instances of its inputs in order and the created outputs,
   * one per output index; on success the state gains exactly the non-null output slots and
   * one partial execution with the operator's lineage and `endTime - startTime` as a `long` difference.
   */
  lemma TaskBookkeeping(plan: Plan, op: Operator, st: Snapshot, t: TaskId, startTime: int, endTime: int)
    requires t in plan.tasks
    ensures var task := plan.tasks[t];
            var r := StepTask(plan, op, st, t, startTime, endTime);
            if !RegisteredBefore(st.instances, task.inputChannels, |task.inputChannels|) then
              exists i :: 0 <= i < |task.inputChannels| && r == Err(MissingInput(t, task.inputChannels[i]))
                && task.inputChannels[i] !in st.instances && RegisteredBefore(st.instances, task.inputChannels, i)
            else
              var inputs := seq(|task.inputChannels|, i requires 0 <= i < |task.inputChannels| => st.instances[task.inputChannels[i]]);
              var outputs := CreatedOutputs(t, task.outputChannels);
              match op(t, inputs, outputs)
              case Failed(reason) => r == Err(OperatorFailure(t, reason))
              case Done(lineage, slots, _) =>
                var after := SlotsAfterCall(outputs, slots);
                && r.Ok?
                && r.value.partials == st.partials + [PartialExecution(lineage, LongSub(endTime, startTime))]
                && (forall c :: c in r.value.instances <==> c in st.instances || exists i :: 0 <= i < |after| && SlotOf(after, i, c))
                && (forall c, i :: LastSlotOf(after, i, c) ==> r.value.instances[c] == after[i].value)
                && (forall c :: c in st.instances && (forall i :: 0 <= i < |after| ==> !SlotOf(after, i, c)) ==> r.value.instances[c] == st.instances[c])
  {
    var task := plan.tasks[t];
    var resolved := ResolveInputs(st.instances, task.inputChannels);
    if resolved.Ok? {
      var inputs := seq(|task.inputChannels|, i requires 0 <= i < |task.inputChannels| => st.instances[task.inputChannels[i]]);
      assert resolved.value == inputs;
      var outputs := CreatedOutputs(t, task.outputChannels);
      if op(t, inputs, outputs).Done? {
        RegisterAllGains(st.instances, SlotsAfterCall(outputs, op(t, inputs, outputs).outputSlots));
      }
    }
  }

  /** The time the k-th task of a stage execution is recorded to have taken. */
  function Elapsed(clock: Clock, k: nat): int {
    LongSub(clock(2 * k + 1), clock(2 * k))
  }

  /**
   * Executing the tasks of `order` one after the other, the k-th of this stage execution
   * reading the clock at 2k and 2k + 1; the first failure aborts, leaving the state as the
   * completed tasks left it.
   */
  function Run(plan: Plan, op: Operator, clock: Clock, st: Snapshot, order: seq<TaskId>, k: nat): (Snapshot, StageOutcome)
    requires AllKnown(plan, order)
    decreases |order|
  {
    if order == [] then (st, Completed)
    else match StepTask(plan, op, st, order[0], clock(2 * k), clock(2 * k + 1))
      case Err(e) => (st, Aborted(e))
      case Ok(st') => Run(plan, op, clock, st', order[1..], k + 1)
  }

  /**
   * The partial-execution log only grows, by one record per executed task, in execution
   * order, each record carrying the elapsed time between that task's two clock readings; an
   * aborted run names the task at which it stopped and has appended one record for each task
   * before it.
   */
  lemma RunAppendsOnePerTask(plan: Plan, op: Operator, clock: Clock, st: Snapshot, order: seq<TaskId>, k: nat)
    requires AllKnown(plan, order)
    ensures var r := Run(plan, op, clock, st, order, k);
            var n := |r.0.partials| - |st.partials|;
            && |st.partials| <= |r.0.partials|
            && r.0.partials[..|st.partials|] == st.partials
            && (r.1 == Completed ==> n == |order|)
            && (r.1.Aborted? ==> n < |order| && r.1.error.task == order[n])
            && ElapsedFrom(r.0.partials[|st.partials|..], clock, k)
  {
    RunLogGrows(plan, op, clock, st, order, k);
    RunCountsTasks(plan, op, clock, st, order, k);
  }

  /** The log keeps its prefix and each new record carries its task's clock difference. */
  lemma {:induction false} RunLogGrows(plan: Plan, op: Operator, clock: Clock, st: Snapshot, order: seq<TaskId>, k: nat)
    requires AllKnown(plan, order)
    ensures var r := Run(plan, op, clock, st, order, k);
            && |st.partials| <= |r.0.partials|
            && r.0.partials[..|st.partials|] == st.partials
            && ElapsedFrom(r.0.partials[|st.partials|..], clock, k)
    decreases |order|
  {
    if order != [] {
      var step := StepTask(plan, op, st, order[0], clock(2 * k), clock(2 * k + 1));
      StepTaskAppendsOne(plan, op, st, order[0], clock(2 * k), clock(2 * k + 1));
      if step.Ok? {
        var mid := step.value;
        assert AllKnown(plan, order[1..]);
        RunLogGrows(plan, op, clock, mid, order[1..], k + 1);
        var r := Run(plan, op, clock, mid, order[1..], k + 1);
        assert r == Run(plan, op, clock, st, order, k);
        LogExtends(st.partials, mid.partials[|st.partials|], r.0.partials, clock, k);
      }
    }
  }

  /** A completed run logged one record per task; an aborted one names the task after those it logged. */
  lemma {:induction false} RunCountsTasks(plan: Plan, op: Operator, clock: Clock, st: Snapshot, order: seq<TaskId>, k: nat)
    requires AllKnown(plan, order)
    ensures var r := Run(plan, op, clock, st, order, k);
            var n := |r.0.partials| - |st.partials|;
            && (r.1 == Completed ==> n == |order|)
            && (r.1.Aborted? ==> 0 <= n < |order| && r.1.error.task == order[n])
    decreases |order|
  {
    if order != [] {
      var step := StepTask(plan, op, st, order[0], clock(2 * k), clock(2 * k + 1));
      StepTaskAppendsOne(plan, op, st, order[0], clock(2 * k), clock(2 * k + 1));
      if step.Ok? {
        var mid := step.value;
        assert AllKnown(plan, order[1..]);
        RunCountsTasks(plan, op, clock, mid, order[1..], k + 1);
        var r := Run(plan, op, clock, mid, order[1..], k + 1);
        assert r == Run(plan, op, clock, st, order, k);
        var n := |r.0.partials| - |mid.partials|;
        assert |mid.partials| == |st.partials| + 1;
        if r.1.Aborted? {
          assert order[1..][n] == order[n + 1];
        }
      }
    }
  }

  /** A log grown by one record for the k-th task and then by records for the tasks after it. */
  lemma LogExtends(before: seq<PartialExecution>, p: PartialExecution, log: seq<PartialExecution>, clock: Clock, k: nat)
    requires p.elapsedMillis == Elapsed(clock, k)
    requires |before| + 1 <= |log| && log[..|before| + 1] == before + [p]
    requires ElapsedFrom(log[|before| + 1..], clock, k + 1)
    ensures |before| <= |log| && log[..|before|] == before
    ensures ElapsedFrom(log[|before|..], clock, k)
  {
    var m := |before|;
    assert log[..m] == (before + [p])[..m];
    assert log[m..] == [log[m]] + log[m + 1..];
    assert log[m] == (before + [p])[m];
    ElapsedCons(log[m], log[m + 1..], clock, k);
  }

  /** The records of `added` carry the elapsed times of the k-th, (k+1)-th, ... task. */
  ghost predicate ElapsedFrom(added: seq<PartialExecution>, clock: Clock, k: nat) {
    forall i :: 0 <= i < |added| ==> added[i].elapsedMillis == Elapsed(clock, k + i)
  }

  lemma ElapsedCons(p: PartialExecution, rest: seq<PartialExecution>, clock: Clock, k: nat)
    requires p.elapsedMillis == Elapsed(clock, k)
    requires ElapsedFrom(rest, clock, k + 1)
    ensures ElapsedFrom([p] + rest, clock, k)
  {
    forall i | 0 < i < |rest| + 1 ensures ([p] + rest)[i].elapsedMillis == Elapsed(clock, k + i) {
      assert ([p] + rest)[i] == rest[i - 1];
    }
  }

  lemma StepTaskAppendsOne(plan: Plan, op: Operator, st: Snapshot, t: TaskId, startTime: int, endTime: int)
    requires t in plan.tasks
    ensures var r := StepTask(plan, op, st, t, startTime, endTime);
            && (r.Ok? ==> r.value.partials == st.partials + [r.value.partials[|st.partials|]]
                          && r.value.partials[|st.partials|].elapsedMillis == LongSub(endTime, startTime))
            && (r.Err? ==> r.error.task == t)
  {
  }

  /** The execution state store owned by the job and mutated by the driver. */
  class ExecutionState {
    var instances: map<ChannelId, ChannelInstance>
    var partials: seq<PartialExecution>

    constructor (initial: Snapshot)
      ensures Value() == initial
    {
      instances := initial.instances;
      partials := initial.partials;
    }

    function Value(): Snapshot
      reads this
    {
      Snapshot(instances, partials)
    }

    /** `executionState.getChannelInstance(channel)`, None for an unregistered channel. */
    method GetChannelInstance(c: ChannelId) returns (r: Option<ChannelInstance>)
      ensures r.Some? <==> c in instances
      ensures r.Some? ==> r.value == instances[c]
    {
      r := if c in instances then Some(instances[c]) else None;
    }

    /** `executionState.register(instance)`. */
    method Register(ci: ChannelInstance)
      modifies this
      ensures instances == old(instances)[ci.channel := ci]
      ensures partials == old(partials)
    {
      instances := instances[ci.channel := ci];
    }

    /** `executionState.add(partialExecution)`. */
    method Add(p: PartialExecution)
      modifies this
      ensures partials == old(partials) + [p]
      ensures instances == old(instances)
    {
      partials := partials + [p];
    }
  }
}

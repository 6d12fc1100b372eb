/**
 * The task graph of one execution stage, as the stage driver of GraphChiExecutor sees it.
 * Tasks, channels and stages are identified by numbers; a task knows its stage and its
 * ordered input and output channels, and a channel knows its ordered list of consumers.
 */
module TaskGraph {

  type TaskId = nat
  type ChannelId = nat
  type StageId = nat

  /** One operator invocation: the stage it belongs to and its input and output channels. */
  datatype Task = Task(stage: StageId, inputChannels: seq<ChannelId>, outputChannels: seq<ChannelId>)

  /** All tasks of the plan, and for each channel the tasks that consume it. */
  datatype Plan = Plan(tasks: map<TaskId, Task>, consumers: map<ChannelId, seq<TaskId>>)

  /** A stage and its designated start tasks. */
  datatype Stage = Stage(id: StageId, startTasks: seq<TaskId>)

  /** Every start task of the stage is a task of the plan. */
  predicate StartTasksKnown(plan: Plan, stage: Stage) {
    forall t :: t in stage.startTasks ==> t in plan.tasks
  }

  /** `consumer.getStage() == stage`: the task exists and belongs to the stage. */
  predicate InStage(plan: Plan, t: TaskId, stage: StageId) {
    t in plan.tasks && plan.tasks[t].stage == stage
  }

  /** `channel.getConsumers()`; a channel nobody registered as consumed has none. */
  function ConsumersOf(plan: Plan, c: ChannelId): seq<TaskId> {
    if c in plan.consumers then plan.consumers[c] else []
  }

  /** The consumers of the given channels, flattened in channel order. */
  function FlatConsumers(plan: Plan, channels: seq<ChannelId>): (r: seq<TaskId>)
    ensures forall u :: u in r <==> exists j :: 0 <= j < |channels| && u in ConsumersOf(plan, channels[j])
  {
    if channels == [] then []
    else
      ConsumersOf(plan, channels[0]) + FlatConsumers(plan, channels[1..])
  }

  /** The tasks of `ts` that belong to the stage, in their order in `ts`. */
  function SameStage(plan: Plan, stage: StageId, ts: seq<TaskId>): (r: seq<TaskId>)
    ensures |r| <= |ts|
    ensures forall u :: u in r <==> u in ts && InStage(plan, u, stage)
  {
    if ts == [] then []
    else if InStage(plan, ts[0], stage) then [ts[0]] + SameStage(plan, stage, ts[1..])
    else SameStage(plan, stage, ts[1..])
  }

  /** `u` is a same-stage consumer of one of the output channels of `t`. */
  predicate ConsumesOutputOf(plan: Plan, stage: Stage, t: TaskId, u: TaskId) {
    && t in plan.tasks
    && InStage(plan, u, stage.id)
    && exists j :: 0 <= j < |plan.tasks[t].outputChannels| && u in ConsumersOf(plan, plan.tasks[t].outputChannels[j])
  }

  /**
   * The tasks the driver appends to its queue after executing `t`: every consumer of each
   * output channel of `t` that belongs to the stage being executed.
   */
  function Enqueued(plan: Plan, stage: Stage, t: TaskId): (r: seq<TaskId>)
    ensures forall u :: u in r <==> ConsumesOutputOf(plan, stage, t, u)
    ensures forall u :: u in r ==> InStage(plan, u, stage.id)
  {
    if t in plan.tasks then SameStage(plan, stage.id, FlatConsumers(plan, plan.tasks[t].outputChannels))
    else []
  }

  /** A path from a start task along the edges the driver follows. */
  ghost predicate IsPath(plan: Plan, stage: Stage, p: seq<TaskId>) {
    && |p| > 0
    && p[0] in stage.startTasks
    && forall i :: 0 <= i < |p| - 1 ==> p[i + 1] in Enqueued(plan, stage, p[i])
  }

  /** `u` can be reached from a start task via same-stage consumer edges. */
  ghost predicate Reachable(plan: Plan, stage: Stage, u: TaskId) {
    exists p :: IsPath(plan, stage, p) && p[|p| - 1] == u
  }

  /** A set of tasks that holds all start tasks and every task the driver enqueues after one of its members. */
  ghost predicate ClosedUnderEnqueue(plan: Plan, stage: Stage, s: set<TaskId>) {
    && (forall t :: t in stage.startTasks ==> t in s)
    && (forall t, u :: t in s && u in Enqueued(plan, stage, t) ==> u in s)
  }

  /** Every reachable task lies in every set closed under the driver's edges. */
  lemma {:induction false} ReachableInClosed(plan: Plan, stage: Stage, s: set<TaskId>, u: TaskId)
    requires ClosedUnderEnqueue(plan, stage, s)
    requires Reachable(plan, stage, u)
    ensures u in s
  {
    var p :| IsPath(plan, stage, p) && p[|p| - 1] == u;
    PathInClosed(plan, stage, s, p, |p| - 1);
  }

  lemma {:induction false} PathInClosed(plan: Plan, stage: Stage, s: set<TaskId>, p: seq<TaskId>, i: nat)
    requires ClosedUnderEnqueue(plan, stage, s)
    requires IsPath(plan, stage, p) && i < |p|
    ensures p[i] in s
  {
    if i > 0 {
      PathInClosed(plan, stage, s, p, i - 1);
      assert p[i] in Enqueued(plan, stage, p[i - 1]);
    }
  }

  /** A start task is reachable, and reachability extends along an enqueue edge. */
  lemma StartReachable(plan: Plan, stage: Stage, t: TaskId)
    requires t in stage.startTasks
    ensures Reachable(plan, stage, t)
  {
    assert IsPath(plan, stage, [t]);
  }

  lemma ReachableStep(plan: Plan, stage: Stage, t: TaskId, u: TaskId)
    requires Reachable(plan, stage, t)
    requires u in Enqueued(plan, stage, t)
    ensures Reachable(plan, stage, u)
  {
    var p :| IsPath(plan, stage, p) && p[|p| - 1] == t;
    var q := p + [u];
    assert forall i :: 0 <= i < |q| - 1 ==> q[i + 1] in Enqueued(plan, stage, q[i]) by {
      forall i | 0 <= i < |q| - 1 ensures q[i + 1] in Enqueued(plan, stage, q[i]) {
        if i < |p| - 1 { assert q[i] == p[i] && q[i + 1] == p[i + 1]; }
      }
    }
    assert IsPath(plan, stage, q);
  }
}

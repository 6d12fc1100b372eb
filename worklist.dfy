/**
 * The execution order of the stage driver in GraphChiExecutor.execute(stage, ...): a FIFO
 * queue seeded with the start tasks, a set of executed tasks, and the rule "pop a task; skip
 * it if it was executed before; otherwise execute it and append the same-stage consumers of
 * its outputs". The guard tests only "executed before", never "all producers done".
 */
module Worklist {
  import opened TaskGraph

  /** Every queued task is a task of the plan. */
  predicate AllKnown(plan: Plan, queue: seq<TaskId>) {
    forall t :: t in queue ==> t in plan.tasks
  }

  predicate NoDuplicates(s: seq<TaskId>) {
    forall i, j :: 0 <= i < j < |s| ==> s[i] != s[j]
  }

  /**
   * The tasks the worklist loop executes, in execution order, when it runs from `queue`
   * with `executed` already executed.
   */
  function Schedule(plan: Plan, stage: Stage, queue: seq<TaskId>, executed: set<TaskId>): (order: seq<TaskId>)
    requires AllKnown(plan, queue)
    ensures AllKnown(plan, order)
    decreases plan.tasks.Keys - executed, |queue|
  {
    if queue == [] then []
    else if queue[0] in executed then Schedule(plan, stage, queue[1..], executed)
    else
      var t := queue[0];
      [t] + Schedule(plan, stage, queue[1..] + Enqueued(plan, stage, t), executed + {t})
  }

  /**
   * At most once: the loop executes no task twice, and none that was executed before; every
   * task it executes is a task of the plan.
   */
  lemma {:induction false} ScheduleRunsEachOnce(plan: Plan, stage: Stage, queue: seq<TaskId>, executed: set<TaskId>)
    requires AllKnown(plan, queue)
    ensures var order := Schedule(plan, stage, queue, executed);
            && (forall t :: t in order ==> t in plan.tasks && t !in executed)
            && NoDuplicates(order)
    decreases plan.tasks.Keys - executed, |queue|
  {
    if queue == [] {
    } else if queue[0] in executed {
      ScheduleRunsEachOnce(plan, stage, queue[1..], executed);
    } else {
      var t := queue[0];
      var next := queue[1..] + Enqueued(plan, stage, t);
      ScheduleRunsEachOnce(plan, stage, next, executed + {t});
      var rest := Schedule(plan, stage, next, executed + {t});
      assert Schedule(plan, stage, queue, executed) == [t] + rest;
      FreshBeforeRest(plan, t, rest, executed);
    }
  }

  /** A fresh task of the plan ahead of an order that avoids it keeps the order duplicate-free and fresh. */
  lemma FreshBeforeRest(plan: Plan, t: TaskId, rest: seq<TaskId>, executed: set<TaskId>)
    requires t in plan.tasks && t !in executed
    requires forall u :: u in rest ==> u in plan.tasks && u !in executed + {t}
    requires NoDuplicates(rest)
    ensures forall u :: u in [t] + rest ==> u in plan.tasks && u !in executed
    ensures NoDuplicates([t] + rest)
  {
    var order := [t] + rest;
    forall i, j | 0 <= i < j < |order| ensures order[i] != order[j] {
      assert order[j] == rest[j - 1];
      if i > 0 {
        assert order[i] == rest[i - 1];
      }
    }
  }

  /** One step of the loop on a fresh task: it runs first, then the loop continues with its consumers appended. */
  lemma ScheduleFresh(plan: Plan, stage: Stage, queue: seq<TaskId>, executed: set<TaskId>)
    requires AllKnown(plan, queue) && queue != [] && queue[0] !in executed
    ensures AllKnown(plan, queue[1..] + Enqueued(plan, stage, queue[0]))
    ensures Schedule(plan, stage, queue, executed)
         == [queue[0]] + Schedule(plan, stage, queue[1..] + Enqueued(plan, stage, queue[0]), executed + {queue[0]})
  {
  }

  /** One step of the loop on a task executed before: it is dropped. */
  lemma ScheduleSkip(plan: Plan, stage: Stage, queue: seq<TaskId>, executed: set<TaskId>)
    requires AllKnown(plan, queue) && queue != [] && queue[0] in executed
    ensures AllKnown(plan, queue[1..])
    ensures Schedule(plan, stage, queue, executed) == Schedule(plan, stage, queue[1..], executed)
  {
  }

  /** The order in which one call of the stage driver executes the stage's tasks. */
  function ExecutionOrder(plan: Plan, stage: Stage): seq<TaskId>
    requires StartTasksKnown(plan, stage)
  {
    Schedule(plan, stage, stage.startTasks, {})
  }

  /** `order[k]` was enqueued by a task executed before it. */
  ghost predicate EnqueuedByEarlier(plan: Plan, stage: Stage, order: seq<TaskId>, k: nat)
    requires k < |order|
  {
    exists j :: 0 <= j < k && order[k] in Enqueued(plan, stage, order[j])
  }

  /** Every task of `order` was in `queue` or was enqueued by an earlier task of `order`. */
  ghost predicate QueuedOrEnqueued(plan: Plan, stage: Stage, queue: seq<TaskId>, order: seq<TaskId>) {
    forall k :: 0 <= k < |order| ==> order[k] in queue || EnqueuedByEarlier(plan, stage, order, k)
  }

  /**
   * Each executed task was in the initial queue or was enqueued by an earlier executed
   * task: the driver enqueues only after executing.
   */
  lemma {:induction false} ScheduleExtendsProducers(plan: Plan, stage: Stage, queue: seq<TaskId>, executed: set<TaskId>)
    requires AllKnown(plan, queue)
    ensures QueuedOrEnqueued(plan, stage, queue, Schedule(plan, stage, queue, executed))
    decreases plan.tasks.Keys - executed, |queue|
  {
    var order := Schedule(plan, stage, queue, executed);
    if queue == [] {
    } else if queue[0] in executed {
      ScheduleExtendsProducers(plan, stage, queue[1..], executed);
      assert order == Schedule(plan, stage, queue[1..], executed);
      forall k | 0 <= k < |order| ensures order[k] in queue || EnqueuedByEarlier(plan, stage, order, k) {
        if order[k] in queue[1..] {
          var i :| 0 <= i < |queue[1..]| && queue[1..][i] == order[k];
          assert queue[i + 1] == order[k];
        }
      }
    } else {
      var t := queue[0];
      var next := queue[1..] + Enqueued(plan, stage, t);
      ScheduleExtendsProducers(plan, stage, next, executed + {t});
      var rest := Schedule(plan, stage, next, executed + {t});
      assert order == [t] + rest;
      forall k | 0 <= k < |order| ensures order[k] in queue || EnqueuedByEarlier(plan, stage, order, k) {
        if k == 0 {
          assert order[0] == queue[0];
        } else {
          assert order[k] == rest[k - 1];
          if rest[k - 1] in queue[1..] {
            var i :| 0 <= i < |queue[1..]| && queue[1..][i] == order[k];
            assert queue[i + 1] == order[k];
          } else if rest[k - 1] in Enqueued(plan, stage, t) {
            assert order[k] in Enqueued(plan, stage, order[0]);
          } else {
            assert rest[k - 1] !in next;
            assert EnqueuedByEarlier(plan, stage, rest, k - 1);
            var j :| 0 <= j < k - 1 && rest[k - 1] in Enqueued(plan, stage, rest[j]);
            assert order[j + 1] == rest[j];
          }
        }
      }
    }
  }

  /**
   * When the queue runs empty, every task that was queued has been executed (now or
   * before), and so has every same-stage consumer of every task executed now.
   */
  lemma {:induction false} ScheduleCovers(plan: Plan, stage: Stage, queue: seq<TaskId>, executed: set<TaskId>)
    requires AllKnown(plan, queue)
    ensures var order := Schedule(plan, stage, queue, executed);
            && (forall t :: t in queue ==> t in executed || t in order)
            && (forall t, u :: t in order && u in Enqueued(plan, stage, t) ==> u in executed || u in order)
    decreases plan.tasks.Keys - executed, |queue|
  {
    if queue == [] {
    } else if queue[0] in executed {
      ScheduleCovers(plan, stage, queue[1..], executed);
    } else {
      var t := queue[0];
      var next := queue[1..] + Enqueued(plan, stage, t);
      ScheduleCovers(plan, stage, next, executed + {t});
    }
  }

  /**
   * Coverage and soundness: on normal termination the executed tasks are exactly those
   * reachable from the start tasks via same-stage consumer edges; in particular every
   * start task is executed.
   */
  lemma ExecutedIsReachable(plan: Plan, stage: Stage)
    requires StartTasksKnown(plan, stage)
    ensures forall u :: u in ExecutionOrder(plan, stage) <==> Reachable(plan, stage, u)
    ensures forall t :: t in stage.startTasks ==> t in ExecutionOrder(plan, stage)
  {
    var order := ExecutionOrder(plan, stage);
    ScheduleExtendsProducers(plan, stage, stage.startTasks, {});
    assert QueuedOrEnqueued(plan, stage, stage.startTasks, order);
    forall k | 0 <= k < |order| ensures Reachable(plan, stage, order[k]) {
      PrefixReachable(plan, stage, order, k);
    }
    ScheduleCovers(plan, stage, stage.startTasks, {});
    var s := set u | u in order;
    assert ClosedUnderEnqueue(plan, stage, s);
    forall u | Reachable(plan, stage, u) ensures u in order {
      ReachableInClosed(plan, stage, s, u);
    }
    forall t | t in stage.startTasks ensures t in order {
      StartReachable(plan, stage, t);
    }
  }

  lemma {:induction false} PrefixReachable(plan: Plan, stage: Stage, order: seq<TaskId>, k: nat)
    requires k < |order|
    requires QueuedOrEnqueued(plan, stage, stage.startTasks, order)
    ensures Reachable(plan, stage, order[k])
    decreases k
  {
    if order[k] in stage.startTasks {
      StartReachable(plan, stage, order[k]);
    } else {
      assert EnqueuedByEarlier(plan, stage, order, k);
      var j :| 0 <= j < k && order[k] in Enqueued(plan, stage, order[j]);
      PrefixReachable(plan, stage, order, j);
      ReachableStep(plan, stage, order[j], order[k]);
    }
  }

  /**
   * Confinement and ordering: every executed task is a start task or runs after at least
   * one earlier-executed task that has it as a same-stage consumer of an output channel.
   */
  lemma ExecutedAfterSomeProducer(plan: Plan, stage: Stage)
    requires StartTasksKnown(plan, stage)
    ensures var order := ExecutionOrder(plan, stage);
            forall k :: 0 <= k < |order| ==>
              || order[k] in stage.startTasks
              || exists j :: 0 <= j < k && ConsumesOutputOf(plan, stage, order[j], order[k])
    ensures forall u :: u in ExecutionOrder(plan, stage) ==> u in stage.startTasks || InStage(plan, u, stage.id)
  {
    var order := ExecutionOrder(plan, stage);
    ScheduleExtendsProducers(plan, stage, stage.startTasks, {});
    assert QueuedOrEnqueued(plan, stage, stage.startTasks, order);
    forall k | 0 <= k < |order| && order[k] !in stage.startTasks
      ensures exists j :: 0 <= j < k && ConsumesOutputOf(plan, stage, order[j], order[k])
    {
      assert EnqueuedByEarlier(plan, stage, order, k);
      var j :| 0 <= j < k && order[k] in Enqueued(plan, stage, order[j]);
      assert ConsumesOutputOf(plan, stage, order[j], order[k]);
    }
  }

  /** Termination bound: one call executes at most as many tasks as the plan has. */
  lemma ExecutionOrderBounded(plan: Plan, stage: Stage)
    requires StartTasksKnown(plan, stage)
    ensures |ExecutionOrder(plan, stage)| <= |plan.tasks|
  {
    ScheduleRunsEachOnce(plan, stage, stage.startTasks, {});
    DistinctWithin(ExecutionOrder(plan, stage), plan.tasks.Keys);
  }

  lemma {:induction false} DistinctWithin(s: seq<TaskId>, keys: set<TaskId>)
    requires NoDuplicates(s)
    requires forall t :: t in s ==> t in keys
    ensures |s| <= |keys|
  {
    if s != [] {
      assert forall i :: 0 <= i < |s[1..]| ==> s[1..][i] == s[i + 1];
      forall t | t in s[1..] ensures t in keys - {s[0]} {
        var i :| 0 <= i < |s[1..]| && s[1..][i] == t;
        assert s[i + 1] == t && s[0] != s[i + 1];
      }
      DistinctWithin(s[1..], keys - {s[0]});
    }
  }
}

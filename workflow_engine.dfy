/**
 * The workflow engine (widesim/entity/WorkflowEngine.java): it holds back a
 * task until every parent has completed, forwards ready tasks to the broker,
 * and resubmits a failed task to itself at once.
 */
module WorkflowEngines {
  import opened Tasks
  import opened Messages

  /** The INCOMING_TASK events that forward the given tasks to the broker, in order. */
  function Releases(ids: seq<int>, tasks: map<int, Task>, brokerId: int): (r: seq<Event>)
    requires forall i :: 0 <= i < |ids| ==> ids[i] in tasks
    ensures |r| == |ids|
    ensures forall i :: 0 <= i < |ids| ==> r[i] == SendNow(brokerId, IncomingTask, IncomingTaskMsg(tasks[ids[i]]))
  {
    if ids == [] then []
    else
      var rest := Releases(ids[1..], tasks, brokerId);
      assert forall i :: 1 <= i < |ids| ==> ids[1..][i - 1] == ids[i];
      [SendNow(brokerId, IncomingTask, IncomingTaskMsg(tasks[ids[0]]))] + rest
  }

  lemma ReleasesAppendOne(ids: seq<int>, id: int, tasks: map<int, Task>, brokerId: int)
    requires forall i :: 0 <= i < |ids| ==> ids[i] in tasks
    requires id in tasks
    ensures Releases(ids + [id], tasks, brokerId)
         == Releases(ids, tasks, brokerId) + [SendNow(brokerId, IncomingTask, IncomingTaskMsg(tasks[id]))]
  {
    var a, b := Releases(ids + [id], tasks, brokerId), Releases(ids, tasks, brokerId) + [SendNow(brokerId, IncomingTask, IncomingTaskMsg(tasks[id]))];
    assert |a| == |b|;
    forall i | 0 <= i < |a| ensures a[i] == b[i] {
      if i < |ids| { assert (ids + [id])[i] == ids[i]; }
    }
  }

  predicate Distinct(s: seq<int>)
  {
    forall i, j :: 0 <= i < j < |s| ==> s[i] != s[j]
  }

  /**
   * `order` lists, once each, exactly the ids of `waiting` whose stored task
   * has all its parents in `completed`.
   */
  ghost predicate ReleasedIn(order: seq<int>, waiting: set<int>, tasks: map<int, Task>, completed: set<int>)
    reads tasks.Values`parents
  {
    && Distinct(order)
    && (forall i :: 0 <= i < |order| ==> order[i] in waiting && order[i] in tasks)
    && (forall id :: id in waiting && id in tasks ==> (id in order <==> tasks[id].parents <= completed))
  }

  /**
   * The walk's bookkeeping after `order` has visited the ids of `waiting`
   * outside `pending`: once each, ready ones only.
   */
  ghost predicate Visited(order: seq<int>, waiting: set<int>, pending: set<int>, tasks: map<int, Task>, completed: set<int>)
    requires waiting <= tasks.Keys
    reads tasks.Values`parents
  {
    && Distinct(order)
    && (forall i :: 0 <= i < |order| ==> order[i] in waiting && order[i] !in pending)
    && (forall id :: id in waiting && id !in pending ==> (id in order <==> tasks[id].parents <= completed))
  }

  /** Visiting one more pending id keeps the bookkeeping, appending the id when it is ready. */
  lemma VisitOne(order: seq<int>, waiting: set<int>, pending: set<int>, tasks: map<int, Task>, completed: set<int>, id: int)
    requires waiting <= tasks.Keys && pending <= waiting && id in pending
    requires Visited(order, waiting, pending, tasks, completed)
    ensures Visited(if tasks[id].parents <= completed then order + [id] else order, waiting, pending - {id}, tasks, completed)
  {
  }

  class WorkflowEngine {
    const selfId: int
    const brokerId: int
    var tasks: map<int, Task>
    var waitingTasks: set<int>
    var completedTasks: set<int>
    var outbox: seq<Event>

    constructor (selfId: int, brokerId: int)
      ensures this.selfId == selfId && this.brokerId == brokerId
      ensures tasks == map[] && waitingTasks == {} && completedTasks == {} && outbox == []
    {
      this.selfId := selfId;
      this.brokerId := brokerId;
      tasks := map[];
      waitingTasks := {};
      completedTasks := {};
      outbox := [];
    }

    /** Every waiting id names a stored task (the release loop looks each one up). */
    ghost predicate Valid()
      reads this`tasks, this`waitingTasks
    {
      waitingTasks <= tasks.Keys
    }

    /** All of a stored task's parents have completed. */
    ghost predicate Ready(id: int)
      requires id in tasks
      reads this`tasks, this`completedTasks, tasks.Values`parents
    {
      tasks[id].parents <= completedTasks
    }

    /** The waiting ids whose parents have all completed. */
    ghost function ReadyWaiting(): (r: set<int>)
      requires Valid()
      reads this`tasks, this`waitingTasks, this`completedTasks, tasks.Values`parents
      ensures r <= waitingTasks
      ensures forall id :: id in r <==> id in waitingTasks && Ready(id)
    {
      set id | id in waitingTasks && tasks[id].parents <= completedTasks
    }

    /** No waiting task is ready: the engine never holds back a task it could release. */
    ghost predicate NoneReady()
      requires Valid()
      reads this`tasks, this`waitingTasks, this`completedTasks, tasks.Values`parents
    {
      forall id :: id in waitingTasks ==> !Ready(id)
    }

    /**
     * `processIncomingTask`: the task is stored under its id, then sent to
     * the broker when its parents have all completed, or held back otherwise.
     */
    method ProcessIncomingTask(task: Task)
      requires Valid()
      modifies this`tasks, this`waitingTasks, this`outbox
      ensures Valid()
      ensures tasks == old(tasks)[task.taskId := task] && completedTasks == old(completedTasks)
      ensures task.parents <= completedTasks ==>
        waitingTasks == old(waitingTasks) && outbox == old(outbox) + [SendNow(brokerId, IncomingTask, IncomingTaskMsg(task))]
      ensures !(task.parents <= completedTasks) ==>
        waitingTasks == old(waitingTasks) + {task.taskId} && outbox == old(outbox)
      ensures old(NoneReady()) && task.taskId !in old(waitingTasks) ==> NoneReady()
    {
      tasks := tasks[task.taskId := task];
      if task.parents <= completedTasks {
        outbox := outbox + [SendNow(brokerId, IncomingTask, IncomingTaskMsg(task))];
      } else {
        waitingTasks := waitingTasks + {task.taskId};
      }
    }

    /**
     * `processCompletedTask`: a failed task has the time appended to its
     * failure history, its status reset to CREATED and its start time to -1,
     * and is scheduled to the engine itself with delay 0; any other task is
     * marked completed. Then every ready waiting task is released, in the
     * (unspecified) iteration order of the waiting set, recorded in `order`.
     */
    method ProcessCompletedTask(task: Task, clock: real) returns (ghost order: seq<int>)
      requires Valid()
      modifies this`waitingTasks, this`completedTasks, this`outbox
      modifies task`status, task`execStartTime, task.failedExecutions
      ensures Valid() && tasks == old(tasks)
      ensures old(task.status) == Failed ==>
        && completedTasks == old(completedTasks)
        && task.status == Created && task.execStartTime == -1.0
        && task.failedExecutions.times == old(task.failedExecutions.times) + [clock]
      ensures old(task.status) != Failed ==>
        && completedTasks == old(completedTasks) + {task.taskId}
        && task.status == old(task.status) && task.execStartTime == old(task.execStartTime)
        && task.failedExecutions.times == old(task.failedExecutions.times)
      ensures var retry := if old(task.status) == Failed then [Event(selfId, 0.0, IncomingTask, IncomingTaskMsg(task))] else [];
        && ReleasedIn(order, old(waitingTasks), tasks, completedTasks)
        && (forall id :: id in waitingTasks <==> id in old(waitingTasks) && id !in order)
        && outbox == old(outbox) + retry + Releases(order, tasks, brokerId)
      ensures NoneReady()
      ensures old(completedTasks) <= completedTasks
    {
      if task.status == Failed {
        task.AddFailedExecution(clock);
        task.status := Created;
        task.execStartTime := -1.0;
        outbox := outbox + [Event(selfId, 0.0, IncomingTask, IncomingTaskMsg(task))];
      } else {
        completedTasks := completedTasks + {task.taskId};
      }
      order := ReleaseReady();
    }

    /** The release loop over the waiting set, removing and forwarding each ready task. */
    method ReleaseReady() returns (ghost order: seq<int>)
      requires Valid()
      modifies this`waitingTasks, this`outbox
      ensures Valid() && NoneReady()
      ensures ReleasedIn(order, old(waitingTasks), tasks, completedTasks)
      ensures forall id :: id in waitingTasks <==> id in old(waitingTasks) && id !in order
      ensures outbox == old(outbox) + Releases(order, tasks, brokerId)
    {
      var kept, sent;
      kept, sent, order := ScanWaiting(waitingTasks, tasks, completedTasks, brokerId);
      waitingTasks := kept;
      outbox := outbox + sent;
    }

    /**
     * The iterator walk over `waiting`, as values: the ids left waiting and
     * the sends made, in the order `order` the walk removed the ids.
     */
    static method ScanWaiting(waiting: set<int>, tasks: map<int, Task>, completed: set<int>, brokerId: int)
      returns (kept: set<int>, sent: seq<Event>, ghost order: seq<int>)
      requires waiting <= tasks.Keys
      ensures ReleasedIn(order, waiting, tasks, completed)
      ensures kept <= waiting && forall id :: id in kept <==> id in waiting && id !in order
      ensures sent == Releases(order, tasks, brokerId)
    {
      kept, sent, order := waiting, [], [];
      var pending := waiting;
      while pending != {}
        invariant pending <= waiting
        invariant Visited(order, waiting, pending, tasks, completed)
        invariant kept <= waiting && forall id :: id in kept <==> id in waiting && id !in order
        invariant sent == Releases(order, tasks, brokerId)
        decreases pending
      {
        if forall id :: id !in pending { assert false; }
        var waitingTaskId :| waitingTaskId in pending;
        VisitOne(order, waiting, pending, tasks, completed, waitingTaskId);
        pending := pending - {waitingTaskId};
        var waitingTask := tasks[waitingTaskId];
        if waitingTask.parents <= completed {
          kept := kept - {waitingTaskId};
          ReleasesAppendOne(order, waitingTaskId, tasks, brokerId);
          sent := sent + [SendNow(brokerId, IncomingTask, IncomingTaskMsg(waitingTask))];
          order := order + [waitingTaskId];
        }
      }
    }

    /**
     * `processEvent`: INCOMING_TASK and TASK_IS_DONE go to their handlers
     * (their payload must be the matching message); any other tag is ignored.
     */
    method ProcessEvent(ev: Event, clock: real)
      requires Valid()
      requires ev.tag == IncomingTask ==> ev.payload.IncomingTaskMsg?
      requires ev.tag == TaskIsDone ==> ev.payload.TaskIsDoneMsg?
      modifies this`tasks, this`waitingTasks, this`completedTasks, this`outbox
      modifies if ev.tag == TaskIsDone then {ev.payload.task, ev.payload.task.failedExecutions} else {}
      ensures Valid()
      ensures ev.tag != IncomingTask && ev.tag != TaskIsDone ==>
        tasks == old(tasks) && waitingTasks == old(waitingTasks)
        && completedTasks == old(completedTasks) && outbox == old(outbox)
      ensures old(completedTasks) <= completedTasks
      ensures ev.tag == TaskIsDone ==> NoneReady()
      ensures ev.tag != TaskIsDone && old(NoneReady()) ==>
        (ev.tag == IncomingTask && ev.payload.task.taskId in old(waitingTasks)) || NoneReady()
    {
      if ev.tag == IncomingTask {
        ProcessIncomingTask(ev.payload.task);
      } else if ev.tag == TaskIsDone {
        var _ := ProcessCompletedTask(ev.payload.task, clock);
      }
    }
  }
}

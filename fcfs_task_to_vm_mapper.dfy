/**
 * First-come-first-served placement (widesim/mapper/FCFSTaskToVMMapper.java):
 * each unpinned queued task takes the first created VM nobody uses yet; the
 * mapper remembers used VMs across calls until they are released, and stops
 * at the first task for which no VM is free.
 */
module FcfsTaskToVm {
  import opened Wrappers
  import opened Tasks
  import opened Messages

  /** The position of the first created VM whose id is not in use. */
  function FirstFree(created: seq<Vm>, used: set<int>): (r: Option<nat>)
    ensures r.Some? ==> r.value < |created| && created[r.value].id !in used
                        && forall j :: 0 <= j < r.value ==> created[j].id in used
    ensures r.None? ==> forall j :: 0 <= j < |created| ==> created[j].id in used
  {
    if created == [] then None
    else if created[0].id !in used then Some(0)
    else
      match FirstFree(created[1..], used)
      case None => None
      case Some(k) => Some(k + 1)
  }

  /**
   * The mapper's state after a queue prefix: the mapping so far, the used
   * VMs, for each task the VM it was given (None for pinned tasks and those
   * after the stop), and whether it stopped for lack of a free VM.
   */
  datatype Progress = Progress(assignment: map<int, int>, used: set<int>, given: seq<Option<int>>, stopped: bool)

  function Run(created: seq<Vm>, queue: seq<Task>, used: set<int>): (r: Progress)
    ensures |r.given| == |queue|
    ensures used <= r.used
    ensures forall i :: 0 <= i < |queue| && r.given[i].Some? ==>
      queue[i].assignedVmId.None? && r.given[i].value in r.used && r.given[i].value !in used
      && exists k :: 0 <= k < |created| && created[k].id == r.given[i].value
    ensures forall v :: v in r.used && v !in used ==> exists i :: 0 <= i < |queue| && r.given[i] == Some(v)
    ensures forall i, j :: 0 <= i < j < |queue| && r.given[i].Some? ==> r.given[j] != r.given[i]
  {
    if queue == [] then Progress(map[], used, [], false)
    else
      var p := Run(created, queue[..|queue| - 1], used);
      var t := queue[|queue| - 1];
      if p.stopped then p.(given := p.given + [None])
      else if t.assignedVmId.Some? then
        p.(assignment := p.assignment[t.taskId := t.assignedVmId.value], given := p.given + [None])
      else
        match FirstFree(created, p.used)
        case None => p.(given := p.given + [None], stopped := true)
        case Some(k) =>
          var v := created[k].id;
          Progress(p.assignment[t.taskId := v], p.used + {v}, p.given + [Some(v)], false)
  }

  /** A VM never goes to two tasks, nor to a task while it was already in use. */
  lemma NoVmHandedOutTwice(created: seq<Vm>, queue: seq<Task>, used: set<int>)
    ensures var r := Run(created, queue, used);
      forall i, j :: 0 <= i < |queue| && 0 <= j < |queue| && i != j && r.given[i].Some? ==>
        r.given[i] != r.given[j] && r.given[i].value !in used
  {
    var r := Run(created, queue, used);
    forall i, j | 0 <= i < |queue| && 0 <= j < |queue| && i != j && r.given[i].Some?
      ensures r.given[i] != r.given[j]
    {
      if j < i && r.given[j].Some? {
        assert r.given[i] != r.given[j];
      }
    }
  }

  /** The VM id an object is left with: the last one given to it, or its old one. */
  function VmAfter(queue: seq<Task>, given: seq<Option<int>>, t: Task, old_vmId: int): int
    requires |given| == |queue|
  {
    if queue == [] then old_vmId
    else
      var n := |queue| - 1;
      if queue[n] == t && given[n].Some? then given[n].value
      else VmAfter(queue[..n], given[..n], t, old_vmId)
  }

  class FcfsMapper {
    var usedVMs: set<int>

    constructor()
      ensures usedVMs == {}
    {
      usedVMs := {};
    }

    method ReleaseVM(vmId: int)
      modifies this
      ensures usedVMs == old(usedVMs) - {vmId}
    {
      usedVMs := usedVMs - {vmId};
    }

    /** `map(...)`: returns the new mapping and sets the VM id of each task it places. */
    method Map(createdVms: seq<Vm>, failedVms: seq<Option<Vm>>, queuedTasks: seq<Task>) returns (r: map<int, int>)
      modifies this, (set t | t in queuedTasks)`vmId
      ensures var p := Run(createdVms, queuedTasks, old(usedVMs));
        r == p.assignment && usedVMs == p.used
        && forall t :: t in queuedTasks ==> t.vmId == VmAfter(queuedTasks, p.given, t, old(t.vmId))
    {
      ghost var used0 := usedVMs;
      r := map[];
      var i := 0;
      while i < |queuedTasks|
        invariant 0 <= i <= |queuedTasks|
        invariant var p := Run(createdVms, queuedTasks[..i], used0);
          !p.stopped && r == p.assignment && usedVMs == p.used
          && forall t :: t in queuedTasks ==> t.vmId == VmAfter(queuedTasks[..i], p.given, t, old(t.vmId))
      {
        var queuedTask := queuedTasks[i];
        ghost var p := Run(createdVms, queuedTasks[..i], used0);
        assert queuedTasks[..i + 1][..i] == queuedTasks[..i];
        if queuedTask.assignedVmId.Some? {
          r := r[queuedTask.taskId := queuedTask.assignedVmId.value];
        } else {
          var stillHasVm, j := FindUnused(createdVms);
          if !stillHasVm {
            StoppingIsFinal(createdVms, queuedTasks, used0, i + 1);
            VmAfterIgnoresUngiven(queuedTasks, Run(createdVms, queuedTasks, used0).given, i + 1);
            return;
          }
          var vmId := createdVms[j].id;
          usedVMs := usedVMs + {vmId};
          queuedTask.vmId := vmId;
          r := r[queuedTask.taskId := vmId];
        }
        i := i + 1;
      }
      assert queuedTasks[..i] == queuedTasks;
    }

    /** The inner loop: the first created VM not yet in use. */
    method FindUnused(createdVms: seq<Vm>) returns (found: bool, j: nat)
      ensures found <==> FirstFree(createdVms, usedVMs).Some?
      ensures found ==> j == FirstFree(createdVms, usedVMs).value
    {
      found := false;
      j := 0;
      while j < |createdVms|
        invariant 0 <= j <= |createdVms|
        invariant forall k :: 0 <= k < j ==> createdVms[k].id in usedVMs
      {
        if createdVms[j].id !in usedVMs {
          found := true;
          FirstUnusedIsFirstFree(createdVms, usedVMs, j);
          return;
        }
        j := j + 1;
      }
    }
  }

  lemma {:induction false} FirstUnusedIsFirstFree(created: seq<Vm>, used: set<int>, j: nat)
    requires j < |created| && created[j].id !in used
    requires forall k :: 0 <= k < j ==> created[k].id in used
    ensures FirstFree(created, used) == Some(j)
  {
    if j > 0 {
      FirstUnusedIsFirstFree(created[1..], used, j - 1);
    }
  }

  /** Entries past a point that gave no VM leave every object's VM as it was at that point. */
  lemma {:induction false} VmAfterIgnoresUngiven(queue: seq<Task>, given: seq<Option<int>>, n: nat)
    requires |given| == |queue| && n <= |queue|
    requires forall i :: n <= i < |queue| ==> given[i].None?
    ensures forall t, v :: VmAfter(queue, given, t, v) == VmAfter(queue[..n], given[..n], t, v)
    decreases |queue|
  {
    if n < |queue| {
      var m := |queue| - 1;
      assert queue[..m][..n] == queue[..n];
      assert given[..m][..n] == given[..n];
      VmAfterIgnoresUngiven(queue[..m], given[..m], n);
    } else {
      assert queue[..n] == queue;
      assert given[..n] == given;
    }
  }

  /** One more task after a stop only records that it was given nothing. */
  lemma StoppedStaysStopped(created: seq<Vm>, queue: seq<Task>, used: set<int>)
    requires queue != [] && Run(created, queue[..|queue| - 1], used).stopped
    ensures var before, q := Run(created, queue[..|queue| - 1], used), Run(created, queue, used);
      q == before.(given := before.given + [None])
  {
  }

  /** After a stop the run stays stopped: later tasks change nothing. */
  lemma {:induction false} StoppingIsFinal(created: seq<Vm>, queue: seq<Task>, used: set<int>, n: nat)
    requires 0 < n <= |queue| && Run(created, queue[..n], used).stopped
    ensures var p := Run(created, queue[..n], used); var q := Run(created, queue, used);
      q.stopped && q.assignment == p.assignment && q.used == p.used && q.given[..n] == p.given
      && forall i :: n <= i < |queue| ==> q.given[i].None?
    decreases |queue|
  {
    if n < |queue| {
      var m := |queue| - 1;
      assert queue[..m][..n] == queue[..n];
      StoppingIsFinal(created, queue[..m], used, n);
      StoppedStaysStopped(created, queue, used);
    } else {
      assert queue[..n] == queue;
    }
  }
}

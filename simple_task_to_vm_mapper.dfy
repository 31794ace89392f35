/**
 * The default task placement (widesim/mapper/SimpleTaskToVmMapper.java):
 * a pinned task goes to its VM, any other to the created VM at position
 * `taskId % |createdVms|`, with Java's truncating remainder.
 */
module SimpleTaskToVm {
  import opened Wrappers
  import opened Tasks
  import opened Messages

  /** Java's `%` on a positive divisor: truncates toward zero, so a negative dividend gives a remainder <= 0. */
  function JavaRem(a: int, n: int): (r: int)
    requires n > 0
    ensures a >= 0 ==> r == a % n && 0 <= r < n
    ensures a < 0 ==> -n < r <= 0
  {
    if a >= 0 then a % n else -((-a) % n)
  }

  /** The VM one queued task is mapped to; None where `createdVms.get` throws on a negative index. */
  function Choice(t: Task, created: seq<Vm>): (r: Option<int>)
    requires created != []
    ensures t.assignedVmId.Some? ==> r == t.assignedVmId
    ensures t.assignedVmId.None? ==>
      (r.None? <==> JavaRem(t.taskId, |created|) < 0)
    ensures t.assignedVmId.None? && r.Some? ==>
      exists k :: 0 <= k < |created| && r.value == created[k].id
  {
    if t.assignedVmId.Some? then t.assignedVmId
    else
      var k := JavaRem(t.taskId, |created|);
      if k < 0 then None else Some(created[k].id)
  }

  /** The mapping built over a queue prefix, later entries for an id replacing earlier ones. */
  function Fold(created: seq<Vm>, queue: seq<Task>): (r: Option<map<int, int>>)
    requires created != []
    ensures r.Some? <==> forall i :: 0 <= i < |queue| ==> Choice(queue[i], created).Some?
    ensures r.Some? ==> r.value.Keys == set i | 0 <= i < |queue| :: queue[i].taskId
  {
    if queue == [] then Some(map[])
    else
      var init := queue[..|queue| - 1];
      var last := queue[|queue| - 1];
      match Fold(created, init)
      case None => None
      case Some(m) =>
        match Choice(last, created)
        case None => None
        case Some(v) => Some(m[last.taskId := v])
  }

  /** An id is mapped as its last queued occurrence asks. */
  lemma {:induction false} FoldLastOccurrenceWins(created: seq<Vm>, queue: seq<Task>, i: nat)
    requires created != [] && Fold(created, queue).Some?
    requires i < |queue| && forall j :: i < j < |queue| ==> queue[j].taskId != queue[i].taskId
    ensures Fold(created, queue).value[queue[i].taskId] == Choice(queue[i], created).value
    decreases |queue|
  {
    var init := queue[..|queue| - 1];
    if i < |queue| - 1 {
      assert init[i] == queue[i];
      FoldLastOccurrenceWins(created, init, i);
    }
  }

  /** Every mapped id comes from some queued task and gets that task's choice. */
  lemma {:induction false} FoldValuesComeFromQueue(created: seq<Vm>, queue: seq<Task>, id: int)
    requires created != [] && Fold(created, queue).Some? && id in Fold(created, queue).value
    ensures exists i :: 0 <= i < |queue| && queue[i].taskId == id
                        && Fold(created, queue).value[id] == Choice(queue[i], created).value
    decreases |queue|
  {
    var init := queue[..|queue| - 1];
    var last := queue[|queue| - 1];
    if last.taskId != id {
      FoldValuesComeFromQueue(created, init, id);
      var i :| 0 <= i < |init| && init[i].taskId == id && Fold(created, init).value[id] == Choice(init[i], created).value;
      assert queue[i] == init[i];
    }
  }

  /**
   * `map(createdVms, ...)` as a value: empty when no VM is created, otherwise
   * every queued id mapped, or None when a negative id makes Java throw.
   */
  function Assignment(created: seq<Vm>, queue: seq<Task>): (r: Option<map<int, int>>)
    ensures created == [] ==> r == Some(map[])
    ensures created != [] ==> r == Fold(created, queue)
  {
    if created == [] then Some(map[]) else Fold(created, queue)
  }

  /**
   * Once some VM is created, every queued task is mapped: to its pinned VM,
   * or else to one of the created VMs.
   */
  lemma AssignmentCoversQueue(created: seq<Vm>, queue: seq<Task>)
    requires created != [] && Assignment(created, queue).Some?
    ensures forall i :: 0 <= i < |queue| ==> queue[i].taskId in Assignment(created, queue).value
    ensures forall id :: id in Assignment(created, queue).value ==>
      exists i :: (0 <= i < |queue| && queue[i].taskId == id
        && (queue[i].assignedVmId.Some? ==> Assignment(created, queue).value[id] == queue[i].assignedVmId.value)
        && (queue[i].assignedVmId.None? ==>
              exists k :: 0 <= k < |created| && Assignment(created, queue).value[id] == created[k].id))
  {
    var m := Assignment(created, queue).value;
    forall id | id in m
      ensures exists i :: (0 <= i < |queue| && queue[i].taskId == id
        && (queue[i].assignedVmId.Some? ==> m[id] == queue[i].assignedVmId.value)
        && (queue[i].assignedVmId.None? ==> exists k :: 0 <= k < |created| && m[id] == created[k].id))
    {
      FoldValuesComeFromQueue(created, queue, id);
      var i :| 0 <= i < |queue| && queue[i].taskId == id && m[id] == Choice(queue[i], created).value;
    }
  }

  /** The mapper's loop over the queue; failed VMs and the other inputs are unused. */
  method Map(createdVms: seq<Vm>, failedVms: seq<Option<Vm>>, queuedTasks: seq<Task>) returns (r: Option<map<int, int>>)
    ensures r == Assignment(createdVms, queuedTasks)
  {
    var newTaskToVm: map<int, int> := map[];
    if createdVms != [] {
      var i := 0;
      while i < |queuedTasks|
        invariant 0 <= i <= |queuedTasks|
        invariant Fold(createdVms, queuedTasks[..i]) == Some(newTaskToVm)
      {
        var task := queuedTasks[i];
        assert queuedTasks[..i + 1][..i] == queuedTasks[..i];
        if task.assignedVmId.Some? {
          newTaskToVm := newTaskToVm[task.taskId := task.assignedVmId.value];
        } else {
          var vmIndex := JavaRem(task.taskId, |createdVms|);
          if vmIndex < 0 {
            assert Fold(createdVms, queuedTasks[..i + 1]).None?;
            assert forall k :: i < k <= |queuedTasks| ==> queuedTasks[..k][..i + 1] == queuedTasks[..i + 1];
            PrefixFailureIsFinal(createdVms, queuedTasks, i + 1);
            return None;
          }
          newTaskToVm := newTaskToVm[task.taskId := createdVms[vmIndex].id];
        }
        i := i + 1;
      }
      assert queuedTasks[..i] == queuedTasks;
    }
    r := Some(newTaskToVm);
  }

  /** A failing prefix makes the whole fold fail. */
  lemma PrefixFailureIsFinal(created: seq<Vm>, queue: seq<Task>, n: nat)
    requires created != [] && n <= |queue|
    requires Fold(created, queue[..n]).None?
    ensures Fold(created, queue).None?
  {
    var i :| 0 <= i < n && Choice(queue[..n][i], created).None?;
    assert queue[i] == queue[..n][i];
  }
}

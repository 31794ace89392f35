/** A workflow: its task list and an id-indexed view of it (widesim/computation/Workflow.java). */
module Workflows {
  import opened Wrappers
  import opened Tasks

  datatype Workflow = Workflow(tasks: seq<Task>, taskMap: map<int, Task>, workflowId: string)

  predicate DistinctIds(ts: seq<Task>)
  {
    forall i, j :: 0 <= i < j < |ts| ==> ts[i].taskId != ts[j].taskId
  }

  /**
   * `Collectors.toMap(Task::getTaskId, task -> task)`: the id index, or None
   * where toMap throws IllegalStateException on a repeated id.
   */
  function TaskMapOf(ts: seq<Task>): (r: Option<map<int, Task>>)
    ensures r.Some? <==> DistinctIds(ts)
    ensures r.Some? ==> r.value.Keys == set i | 0 <= i < |ts| :: ts[i].taskId
    ensures r.Some? ==> forall i :: 0 <= i < |ts| ==> r.value[ts[i].taskId] == ts[i]
  {
    if ts == [] then Some(map[])
    else
      var init := ts[..|ts| - 1];
      var last := ts[|ts| - 1];
      match TaskMapOf(init)
      case None => None
      case Some(m) =>
        if last.taskId in m then None else Some(m[last.taskId := last])
  }

  function NewWorkflow(ts: seq<Task>, workflowId: string): (r: Option<Workflow>)
    ensures r.Some? <==> DistinctIds(ts)
    ensures r.Some? ==> r.value.tasks == ts && r.value.workflowId == workflowId
  {
    match TaskMapOf(ts)
    case None => None
    case Some(m) => Some(Workflow(ts, m, workflowId))
  }

  /** `taskMap.getOrDefault(taskId, null)`. */
  function GetTask(w: Workflow, taskId: int): (r: Option<Task>)
    ensures r.Some? <==> taskId in w.taskMap
    ensures r.Some? ==> r.value == w.taskMap[taskId]
  {
    if taskId in w.taskMap then Some(w.taskMap[taskId]) else None
  }

  /** In a constructed workflow, looking up an id finds exactly the listed task carrying it. */
  lemma GetTaskFindsListedTask(ts: seq<Task>, workflowId: string, taskId: int)
    requires NewWorkflow(ts, workflowId).Some?
    ensures var w := NewWorkflow(ts, workflowId).value;
      (GetTask(w, taskId).Some? <==> exists i :: 0 <= i < |ts| && ts[i].taskId == taskId)
      && (forall i :: 0 <= i < |ts| && ts[i].taskId == taskId ==> GetTask(w, taskId) == Some(ts[i]))
  {
  }
}

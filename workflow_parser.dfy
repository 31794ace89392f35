/**
 * The workflows reader (widesim/parse/workflow/Parser.java) after the JSON
 * document is read: each task object becomes a task record, the output
 * files of all tasks of a workflow are given owners, and each task is then
 * built with its input data, its file map and the files it needs from each
 * source task.
 */
module WorkflowParsing {
  import opened Wrappers
  import opened Tasks
  import opened Workflows
  import opened ParsedFiles

  /**
   * A task object as read from the document: `None` for an optional key
   * that is absent or null.
   */
  datatype TaskDecl = TaskDecl(taskId: int, runtime: int, inputs: seq<File>, outputs: seq<File>,
                               ram: Option<real>, bw: Option<real>, vmId: Option<int>,
                               selectivity: Option<real>, executionPeriod: Option<real>,
                               entryTime: Option<real>, deadLine: Option<real>, pes: Option<int>)

  /** A workflow object as read: its id and its task objects in document order. */
  datatype WorkflowDecl = WorkflowDecl(workflowId: string, tasks: seq<TaskDecl>)

  /** The values taken for an absent entry time, deadline and PE count. */
  datatype TaskDefaults = TaskDefaults(entryTime: real, deadLine: real, pes: int)

  /** The reader's per-task record (`Parser.TaskInfo`). */
  datatype TaskInfo = TaskInfo(taskId: int, runtime: int, pes: int, inputFileSize: int, outputFileSize: int,
                               inputFiles: seq<File>, outputFiles: seq<File>, deadline: real, entryTime: real,
                               workflowId: string, selectivityModel: SelectivityModel, executionModel: ExecutionModel,
                               ram: real, bw: real, vmId: Option<int>, fileMap: map<string, int>)

  /** The task-object stream map: absent keys take their defaults, the sizes are totals from 0. */
  function InfoOf(t: TaskDecl, workflowId: string, defaults: TaskDefaults): TaskInfo
  {
    TaskInfo(t.taskId, t.runtime, t.pes.GetOr(defaults.pes), TotalSize(t.inputs, 0), TotalSize(t.outputs, 0),
             t.inputs, t.outputs, t.deadLine.GetOr(defaults.deadLine), t.entryTime.GetOr(defaults.entryTime),
             workflowId, FractionalSelectivity(t.selectivity.GetOr(1.0)), PeriodicExecutionModel(t.executionPeriod.GetOr(1.0)),
             t.ram.GetOr(0.0), t.bw.GetOr(0.0), t.vmId, FileMapOf(t.outputs))
  }

  /**
   * Selectivity and period default to 1.0, RAM and bandwidth to 0.0; the
   * size totals start from 0, so they are the plain sums of the file sizes.
   */
  lemma InfoDefaults(t: TaskDecl, workflowId: string, defaults: TaskDefaults)
    ensures var info := InfoOf(t, workflowId, defaults);
      && (t.selectivity.None? ==> info.selectivityModel == FractionalSelectivity(1.0))
      && (t.executionPeriod.None? ==> info.executionModel == PeriodicExecutionModel(1.0))
      && (t.ram.None? ==> info.ram == 0.0) && (t.bw.None? ==> info.bw == 0.0)
      && (t.pes.None? ==> info.pes == defaults.pes)
      && (t.inputs == [] ==> info.inputFileSize == 0) && (t.outputs == [] ==> info.outputFileSize == 0)
      && ((forall i :: 0 <= i < |t.inputs| ==> t.inputs[i].size >= 0) ==> info.inputFileSize >= 0)
      && ((forall i :: 0 <= i < |t.outputs| ==> t.outputs[i].size >= 0) ==> info.outputFileSize >= 0)
  {
    if forall i :: 0 <= i < |t.inputs| ==> t.inputs[i].size >= 0 {
      TotalSizeAtLeastSeed(t.inputs, 0);
    }
    if forall i :: 0 <= i < |t.outputs| ==> t.outputs[i].size >= 0 {
      TotalSizeAtLeastSeed(t.outputs, 0);
    }
  }

  // ---------------------------------------------------------------------
  // File owners

  /** The task declares `id` among its output files. */
  predicate Declares(t: TaskDecl, id: string)
  {
    exists j :: 0 <= j < |t.outputs| && t.outputs[j].id == id
  }

  /** One task's claims: each of its output ids, owned by it. */
  function Claims(outputs: seq<File>, owner: int): map<string, int>
  {
    map f | f in outputs :: f.id := owner
  }

  /** `fileToOwner` after all task objects: each task's claims, later tasks overriding earlier ones. */
  function OwnersOf(ds: seq<TaskDecl>): map<string, int>
  {
    if ds == [] then map[] else OwnersOf(ds[..|ds| - 1]) + Claims(ds[|ds| - 1].outputs, ds[|ds| - 1].taskId)
  }

  /** A file has an owner exactly when some task declares it, and that owner is the last task in document order to do so. */
  lemma OwnerIsLastDeclarer(ds: seq<TaskDecl>, id: string)
    ensures id in OwnersOf(ds) <==> exists i :: 0 <= i < |ds| && Declares(ds[i], id)
    ensures forall i :: 0 <= i < |ds| && Declares(ds[i], id) && (forall k :: i < k < |ds| ==> !Declares(ds[k], id)) ==>
      id in OwnersOf(ds) && OwnersOf(ds)[id] == ds[i].taskId
  {
    OwnedIffDeclared(ds, id);
    forall i | 0 <= i < |ds| && Declares(ds[i], id) && (forall k :: i < k < |ds| ==> !Declares(ds[k], id))
      ensures id in OwnersOf(ds) && OwnersOf(ds)[id] == ds[i].taskId
    {
      LastDeclarerOwns(ds, id, i);
    }
  }

  lemma {:induction false} OwnedIffDeclared(ds: seq<TaskDecl>, id: string)
    ensures id in OwnersOf(ds) <==> exists i :: 0 <= i < |ds| && Declares(ds[i], id)
  {
    if ds != [] {
      var init, last := ds[..|ds| - 1], ds[|ds| - 1];
      OwnedIffDeclared(init, id);
      assert id in Claims(last.outputs, last.taskId) <==> Declares(last, id);
      if exists i :: 0 <= i < |ds| && Declares(ds[i], id) {
        var i :| 0 <= i < |ds| && Declares(ds[i], id);
        if i < |init| { assert init[i] == ds[i]; }
      }
      if exists i :: 0 <= i < |init| && Declares(init[i], id) {
        var i :| 0 <= i < |init| && Declares(init[i], id);
        assert ds[i] == init[i];
      }
    }
  }

  lemma {:induction false} LastDeclarerOwns(ds: seq<TaskDecl>, id: string, i: int)
    requires 0 <= i < |ds| && Declares(ds[i], id)
    requires forall k :: i < k < |ds| ==> !Declares(ds[k], id)
    ensures id in OwnersOf(ds) && OwnersOf(ds)[id] == ds[i].taskId
  {
    var init, last := ds[..|ds| - 1], ds[|ds| - 1];
    assert id in Claims(last.outputs, last.taskId) <==> Declares(last, id);
    if i < |init| {
      assert init[i] == ds[i];
      assert forall k :: i < k < |init| ==> init[k] == ds[k];
      LastDeclarerOwns(init, id, i);
    }
  }

  /** `fileToOwner.getOrDefault(id, self)`: an unowned input is its consumer's own. */
  function OwnerOf(owners: map<string, int>, id: string, self: int): int
  {
    if id in owners then owners[id] else self
  }

  /** The (owner, file id) pairs of the inputs, in input order. */
  function NeededPairs(inputs: seq<File>, owners: map<string, int>, self: int): (r: seq<(int, string)>)
    ensures |r| == |inputs|
    ensures forall i :: 0 <= i < |inputs| ==> r[i] == (OwnerOf(owners, inputs[i].id, self), inputs[i].id)
  {
    if inputs == [] then []
    else NeededPairs(inputs[..|inputs| - 1], owners, self) + [(OwnerOf(owners, inputs[|inputs| - 1].id, self), inputs[|inputs| - 1].id)]
  }

  /** The task's input data: one entry (file, owner, task, size) per input file, in input order. */
  function DataOf(inputs: seq<File>, owners: map<string, int>, self: int): (r: seq<Data>)
    ensures |r| == |inputs|
    ensures forall i :: 0 <= i < |inputs| ==>
      r[i] == Data(inputs[i].id, OwnerOf(owners, inputs[i].id, self), self, inputs[i].size as real)
  {
    if inputs == [] then []
    else
      var last := inputs[|inputs| - 1];
      DataOf(inputs[..|inputs| - 1], owners, self) + [Data(last.id, OwnerOf(owners, last.id, self), self, last.size as real)]
  }

  /**
   * An input's data entry names as its source the last task declaring the
   * file, whether that task comes before or after the consumer; an input no
   * task declares comes from the consumer itself.
   */
  lemma InputSourceIsLastDeclarer(ds: seq<TaskDecl>, i: int, j: int)
    requires 0 <= i < |ds| && 0 <= j < |ds[i].inputs|
    ensures var d, f := DataOf(ds[i].inputs, OwnersOf(ds), ds[i].taskId)[j], ds[i].inputs[j].id;
      && d.dstTaskId == ds[i].taskId && d.fileName == f
      && ((forall k :: 0 <= k < |ds| ==> !Declares(ds[k], f)) ==> d.srcTaskId == ds[i].taskId)
      && (forall k :: 0 <= k < |ds| && Declares(ds[k], f) && (forall l :: k < l < |ds| ==> !Declares(ds[l], f)) ==>
            d.srcTaskId == ds[k].taskId)
  {
    OwnerIsLastDeclarer(ds, ds[i].inputs[j].id);
  }

  /**
   * `neededFromParent` and the input data agree: each input is listed under
   * its data entry's source, and every source listed is the source of some
   * input; within a source the ids keep input order.
   */
  lemma NeededMatchesData(inputs: seq<File>, owners: map<string, int>, self: int, src: int)
    ensures var needed, data := Grouped(NeededPairs(inputs, owners, self)), DataOf(inputs, owners, self);
      && (src in needed <==> exists i :: 0 <= i < |inputs| && data[i].srcTaskId == src)
      && (src in needed ==> needed[src] == ValuesOf(NeededPairs(inputs, owners, self), src))
      && forall i :: 0 <= i < |inputs| && data[i].srcTaskId == src ==> src in needed && inputs[i].id in needed[src]
  {
    var pairs, data := NeededPairs(inputs, owners, self), DataOf(inputs, owners, self);
    GroupedIff(pairs, src);
    assert (exists i :: 0 <= i < |pairs| && pairs[i].0 == src) <==> exists i :: 0 <= i < |inputs| && data[i].srcTaskId == src by {
      if exists i :: 0 <= i < |pairs| && pairs[i].0 == src {
        var i :| 0 <= i < |pairs| && pairs[i].0 == src;
        assert data[i].srcTaskId == src;
      }
      if exists i :: 0 <= i < |inputs| && data[i].srcTaskId == src {
        var i :| 0 <= i < |inputs| && data[i].srcTaskId == src;
        assert pairs[i].0 == src;
      }
    }
    forall i | 0 <= i < |inputs| && DataOf(inputs, owners, self)[i].srcTaskId == src
      ensures inputs[i].id in Grouped(pairs)[src]
    {
      ValuesOfIff(pairs, src, inputs[i].id);
      assert pairs[i] == (src, inputs[i].id);
    }
  }

  // ---------------------------------------------------------------------
  // Reading and building

  lemma ClaimsStep(outputs: seq<File>, j: int, owner: int, base: map<string, int>)
    requires 0 <= j < |outputs|
    ensures base + Claims(outputs[..j + 1], owner) == (base + Claims(outputs[..j], owner))[outputs[j].id := owner]
  {
    assert outputs[..j + 1] == outputs[..j] + [outputs[j]];
  }

  lemma OwnersStep(ds: seq<TaskDecl>, i: int)
    requires 0 <= i < |ds|
    ensures OwnersOf(ds[..i + 1]) == OwnersOf(ds[..i]) + Claims(ds[i].outputs, ds[i].taskId)
  {
    assert ds[..i + 1][..i] == ds[..i];
  }

  /**
   * The task-object stream with its `forEach` over the output files: the
   * task records in order, and `fileToOwner` filled across all of them.
   */
  method ReadTaskInfos(ds: seq<TaskDecl>, workflowId: string, defaults: TaskDefaults)
    returns (infos: seq<TaskInfo>, fileToOwner: map<string, int>)
    ensures |infos| == |ds| && forall i :: 0 <= i < |ds| ==> infos[i] == InfoOf(ds[i], workflowId, defaults)
    ensures fileToOwner == OwnersOf(ds)
  {
    infos, fileToOwner := [], map[];
    for i := 0 to |ds|
      invariant |infos| == i && forall k :: 0 <= k < i ==> infos[k] == InfoOf(ds[k], workflowId, defaults)
      invariant fileToOwner == OwnersOf(ds[..i])
    {
      var t := ds[i];
      var fileMap;
      fileToOwner, fileMap := ReadOutputs(t.outputs, t.taskId, fileToOwner);
      OwnersStep(ds, i);
      var info := TaskInfo(t.taskId, t.runtime, t.pes.GetOr(defaults.pes), TotalSize(t.inputs, 0), TotalSize(t.outputs, 0),
                           t.inputs, t.outputs, t.deadLine.GetOr(defaults.deadLine), t.entryTime.GetOr(defaults.entryTime),
                           workflowId, FractionalSelectivity(t.selectivity.GetOr(1.0)),
                           PeriodicExecutionModel(t.executionPeriod.GetOr(1.0)),
                           t.ram.GetOr(0.0), t.bw.GetOr(0.0), t.vmId, fileMap);
      assert info == InfoOf(t, workflowId, defaults);
      infos := infos + [info];
    }
    assert ds[..|ds|] == ds;
  }

  /** The `forEach` over one task's output files: each is claimed by the task and sized in its file map. */
  method ReadOutputs(outputs: seq<File>, taskId: int, owners0: map<string, int>)
    returns (owners: map<string, int>, fileMap: map<string, int>)
    ensures owners == owners0 + Claims(outputs, taskId)
    ensures fileMap == FileMapOf(outputs)
  {
    owners, fileMap := owners0, map[];
    for j := 0 to |outputs|
      invariant owners == owners0 + Claims(outputs[..j], taskId)
      invariant fileMap == FileMapOf(outputs[..j])
    {
      var file := outputs[j];
      ClaimsStep(outputs, j, taskId, owners0);
      owners := owners[file.id := taskId];
      assert outputs[..j + 1][..j] == outputs[..j];
      fileMap := fileMap[file.id := file.size];
    }
    assert outputs[..|outputs|] == outputs;
  }

  /** A task as the reader builds it from its record, `owners` being the finished owner map. */
  ghost predicate BuiltFrom(t: Task, info: TaskInfo, owners: map<string, int>)
    reads t`selectivityModel, t`executionModel, t`ram, t`bw, t`fileMap, t`neededFromParent
    reads t`parents, t`children, t`cycle
  {
    && t.taskId == info.taskId && t.length == info.runtime && t.pes == info.pes
    && t.fileSize == info.inputFileSize && t.outputSize == info.outputFileSize
    && t.inputFiles == DataOf(info.inputFiles, owners, info.taskId)
    && t.deadLine == info.deadline && t.entryTime == info.entryTime && t.workflowId == info.workflowId
    && t.selectivityModel == info.selectivityModel && t.executionModel == info.executionModel
    && t.ram == Some(info.ram) && t.bw == Some(info.bw) && t.assignedVmId == info.vmId
    && t.fileMap == info.fileMap && t.neededFromParent == Grouped(NeededPairs(info.inputFiles, owners, info.taskId))
    && t.parents == {} && t.children == [] && t.cycle == 0
  }

  /** The loop building one new task per record, in record order. */
  method BuildTasks(infos: seq<TaskInfo>, owners: map<string, int>) returns (tasks: seq<Task>)
    ensures |tasks| == |infos|
    ensures forall i :: 0 <= i < |infos| ==> fresh(tasks[i]) && BuiltFrom(tasks[i], infos[i], owners)
    ensures forall i, j :: 0 <= i < j < |tasks| ==> tasks[i] != tasks[j]
  {
    tasks := [];
    for i := 0 to |infos|
      invariant |tasks| == i
      invariant forall k :: 0 <= k < i ==> fresh(tasks[k]) && BuiltFrom(tasks[k], infos[k], owners)
      invariant forall k, l :: 0 <= k < l < i ==> tasks[k] != tasks[l]
    {
      var task := BuildTask(infos[i], owners);
      tasks := tasks + [task];
    }
  }

  /** One iteration: the task built from one record, with its file map and needed files set. */
  method BuildTask(info: TaskInfo, owners: map<string, int>) returns (task: Task)
    ensures fresh(task) && BuiltFrom(task, info, owners)
  {
    var neededFiles := Group(NeededPairs(info.inputFiles, owners, info.taskId));
    var inputFiles := DataOf(info.inputFiles, owners, info.taskId);
    task := new Task.WithModels(info.taskId, info.runtime, info.pes, info.inputFileSize, info.outputFileSize,
                                inputFiles, info.deadline, info.entryTime, info.workflowId,
                                info.selectivityModel, info.executionModel,
                                Some(info.ram), Some(info.bw), info.vmId);
    task.SetFileMap(info.fileMap);
    task.SetNeededFromParent(neededFiles);
  }

  /** No two task objects of the workflow carry the same id. */
  predicate DistinctDeclIds(ds: seq<TaskDecl>)
  {
    forall i, j :: 0 <= i < j < |ds| ==> ds[i].taskId != ds[j].taskId
  }

  /** A workflow as the reader builds it from its document object. */
  ghost predicate ParsedFrom(wf: Workflow, w: WorkflowDecl, defaults: TaskDefaults)
    reads set i | 0 <= i < |wf.tasks| :: wf.tasks[i]
  {
    && wf.workflowId == w.workflowId && |wf.tasks| == |w.tasks|
    && forall i :: 0 <= i < |w.tasks| ==> BuiltFrom(wf.tasks[i], InfoOf(w.tasks[i], w.workflowId, defaults), OwnersOf(w.tasks))
  }

  /**
   * One workflow object: its tasks built in document order and indexed by
   * id; a repeated task id makes the id index (and so the reader) fail.
   */
  method ParseWorkflow(w: WorkflowDecl, defaults: TaskDefaults) returns (r: Option<Workflow>)
    ensures r.Some? <==> DistinctDeclIds(w.tasks)
    ensures r.Some? ==> ParsedFrom(r.value, w, defaults) && forall i :: 0 <= i < |r.value.tasks| ==> fresh(r.value.tasks[i])
  {
    var infos, fileToOwner := ReadTaskInfos(w.tasks, w.workflowId, defaults);
    var tasks := BuildTasks(infos, fileToOwner);
    assert forall i :: 0 <= i < |tasks| ==> tasks[i].taskId == w.tasks[i].taskId;
    assert DistinctIds(tasks) <==> DistinctDeclIds(w.tasks);
    r := NewWorkflow(tasks, w.workflowId);
  }

  /** `parse`: every workflow object in document order; any failing one fails the whole read. */
  method Parse(ws: seq<WorkflowDecl>, defaults: TaskDefaults) returns (r: Option<seq<Workflow>>)
    ensures r.Some? <==> forall k :: 0 <= k < |ws| ==> DistinctDeclIds(ws[k].tasks)
    ensures r.Some? ==> |r.value| == |ws| && forall k :: 0 <= k < |ws| ==> ParsedFrom(r.value[k], ws[k], defaults)
  {
    var done: seq<Workflow> := [];
    for k := 0 to |ws|
      invariant |done| == k && forall l :: 0 <= l < k ==> DistinctDeclIds(ws[l].tasks) && ParsedFrom(done[l], ws[l], defaults)
    {
      var wf := ParseWorkflow(ws[k], defaults);
      if wf.None? {
        return None;
      }
      done := done + [wf.value];
    }
    r := Some(done);
  }
}

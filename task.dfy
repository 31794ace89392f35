/**
 * A workflow task (widesim/computation/Task.java), a CloudSim cloudlet with
 * workflow fields. Each cycle of a periodic task is a separate Task object;
 * the copies share, by reference, the generated-data memo, the timestamp
 * table and the failure history.
 */
module Tasks {
  import opened Wrappers
  import opened TaskStates
  import PeriodicExecution

  /** A file this task reads: produced by `srcTaskId` (or the task itself) for `dstTaskId`. */
  datatype Data = Data(fileName: string, srcTaskId: int, dstTaskId: int, size: real)

  /** Decides per cycle whether a task produces output: a uniform draw at most `fraction`. */
  datatype SelectivityModel = FractionalSelectivity(fraction: real)
  {
    /** `random.nextDouble() <= fraction`, the draw being given. */
    function GenerateData(draw: real): (r: bool)
      ensures r <==> draw <= fraction
    {
      draw <= fraction
    }
  }

  datatype ExecutionModel = PeriodicExecutionModel(t: real)
  {
    function NextExecutionTime(clock: real): (r: real)
      requires t != 0.0
      ensures t > 0.0 ==> clock <= r < clock + t
      ensures (r / t).Floor as real == r / t
    {
      PeriodicExecution.NextExecutionTime(t, clock)
    }
  }

  /** CloudSim's cloudlet status codes. */
  datatype CloudletStatus =
    | Created | Ready | Queued | InExec | Success | Paused | Resumed | Canceled | Failed | FailedResourceUnavailable

  /** The `HashMap<Integer, Boolean>` cycle-to-generated-data memo. */
  class GeneratedData {
    var decided: map<int, bool>

    constructor()
      ensures decided == map[]
    {
      decided := map[];
    }
  }

  /** The `ArrayList<Double>` of times at which executions of the task failed. */
  class FailedExecutions {
    var times: seq<real>

    constructor()
      ensures times == []
    {
      times := [];
    }
  }

  /**
   * `computeIfAbsent(cycle, draw)` on the memo: the first decision for a cycle
   * sticks, later draws are ignored.
   */
  function Decide(decided: map<int, bool>, cycle: int, draw: bool): (r: (map<int, bool>, bool))
    ensures cycle in r.0 && r.0[cycle] == r.1
    ensures cycle in decided ==> r.0 == decided && r.1 == decided[cycle]
    ensures cycle !in decided ==> r.0 == decided[cycle := draw] && r.1 == draw
  {
    if cycle in decided then (decided, decided[cycle]) else (decided[cycle := draw], draw)
  }

  /** Once decided, asking again for the same cycle gives the same answer whatever the new draw. */
  lemma DecisionIsStable(decided: map<int, bool>, cycle: int, d1: bool, d2: bool)
    ensures Decide(Decide(decided, cycle, d1).0, cycle, d2) == Decide(decided, cycle, d1)
  {
  }

  function SumSizes(files: seq<Data>): (r: real)
    ensures (forall i :: 0 <= i < |files| ==> files[i].size >= 0.0) ==> r >= 0.0
  {
    if files == [] then 0.0 else SumSizes(files[..|files| - 1]) + files[|files| - 1].size
  }

  /** `reduce(0.0, Double::sum)` over the sizes adds up concatenations piecewise. */
  lemma {:induction false} SumSizesAppend(a: seq<Data>, b: seq<Data>)
    ensures SumSizes(a + b) == SumSizes(a) + SumSizes(b)
    decreases |b|
  {
    if b == [] {
      assert a + b == a;
    } else {
      var b' := b[..|b| - 1];
      assert (a + b)[..|a + b| - 1] == a + b';
      SumSizesAppend(a, b');
    }
  }

  class Task {
    // Cloudlet fields the model uses; CloudSim never changes them for a task.
    const taskId: int
    const length: int
    const pes: int
    const fileSize: int
    const outputSize: int
    // Final fields of Task.
    const assignedVmId: Option<int>
    const inputFiles: seq<Data>
    const deadLine: real
    const entryTime: real
    const workflowId: string

    var ram: Option<real>
    var bw: Option<real>
    var children: seq<int>
    var parents: set<int>
    var selectivityModel: SelectivityModel
    var cycleToGeneratedData: GeneratedData
    var executionModel: ExecutionModel
    var cycle: nat
    var taskState: TaskState
    var fileMap: map<string, int>
    var neededFromParent: map<int, seq<string>>
    var failedExecutions: FailedExecutions

    // Cloudlet state set by the simulation.
    var userId: int
    var vmId: int
    var status: CloudletStatus
    var execStartTime: real
    var finishTime: real
    var finishedSoFar: int

    /**
     * The 13-argument constructor: selectivity 0.5, period 1, no pinned VM,
     * no RAM or bandwidth, and the failure history passed in.
     */
    constructor Basic(taskId: int, length: int, pes: int, fileSize: int, outputSize: int,
                      inputFiles: seq<Data>, deadLine: real, entryTime: real, workflowId: string,
                      failedExecutions: FailedExecutions)
      ensures this.taskId == taskId && this.length == length && this.pes == pes
      ensures this.fileSize == fileSize && this.outputSize == outputSize
      ensures this.inputFiles == inputFiles && this.deadLine == deadLine
      ensures this.entryTime == entryTime && this.workflowId == workflowId
      ensures parents == {} && children == [] && cycle == 0
      ensures selectivityModel == FractionalSelectivity(0.5) && executionModel == PeriodicExecutionModel(1.0)
      ensures fresh(cycleToGeneratedData) && cycleToGeneratedData.decided == map[]
      ensures fresh(taskState) && taskState.states == map[]
      ensures ram == None && bw == None && assignedVmId == None
      ensures this.failedExecutions == failedExecutions
      ensures fileMap == map[] && neededFromParent == map[]
      ensures userId == -1 && vmId == -1 && status == Created
      ensures execStartTime == 0.0 && finishTime == -1.0 && finishedSoFar == 0
    {
      this.taskId := taskId;
      this.length := length;
      this.pes := pes;
      this.fileSize := fileSize;
      this.outputSize := outputSize;
      this.inputFiles := inputFiles;
      this.deadLine := deadLine;
      this.workflowId := workflowId;
      this.entryTime := entryTime;
      this.assignedVmId := None;
      parents := {};
      children := [];
      cycle := 0;
      selectivityModel := FractionalSelectivity(0.5);
      cycleToGeneratedData := new GeneratedData();
      executionModel := PeriodicExecutionModel(1.0);
      taskState := new TaskState();
      ram := None;
      bw := None;
      this.failedExecutions := failedExecutions;
      fileMap := map[];
      neededFromParent := map[];
      userId := -1;
      vmId := -1;
      status := Created;
      execStartTime := 0.0;
      finishTime := -1.0;
      finishedSoFar := 0;
    }

    /** The 17-argument constructor used by the parsers: models and pinning given, fresh failure history. */
    constructor WithModels(taskId: int, length: int, pes: int, fileSize: int, outputSize: int,
                           inputFiles: seq<Data>, deadLine: real, entryTime: real, workflowId: string,
                           selectivityModel: SelectivityModel, executionModel: ExecutionModel,
                           ram: Option<real>, bw: Option<real>, assignedVmId: Option<int>)
      ensures this.taskId == taskId && this.length == length && this.pes == pes
      ensures this.fileSize == fileSize && this.outputSize == outputSize
      ensures this.inputFiles == inputFiles && this.deadLine == deadLine
      ensures this.entryTime == entryTime && this.workflowId == workflowId
      ensures parents == {} && children == [] && cycle == 0
      ensures this.selectivityModel == selectivityModel && this.executionModel == executionModel
      ensures fresh(cycleToGeneratedData) && cycleToGeneratedData.decided == map[]
      ensures fresh(taskState) && taskState.states == map[]
      ensures this.ram == ram && this.bw == bw && this.assignedVmId == assignedVmId
      ensures fresh(failedExecutions) && failedExecutions.times == []
      ensures fileMap == map[] && neededFromParent == map[]
      ensures userId == -1 && vmId == -1 && status == Created
      ensures execStartTime == 0.0 && finishTime == -1.0 && finishedSoFar == 0
    {
      this.taskId := taskId;
      this.length := length;
      this.pes := pes;
      this.fileSize := fileSize;
      this.outputSize := outputSize;
      this.inputFiles := inputFiles;
      this.deadLine := deadLine;
      this.workflowId := workflowId;
      this.entryTime := entryTime;
      this.assignedVmId := assignedVmId;
      parents := {};
      children := [];
      cycle := 0;
      cycleToGeneratedData := new GeneratedData();
      taskState := new TaskState();
      this.selectivityModel := selectivityModel;
      this.executionModel := executionModel;
      this.ram := ram;
      this.bw := bw;
      failedExecutions := new FailedExecutions();
      fileMap := map[];
      neededFromParent := map[];
      userId := -1;
      vmId := -1;
      status := Created;
      execStartTime := 0.0;
      finishTime := -1.0;
      finishedSoFar := 0;
    }

    method SetParents(ids: set<int>)
      modifies this`parents
      ensures parents == ids
    {
      parents := ids;
    }

    method SetChildren(ids: seq<int>)
      modifies this`children
      ensures children == ids
    {
      children := ids;
    }

    method SetFileMap(m: map<string, int>)
      modifies this`fileMap
      ensures fileMap == m
    {
      fileMap := m;
    }

    method SetNeededFromParent(m: map<int, seq<string>>)
      modifies this`neededFromParent
      ensures neededFromParent == m
    {
      neededFromParent := m;
    }

    method AddParentId(parentId: int)
      modifies this`parents
      ensures parents == old(parents) + {parentId}
    {
      parents := parents + {parentId};
    }

    method SetUserId(id: int)
      modifies this`userId
      ensures userId == id
    {
      userId := id;
    }

    method SetVmId(id: int)
      modifies this`vmId
      ensures vmId == id
    {
      vmId := id;
    }

    method GoToNextCycle()
      modifies this`cycle
      ensures cycle == old(cycle) + 1
    {
      cycle := cycle + 1;
    }

    /** `getParents().size() == 0`. */
    predicate IsRoot()
      reads this
    {
      |parents| == 0
    }

    lemma RootHasNoParents()
      ensures IsRoot() <==> parents == {}
    {
    }

    /** The summed size of the input files. */
    function TotalInputDataSize(): (r: real)
      ensures (forall i :: 0 <= i < |inputFiles| ==> inputFiles[i].size >= 0.0) ==> r >= 0.0
    {
      SumSizes(inputFiles)
    }

    /** `getOrDefault(cycle, null)`: the recorded decision, if any. */
    function DidYouGenerateData(c: int): (r: Option<bool>)
      reads this, cycleToGeneratedData
      ensures r.Some? <==> c in cycleToGeneratedData.decided
      ensures r.Some? ==> r.value == cycleToGeneratedData.decided[c]
    {
      if c in cycleToGeneratedData.decided then Some(cycleToGeneratedData.decided[c]) else None
    }

    /** `neededFromParent.get(parentId)`: the files wanted from that parent, or null. */
    function NeededFrom(parentId: int): (r: Option<seq<string>>)
      reads this
      ensures r.Some? <==> parentId in neededFromParent
      ensures r.Some? ==> r.value == neededFromParent[parentId]
    {
      if parentId in neededFromParent then Some(neededFromParent[parentId]) else None
    }

    /** `fileMap.get(name)` unboxed; an unknown file is a NullPointerException. */
    function GetFileSize(name: string): (r: int)
      reads this
      requires name in fileMap
      ensures r == fileMap[name]
    {
      fileMap[name]
    }

    function GetNextTimeExecution(clock: real): (r: real)
      reads this
      requires executionModel.t != 0.0
      ensures executionModel.t > 0.0 ==> clock <= r < clock + executionModel.t
    {
      executionModel.NextExecutionTime(clock)
    }

    /**
     * Decides for a cycle whether this task generates data; the first decision
     * is memoised in the memo shared by all cycle copies. `draw` is the
     * selectivity model's random number.
     */
    method WantToGenerateData(c: int, draw: real) returns (r: bool)
      modifies cycleToGeneratedData`decided
      ensures (cycleToGeneratedData.decided, r)
           == Decide(old(cycleToGeneratedData.decided), c, selectivityModel.GenerateData(draw))
    {
      if c !in cycleToGeneratedData.decided {
        cycleToGeneratedData.decided := cycleToGeneratedData.decided[c := selectivityModel.GenerateData(draw)];
      }
      r := cycleToGeneratedData.decided[c];
    }

    /** Records to the shared failure history. */
    method AddFailedExecution(time: real)
      modifies failedExecutions
      ensures failedExecutions.times == old(failedExecutions.times) + [time]
    {
      failedExecutions.times := failedExecutions.times + [time];
    }

    /**
     * The next cycle's copy: a new Task from the 13-argument constructor (so
     * the pinned VM, RAM and bandwidth are lost), one cycle further, sharing
     * this task's memo, timestamp table and failure history.
     */
    method GetNextCycle() returns (t: Task)
      ensures fresh(t)
      ensures t.taskId == taskId && t.length == length && t.pes == pes
      ensures t.fileSize == fileSize && t.outputSize == outputSize
      ensures t.inputFiles == inputFiles && t.deadLine == deadLine
      ensures t.entryTime == entryTime && t.workflowId == workflowId
      ensures t.cycle == cycle + 1
      ensures t.cycleToGeneratedData == cycleToGeneratedData
      ensures t.taskState == taskState
      ensures t.failedExecutions == failedExecutions
      ensures t.userId == userId && t.vmId == vmId
      ensures t.parents == parents && t.children == children
      ensures t.selectivityModel == selectivityModel && t.executionModel == executionModel
      ensures t.fileMap == fileMap && t.neededFromParent == neededFromParent
      ensures t.assignedVmId == None && t.ram == None && t.bw == None
      ensures t.status == Created && t.execStartTime == 0.0 && t.finishTime == -1.0
    {
      t := new Task.Basic(taskId, length, pes, fileSize, outputSize, inputFiles, deadLine,
                          entryTime, workflowId, failedExecutions);
      t.AdoptCycleState(this);
      t.GoToNextCycle();
    }

    /** The setter calls of `getNextCycle` that hand this copy the source task's state. */
    method AdoptCycleState(src: Task)
      requires src != this
      modifies this`userId, this`vmId, this`parents, this`children, this`selectivityModel,
               this`cycleToGeneratedData, this`cycle, this`executionModel, this`taskState,
               this`fileMap, this`neededFromParent
      ensures userId == src.userId && vmId == src.vmId
      ensures parents == src.parents && children == src.children
      ensures selectivityModel == src.selectivityModel && cycleToGeneratedData == src.cycleToGeneratedData
      ensures cycle == src.cycle && executionModel == src.executionModel && taskState == src.taskState
      ensures fileMap == src.fileMap && neededFromParent == src.neededFromParent
    {
      userId := src.userId;
      vmId := src.vmId;
      parents := src.parents;
      children := src.children;
      selectivityModel := src.selectivityModel;
      cycleToGeneratedData := src.cycleToGeneratedData;
      cycle := src.cycle;
      executionModel := src.executionModel;
      taskState := src.taskState;
      fileMap := src.fileMap;
      neededFromParent := src.neededFromParent;
    }
  }
}

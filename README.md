# WIDESim core in Dafny

A model of the core of WIDESim, a CloudSim-based simulator of periodic
workflows on fog devices, together with proofs about that model. The
simulation kernel (CloudSim's event queue and clock) is not modelled: each
simulation entity is a Dafny class whose handlers append the events they send
to an `outbox` field. The clock, random draws and the results of CloudSim
calls are passed in as parameters.

What is modelled, module by module:

- `TaskStates`, `Tasks`, `PeriodicExecution` and `Workflows`:
  - the per-cycle timestamp table a task keeps;
  - the task itself, with its selectivity and periodic execution models;
  - the per-cycle memo of data decisions and the failure history, which the
    copy made for the next cycle (`getNextCycle`) shares with the original;
  - the workflow's id index.
- `FailureConfig` and `FailureGeneration`: the failure configuration
  (`FailureParameters`) and the failure generator's window scan over ascending
  failure samples.
- `SimpleTaskToVm`, `FcfsTaskToVm`, `SimpleVmToFogDevice` and
  `SimpleProvisioner`: the task-to-VM mappers, the VM-to-device mapper and the
  default provisioner.
- `TaskManagers`: the task manager, which sorts every workflow's tasks by entry
  time and schedules one INCOMING_TASK per task.
- `WorkflowEngines`: the workflow engine. It holds a task back until all its
  parents have completed, and re-admits a failed task.
- `FogDevices`: the fog device's handlers. These cover:
  - the up- and down-link queues that serialise transfers;
  - forwarding over the routing table;
  - the waiting list, where a task waits for data from every parent;
  - the release of waiting tasks when data, or a "no data" report, arrives.
- `FogBrokers`: the broker, which:
  - asks devices for resources and places and creates VMs;
  - dispatches queued tasks on created VMs, with stage-out requests to their
    parents' devices;
  - records completions, stages data out to dispatched children, and starts
    a new round when every dispatched task has completed.
- `Messages`: the event and message types shared by these entities.
- `TopologyPostProcessing`: the post-processing of the misty topology reader.
  It connects hosts to their devices, builds the neighbour graph and installs
  routes.
- `ParsedFiles`, `WorkflowParsing` and `DaxParsing`: what the JSON workflow
  reader and the DAX reader derive once a document has been read. This covers:
  - the file owners, file maps and size totals;
  - the needed files grouped by source;
  - the data entries;
  - the parent and child links;
  - the rules for turning DAX ids and runtimes into numbers.

A Java `NullPointerException` or other throw is modelled in one of three ways:
- as `None` in a value-level function;
- as a `crashed` result in a handler;
- as a `requires` clause, for a handler whose crash needs a state the
  simulation never reaches (see "Left out").

## Model

| member | source | states |
|---|---|---|
| TaskStates.Recorded | src/main/java/misty/computation/TaskState.java:12-46 | one setter call on the cycle table: the cycle becomes a key (its record created all-zero when absent, as `new State()` at lines 69-71) and the chosen timestamp holds the new time |
| TaskStates.RecordedKeepsOthers | src/main/java/misty/computation/TaskState.java:12-46 | a setter changes only its own timestamp of its own cycle: the other five keep their values (zero on a fresh record) and every other cycle is unchanged |
| TaskStates.LastWriteWins | src/main/java/misty/computation/TaskState.java:12-46 | setting the same timestamp of the same cycle twice leaves the table as the second call alone would |
| TaskStates.WritesCommute | src/main/java/misty/computation/TaskState.java:12-46 | setter calls on different timestamps or different cycles can be swapped without changing the table |
| TaskStates.WithKeepsOthers | src/main/java/misty/computation/TaskState.java:15 | overwriting one field of a record leaves the other five as they were |
| TaskStates.RecordedAllCases | src/main/java/misty/computation/TaskState.java:12-46 | a batch of setter calls with one time: each cycle of the batch has the chosen timestamps set on its old or fresh record, other cycles are untouched |
| TaskStates.RecordedAllExtend | src/main/java/misty/computation/TaskState.java:12-46 | two setter calls on one more cycle extend a batch of such writes by that cycle |
| TaskStates.RecordedIsBatchOfOne | src/main/java/misty/computation/TaskState.java:12-46 | one setter call is a batch of one write |
| TaskStates.RecordedAllAddStamp | src/main/java/misty/computation/TaskState.java:12-46 | a further setter call on the same cycle and time adds its timestamp to the batch |
| TaskStates.TaskState.constructor | src/main/java/misty/computation/TaskState.java:8-10 | a new store holds no cycle |
| TaskStates.TaskState.SetEnterBrokerWaitingQueue | src/main/java/misty/computation/TaskState.java:12-16 | the table becomes `Recorded` of the old table for this cycle, timestamp and time |
| TaskStates.TaskState.SetExitBrokerWaitingQueue | src/main/java/misty/computation/TaskState.java:18-22 | the table becomes `Recorded` of the old table for this cycle, timestamp and time |
| TaskStates.TaskState.SetEnterFogDeviceWaitingQueue | src/main/java/misty/computation/TaskState.java:24-28 | the table becomes `Recorded` of the old table for this cycle, timestamp and time |
| TaskStates.TaskState.SetExitFogDeviceWaitingQueue | src/main/java/misty/computation/TaskState.java:30-34 | the table becomes `Recorded` of the old table for this cycle, timestamp and time |
| TaskStates.TaskState.SetStartExecutionTime | src/main/java/misty/computation/TaskState.java:36-40 | the table becomes `Recorded` of the old table for this cycle, timestamp and time |
| TaskStates.TaskState.SetEndExecutionTime | src/main/java/misty/computation/TaskState.java:42-46 | the table becomes `Recorded` of the old table for this cycle, timestamp and time |
| TaskStates.TaskState.GetState | src/main/java/misty/computation/TaskState.java:48-50 | absent (null) exactly for a cycle never written, otherwise that cycle's record |
| TaskStates.TaskState.Record | src/main/java/misty/computation/TaskState.java:12-46 | the shared body of the six setters: the table becomes `Recorded` of the old table for the cycle, timestamp and time |
| PeriodicExecution.Ceil | src/main/java/widesim/computation/PeriodicExecutionModel.java:12 | `Math.ceil` on exact reals: the least integer not below its argument |
| PeriodicExecution.NextExecutionTime | src/main/java/widesim/computation/PeriodicExecutionModel.java:11-13 | the result is a whole number of periods; for a positive period it lies in [clock, clock + t), for a negative one in (clock + t, clock] |
| PeriodicExecution.NextExecutionTimeIsIdempotent | src/main/java/widesim/computation/PeriodicExecutionModel.java:12 | a time that is already a next execution time is its own next execution time |
| Tasks.SelectivityModel.GenerateData | src/main/java/widesim/computation/Task.java:215 | the selectivity model says "generate" exactly when the given uniform draw is at most its fraction |
| Tasks.ExecutionModel.NextExecutionTime | src/main/java/widesim/computation/Task.java:224-226 | the next execution time of a positive period lies in [clock, clock + t) and is a whole number of periods |
| Tasks.Decide | src/main/java/widesim/computation/Task.java:214-218 | `computeIfAbsent` on the memo: a decided cycle keeps its table and answer, an undecided one is recorded with the new draw, and the answer is what the table now holds |
| Tasks.DecisionIsStable | src/main/java/widesim/computation/Task.java:214-218 | asking a second time for the same cycle returns the first answer whatever the new draw |
| Tasks.SumSizes | src/main/java/widesim/computation/Task.java:141-143 | the summed size of non-negative input files is non-negative |
| Tasks.SumSizesAppend | src/main/java/widesim/computation/Task.java:141-143 | the summed size of two lists of files put together is the sum of their sums |
| Tasks.Task.Basic | src/main/java/widesim/computation/Task.java:43-64 | the 13-argument constructor: fields as given, no parents, cycle 0, selectivity 0.5, period 1, fresh memo and timestamp table, no pinned VM, RAM or bandwidth, the failure history passed in |
| Tasks.Task.WithModels | src/main/java/widesim/computation/Task.java:66-89 | the 17-argument constructor: fields, models and pinning as given, no parents, cycle 0, fresh memo, timestamp table and failure history |
| Tasks.Task.SetParents | src/main/java/widesim/computation/Task.java:157-159 | replaces the parent set and nothing else |
| Tasks.Task.SetChildren | src/main/java/widesim/computation/Task.java:161-163 | replaces the child list and nothing else |
| Tasks.Task.SetFileMap | src/main/java/widesim/computation/Task.java:35-37 | replaces the file map and nothing else |
| Tasks.Task.SetNeededFromParent | src/main/java/widesim/computation/Task.java:39-41 | replaces the needed-from-parent map and nothing else |
| Tasks.Task.AddParentId | src/main/java/widesim/computation/Task.java:133-135 | adds the id to the parent set (so adding it again changes nothing) |
| Tasks.Task.GoToNextCycle | src/main/java/widesim/computation/Task.java:153-155 | the cycle grows by one and nothing else changes |
| Tasks.Task.RootHasNoParents | src/main/java/widesim/computation/Task.java:236-238 | a task is a root exactly when its parent set is empty |
| Tasks.Task.TotalInputDataSize | src/main/java/widesim/computation/Task.java:141-143 | never negative when no input size is |
| Tasks.Task.DidYouGenerateData | src/main/java/widesim/computation/Task.java:220-222 | null exactly for an undecided cycle, otherwise the memoised decision |
| Tasks.Task.NeededFrom | src/main/java/widesim/computation/Task.java:232-234 | null exactly for a parent with no entry, otherwise the files listed for it |
| Tasks.Task.GetFileSize | src/main/java/widesim/computation/Task.java:228-230 | the size recorded for a file that is in the map (an unknown file throws, so the map must hold it) |
| Tasks.Task.GetNextTimeExecution | src/main/java/widesim/computation/Task.java:224-226 | for a positive period, the result lies in [clock, clock + t) |
| Tasks.Task.WantToGenerateData | src/main/java/widesim/computation/Task.java:214-218 | memo and answer are `Decide` of the old memo with the selectivity model's decision for the draw: the model is consulted only on the first call for a cycle |
| Tasks.Task.AddFailedExecution | src/main/java/widesim/computation/Task.java:260-262 | appends the time to the failure history shared by all cycle copies |
| Tasks.Task.GetNextCycle | src/main/java/widesim/computation/Task.java:189-212 | a new task one cycle further with the same id, length, sizes, inputs, user, VM, parents, children, models, file map and needed-from map; it shares the memo, timestamp table and failure history objects, and has no pinned VM, RAM or bandwidth |
| Tasks.Task.AdoptCycleState | src/main/java/widesim/computation/Task.java:197-207 | the setter calls hand the copy the source task's user, VM, links, models, memo, cycle, timestamp table and maps |
| Tasks.Task.SetUserId | src/main/java/widesim/computation/Task.java:197 | only the user id changes, to the given one |
| Tasks.Task.SetVmId | src/main/java/widesim/computation/Task.java:198 | only the VM id changes, to the given one |
| Workflows.TaskMapOf | src/main/java/widesim/computation/Workflow.java:14 | the id index exists exactly when no two tasks share an id; its keys are the task ids and each id maps to the task carrying it |
| Workflows.NewWorkflow | src/main/java/widesim/computation/Workflow.java:12-16 | construction succeeds exactly when the ids are distinct, and keeps the task list in the given order and the workflow id unchanged |
| Workflows.GetTask | src/main/java/widesim/computation/Workflow.java:26-28 | null exactly for an id not in the index, otherwise the indexed task |
| Workflows.GetTaskFindsListedTask | src/main/java/widesim/computation/Workflow.java:14-28 | in a constructed workflow a lookup succeeds exactly for a listed id and returns the listed task carrying it |
| FailureConfig.DistributionGenerator.constructor | src/main/java/widesim/failure/FailureGenerator.java:86 | a generator starts with its family and ascending samples, its cursor at the first sample |
| FailureConfig.DistributionGenerator.GetNextSample | src/main/java/widesim/failure/FailureGenerator.java:104-106 | drawing the current failure advances the cursor by exactly one |
| FailureConfig.Lookup | src/main/java/widesim/failure/FailureParameters.java:127-129 | `generators[vmIndex][taskDepth]` is defined exactly when the table, the row and both indices are valid, and is then that element |
| FailureConfig.MaxFirstIndexOf | src/main/java/widesim/failure/FailureParameters.java:98-104 | INVALID exactly for a null or empty table, otherwise the (positive) number of rows |
| FailureConfig.MaxSecondIndexAsWrittenOf | src/main/java/widesim/failure/FailureParameters.java:110-118 | as written: throws exactly for a null or empty table; otherwise INVALID exactly when row 0 is null or empty, and its length otherwise |
| FailureConfig.MaxSecondIndexOf | src/main/java/widesim/failure/FailureParameters.java:110-118 | corrected: INVALID exactly when the first dimension is invalid or row 0 is null or empty, otherwise the length of row 0 |
| FailureConfig.MaxSecondIndexMatchesAsWrittenOnValidTables | src/main/java/widesim/failure/FailureParameters.java:110-118 | the as-written query returns exactly when the first dimension is valid, and then agrees with the corrected one |
| FailureConfig.MaxSecondIndexThrowsOnNullTable | src/main/java/widesim/failure/FailureParameters.java:112-113 | on a null table the as-written query throws where INVALID was meant |
| FailureConfig.GetDistribution | src/main/java/widesim/failure/FailureGenerator.java:29-49 | the distribution belongs to the configured family, its scale (mean, for the normal) is 1/alpha and its shape (deviation) is beta |
| FailureConfig.FailureParameters.constructor | src/main/java/widesim/failure/FailureParameters.java:38-47 | the defaults: no monitoring, no failure, Weibull, no table |
| FailureConfig.FailureParameters.Init | src/main/java/widesim/failure/FailureParameters.java:61-65 | sets the two modes and the table and keeps the distribution |
| FailureConfig.FailureParameters.InitWithDistribution | src/main/java/widesim/failure/FailureParameters.java:75-79 | sets the distribution, the two modes and the table |
| FailureConfig.FailureParameters.GetGenerator | src/main/java/widesim/failure/FailureParameters.java:127-129 | the table element at (vmIndex, taskDepth), or a throw |
| FailureConfig.FailureParameters.GetFailureGeneratorsMaxFirstIndex | src/main/java/widesim/failure/FailureParameters.java:98-104 | INVALID exactly for a null or empty table |
| FailureConfig.FailureParameters.GetFailureGeneratorsMaxSecondIndex | src/main/java/widesim/failure/FailureParameters.java:110-118 | corrected: INVALID exactly when the first dimension is invalid or row 0 is null or empty |
| FailureConfig.FailureParameters.SelectedGenerator | src/main/java/widesim/failure/FailureGenerator.java:64-81 | the generator at (vmIndex, 0), present exactly when reading it neither throws nor yields null |
| FailureGeneration.GeneratorIndex | src/main/java/widesim/failure/FailureGenerator.java:64-81 | FAILURE_ALL consults row 0, FAILURE_VM consults row vmId, and any other mode consults nothing (no failure) |
| FailureGeneration.ScanFrom | src/main/java/widesim/failure/FailureGenerator.java:98-111 | the scan from an index reports a failure only if some later sample lies within [start, end] |
| FailureGeneration.FailsInWindow | src/main/java/widesim/failure/FailureGenerator.java:98-111 | the scan from index 0 reports a failure only if some sample lies within [start, end] |
| FailureGeneration.FailsInWindowIffSampleInWindow | src/main/java/widesim/failure/FailureGenerator.java:98-109 | on ascending samples the scan reports a failure exactly when some sample lies within [start, end] |
| FailureGeneration.CheckFailureStatus | src/main/java/widesim/failure/FailureGenerator.java:62-112 | a mode that never fails reports false; a missing or null generator throws; otherwise the result is the window scan over that generator's samples, and a failure advances its cursor exactly once |
| FailureGeneration.TaskFails | src/main/java/widesim/failure/FailureGenerator.java:122-147 | the task fails exactly when failures are enabled and the failure status came back true (a status lookup that throws never fails it) |
| FailureGeneration.Generate | src/main/java/widesim/failure/FailureGenerator.java:122-148 | FAILURE_NONE returns false and leaves the task untouched; otherwise a failing task becomes FAILED with nothing finished, any other becomes SUCCESS, and a throwing check leaves the status alone and returns false |
| SimpleTaskToVm.JavaRem | src/main/java/widesim/mapper/SimpleTaskToVmMapper.java:28 | Java's truncating remainder: the Euclidean one for a non-negative dividend, a value in (-n, 0] for a negative one |
| SimpleTaskToVm.Choice | src/main/java/widesim/mapper/SimpleTaskToVmMapper.java:25-30 | a pinned task keeps its assigned VM; an unpinned one goes to one of the created VMs, and the lookup throws exactly when its id's remainder is negative |
| SimpleTaskToVm.Fold | src/main/java/widesim/mapper/SimpleTaskToVmMapper.java:22-32 | the loop succeeds exactly when no queued task's choice throws, and then maps exactly the queued task ids |
| SimpleTaskToVm.FoldLastOccurrenceWins | src/main/java/widesim/mapper/SimpleTaskToVmMapper.java:26-30 | a task id is mapped to the choice of its last queued occurrence (`put` replaces) |
| SimpleTaskToVm.FoldValuesComeFromQueue | src/main/java/widesim/mapper/SimpleTaskToVmMapper.java:22-32 | every mapped id belongs to some queued task and carries that task's choice |
| SimpleTaskToVm.Assignment | src/main/java/widesim/mapper/SimpleTaskToVmMapper.java:19-35 | with no created VM the mapping is empty; otherwise it is the loop over the queue |
| SimpleTaskToVm.AssignmentCoversQueue | src/main/java/widesim/mapper/SimpleTaskToVmMapper.java:18-33 | once a VM exists, every queued task is mapped, and only queued tasks: to its pinned VM, or else to some created VM |
| SimpleTaskToVm.Map | src/main/java/widesim/mapper/SimpleTaskToVmMapper.java:14-36 | the mapper's loop computes the assignment, ignoring failed VMs and the other inputs |
| SimpleTaskToVm.PrefixFailureIsFinal | src/main/java/widesim/mapper/SimpleTaskToVmMapper.java:28-30 | once a queued task makes the lookup throw, the whole call throws |
| FcfsTaskToVm.FirstFree | src/main/java/widesim/mapper/FCFSTaskToVMMapper.java:31-40 | the first created VM not in use, or none exactly when all are in use |
| FcfsTaskToVm.Run | src/main/java/widesim/mapper/FCFSTaskToVMMapper.java:25-45 | each task given a VM is unpinned and gets a created VM that was free and is now used; the used set only grows, and only by VMs given out; no VM is given twice |
| FcfsTaskToVm.NoVmHandedOutTwice | src/main/java/widesim/mapper/FCFSTaskToVMMapper.java:33-37 | two distinct tasks never receive the same VM in one call |
| FcfsTaskToVm.FcfsMapper.constructor | src/main/java/widesim/mapper/FCFSTaskToVMMapper.java:12-14 | a new mapper has no VM in use |
| FcfsTaskToVm.FcfsMapper.ReleaseVM | src/main/java/widesim/mapper/FCFSTaskToVMMapper.java:16-18 | releasing removes exactly that VM from the used set |
| FcfsTaskToVm.FcfsMapper.Map | src/main/java/widesim/mapper/FCFSTaskToVMMapper.java:21-47 | the returned mapping, the new used set and every queued task's VM id are those of the first-come-first-served run over the queue, stopping at the first unpinned task that finds no free VM |
| FcfsTaskToVm.FcfsMapper.FindUnused | src/main/java/widesim/mapper/FCFSTaskToVMMapper.java:31-40 | the inner loop finds a VM exactly when one is free, and then the first free one |
| FcfsTaskToVm.FirstUnusedIsFirstFree | src/main/java/widesim/mapper/FCFSTaskToVMMapper.java:31-40 | a free VM all of whose predecessors are in use is the first free VM |
| FcfsTaskToVm.VmAfterIgnoresUngiven | src/main/java/widesim/mapper/FCFSTaskToVMMapper.java:36 | tasks that were given no VM leave every task's VM id as it was |
| FcfsTaskToVm.StoppedStaysStopped | src/main/java/widesim/mapper/FCFSTaskToVMMapper.java:41-43 | after the stop, one more task only records that it got nothing |
| FcfsTaskToVm.StoppingIsFinal | src/main/java/widesim/mapper/FCFSTaskToVMMapper.java:41-43 | after the stop the mapping and the used set no longer change and no later task is given a VM |
| SimpleVmToFogDevice.FindByName | src/main/java/widesim/mapper/SimpleVmToFogDeviceMapper.java:22 | a device is found exactly when some device has that name, and it is a listed device with that name |
| SimpleVmToFogDevice.Choice | src/main/java/widesim/mapper/SimpleVmToFogDeviceMapper.java:20-28 | a pinned VM goes to a device of the pinned name, throwing when none has it; an unpinned VM at position i goes to `deviceIds[i % k]`, throwing exactly when k is 0 |
| SimpleVmToFogDevice.Fold | src/main/java/widesim/mapper/SimpleVmToFogDeviceMapper.java:19-29 | the loop succeeds exactly when no VM's choice throws, and then maps exactly the listed VM ids |
| SimpleVmToFogDevice.FoldLastOccurrenceWins | src/main/java/widesim/mapper/SimpleVmToFogDeviceMapper.java:23-27 | a VM id gets the choice made at its last position (`put` replaces) |
| SimpleVmToFogDevice.PrefixFolds | src/main/java/widesim/mapper/SimpleVmToFogDeviceMapper.java:19-29 | a loop that succeeds also succeeded on the list without its last VM |
| SimpleVmToFogDevice.Placement | src/main/java/widesim/mapper/SimpleVmToFogDeviceMapper.java:17-28 | every VM is placed: an unpinned one whose id last occurs at position i on the i mod k-th device that reported characteristics, a pinned one on a device with the pinned name |
| SimpleVmToFogDevice.PrefixFailureIsFinal | src/main/java/widesim/mapper/SimpleVmToFogDeviceMapper.java:22-25 | once one VM makes Java throw, the whole call throws |
| SimpleVmToFogDevice.Map | src/main/java/widesim/mapper/SimpleVmToFogDeviceMapper.java:14-32 | the mapper's loop computes the fold, in the key order of the characteristics map |
| SimpleProvisioner.VmIds | src/main/java/widesim/provision/SimpleVmProvisioner.java:28 | the ids of a VM list, position by position |
| SimpleProvisioner.Provide | src/main/java/widesim/provision/SimpleVmProvisioner.java:16-29 | nothing to create, nothing to destroy, and the created VMs' ids, in order, kept alive |
| SimpleProvisioner.ProvideDependsOnCreatedOnly | src/main/java/widesim/provision/SimpleVmProvisioner.java:16-29 | the decision depends on the created VMs alone |
| SimpleProvisioner.KeepAliveIsCreated | src/main/java/widesim/provision/SimpleVmProvisioner.java:27-28 | a VM id is kept alive exactly when it is the id of a created VM |
| TaskManagers.Insert | src/main/java/widesim/entity/TaskManager.java:29 | inserting a task adds exactly that task to the multiset of tasks |
| TaskManagers.InsertSorted | src/main/java/widesim/entity/TaskManager.java:29 | inserting into a list sorted by entry time keeps it sorted |
| TaskManagers.Sort | src/main/java/widesim/entity/TaskManager.java:29 | the sorted list is a permutation of the input |
| TaskManagers.SortSorted | src/main/java/widesim/entity/TaskManager.java:29 | the sorted list has non-decreasing entry times |
| TaskManagers.InsertIsStable | src/main/java/widesim/entity/TaskManager.java:29 | an inserted task goes behind every task of its own entry time; other entry times are untouched |
| TaskManagers.SortIsStable | src/main/java/widesim/entity/TaskManager.java:29 | tasks with equal entry times keep their relative order (`List.sort` is stable) |
| TaskManagers.SortOfSorted | src/main/java/widesim/entity/TaskManager.java:29 | a list already sorted by entry time is left unchanged |
| TaskManagers.InsertAtEnd | src/main/java/widesim/entity/TaskManager.java:29 | a task entering no earlier than all others is appended |
| TaskManagers.SortedInit | src/main/java/widesim/entity/TaskManager.java:29 | a prefix of a sorted list is sorted and enters no later than the next task |
| TaskManagers.SchedulesAreOnePerTask | src/main/java/widesim/entity/TaskManager.java:37-40 | one INCOMING_TASK event per listed task, at its position, to the engine, with delay entry time minus the clock |
| TaskManagers.SchedulesAppend | src/main/java/widesim/entity/TaskManager.java:37-40 | the events for two lists in turn are the events of the first, then those of the second |
| TaskManagers.TaskManager.constructor | src/main/java/widesim/entity/TaskManager.java:21-30 | the manager keeps the engine id and lists all workflows' tasks, workflow after workflow, sorted by entry time |
| TaskManagers.TaskManager.StartEntity | src/main/java/widesim/entity/TaskManager.java:33-41 | appends exactly the schedule of one INCOMING_TASK per listed task, in list order |
| TaskManagers.TaskManager.ProcessEvent | src/main/java/widesim/entity/TaskManager.java:44-45 | no event changes the manager |
| TaskManagers.ManagerOrder | src/main/java/widesim/entity/TaskManager.java:26-29 | the listed tasks are a permutation of the workflows' tasks, sorted by entry time, with ties in workflow and list order |
| Messages.GetById | src/main/java/widesim/entity/FogBroker.java:164 | the VM found by an id is a listed VM with that id, and one is found exactly when some listed VM has it (`VmList.getById`) |
| Messages.GetByIdOfFound | src/main/java/widesim/entity/FogBroker.java:180 | looking a found VM up again by its own id finds it again |
| WorkflowEngines.Releases | src/main/java/widesim/entity/WorkflowEngine.java:94-97 | one INCOMING_TASK to the broker, at once, per released id, carrying that id's stored task, in release order |
| WorkflowEngines.ReleasesAppendOne | src/main/java/widesim/entity/WorkflowEngine.java:94-97 | releasing one more id appends exactly its forwarding event |
| WorkflowEngines.VisitOne | src/main/java/widesim/entity/WorkflowEngine.java:90-99 | visiting one more waiting id keeps every visited ready id released once and no unready one, appending the visited id exactly when ready |
| WorkflowEngines.WorkflowEngine.constructor | src/main/java/widesim/entity/WorkflowEngine.java:24-31 | a new engine has no task, nothing waiting, nothing completed and has sent nothing |
| WorkflowEngines.WorkflowEngine.ReadyWaiting | src/main/java/widesim/entity/WorkflowEngine.java:94 | the waiting ids whose parents have all completed, and only those |
| WorkflowEngines.WorkflowEngine.ProcessIncomingTask | src/main/java/widesim/entity/WorkflowEngine.java:51-67 | the task is stored under its id; it is forwarded to the broker at once exactly when all its parents have completed, and otherwise added to the waiting set; completion is untouched |
| WorkflowEngines.WorkflowEngine.ProcessCompletedTask | src/main/java/widesim/entity/WorkflowEngine.java:69-100 | a failed task gets the clock appended to its failures, status CREATED, start time -1 and a zero-delay INCOMING_TASK to the engine itself, and completes nothing; any other task is added to the completed set; then exactly the ready waiting ids are removed and forwarded once each, leaving none ready |
| WorkflowEngines.WorkflowEngine.ReleaseReady | src/main/java/widesim/entity/WorkflowEngine.java:90-99 | removes exactly the ready waiting ids, forwarding each once, and leaves no waiting task ready |
| WorkflowEngines.WorkflowEngine.ScanWaiting | src/main/java/widesim/entity/WorkflowEngine.java:90-99 | the iterator walk keeps exactly the unready ids and sends one forward per ready id, in the walk's order |
| WorkflowEngines.WorkflowEngine.ProcessEvent | src/main/java/widesim/entity/WorkflowEngine.java:44-49 | INCOMING_TASK and TASK_IS_DONE go to their handlers, any other tag changes nothing; completion only grows, and after a TASK_IS_DONE no waiting task is ready |
| FogDevices.ServeCounts | src/main/java/widesim/entity/FogDevice.java:114-125 | serving a request adds exactly one release notice of the serving link and none of the other |
| FogDevices.SendCounts | src/main/java/widesim/entity/FogDevice.java:170 | a send that is not a release notice leaves the count of release notices as it was |
| FogDevices.GateOfCases | src/main/java/widesim/entity/FogDevice.java:326-352 | a task executes exactly when every parent delivered data; otherwise it is sent back exactly when some parent reported no data, and otherwise keeps waiting |
| FogDevices.RootTaskIsReady | src/main/java/widesim/entity/FogDevice.java:400-404 | a task without parents is executed at once |
| FogDevices.CompleteReportsRelease | src/main/java/widesim/entity/FogDevice.java:326-352 | once every parent has reported, with data or without, the task no longer waits |
| FogDevices.ReleaseIsMonotone | src/main/java/widesim/entity/FogDevice.java:326-352 | more received pairs never turn a released task back into a waiting one |
| FogDevices.Without | src/main/java/widesim/entity/FogDevice.java:415 | `removeIf` drops every occurrence of the id and nothing else (same multiset apart from that id) |
| FogDevices.SumFileSizes | src/main/java/widesim/entity/FogDevice.java:205 | the summed sizes of the needed files, never negative when no size is |
| FogDevices.SumFileSizesAppend | src/main/java/widesim/entity/FogDevice.java:205 | the sum over two lists of files in turn is the sum of the two sums |
| FogDevices.Snapshot | src/main/java/widesim/entity/FogDevice.java:318-321 | one entry per waiting id, in list order, read from that id's task |
| FogDevices.ReleaseEvent | src/main/java/widesim/entity/FogDevice.java:329-348 | a released waiting task is sent at once: EXECUTE_TASK to this device when it runs, CLOUDLET_RETURN to its owner when sent back |
| FogDevices.ArrivalStamps | src/main/java/widesim/entity/FogDevice.java:402-432 | an arriving task always gets its enter-queue time, and its start and exit times exactly when it is released at once |
| FogDevices.ArrivalEvent | src/main/java/widesim/entity/FogDevice.java:406-426 | an arriving task released at once is sent now: CLOUDLET_SUBMIT_ACK to this device when it runs, CLOUDLET_RETURN to its owner when sent back |
| FogDevices.ArrivalStampsBatch | src/main/java/widesim/entity/FogDevice.java:402-432 | the setter calls on an arriving task's timestamps amount to one batch write of its arrival stamps |
| FogDevices.WithoutKeepsKnown | src/main/java/widesim/entity/FogDevice.java:415 | removing an id keeps only ids that were listed |
| FogDevices.ScanSplits | src/main/java/widesim/entity/FogDevice.java:318-353 | the pass keeps exactly the entries that must still wait, and only those; every entry is kept or sent; only EXECUTE_TASK and CLOUDLET_RETURN are sent |
| FogDevices.Ids | src/main/java/widesim/entity/FogDevice.java:319 | the ids of the kept entries, in order |
| FogDevices.MarkedFalse | src/main/java/widesim/entity/FogDevice.java:341 | `put(c, false)` for a set of cycles adds exactly those cycles to the memo |
| FogDevices.MarkedFalseCases | src/main/java/widesim/entity/FogDevice.java:341 | each cycle written is memoised as having no data; every other entry keeps its value |
| FogDevices.DropAll | src/main/java/widesim/entity/FogDevice.java:338-341 | the memo tables after the pass over the snapshot are tables of the same memos |
| FogDevices.DropAllMarks | src/main/java/widesim/entity/FogDevice.java:338-341 | after the pass, each memo has `false` for exactly the cycles of its entries sent back, and keeps the rest |
| FogDevices.StampAll | src/main/java/widesim/entity/FogDevice.java:329-350 | the timestamp tables after the pass are tables of the same task states |
| FogDevices.StampAllRecords | src/main/java/widesim/entity/FogDevice.java:329-350 | after the pass, each task state has its start and exit times set for exactly the cycles of its released entries |
| FogDevices.PassEffect | src/main/java/widesim/entity/FogDevice.java:318-353 | the pass's effect on every memo and every timestamp table at once |
| FogDevices.StagedSize | src/main/java/widesim/entity/FogDevice.java:200-206 | zero when the message names no files, otherwise the summed sizes of the named files |
| FogDevices.FogDevice.constructor | src/main/java/widesim/entity/FogDevice.java:41-69 | a new device has idle links, empty FIFOs, empty name, id and routing maps, no task, nothing waiting or received, and has sent nothing |
| FogDevices.FogDevice.SendUp | src/main/java/widesim/entity/FogDevice.java:245-269 | a transfer offered to a busy uplink joins the end of its FIFO; to an idle one it is sent with a release notice after the same delay, and the link becomes busy; at most one transfer per link is in service |
| FogDevices.FogDevice.SendDown | src/main/java/widesim/entity/FogDevice.java:278-302 | the same for the downlink |
| FogDevices.FogDevice.ProcessUpLinkIsFree | src/main/java/widesim/entity/FogDevice.java:131-150 | a release notice serves the head of the uplink FIFO with a fresh release notice, or makes an idle link with an empty FIFO; one release is consumed and at most one transfer stays in service |
| FogDevices.FogDevice.ProcessDownLinkIsFree | src/main/java/widesim/entity/FogDevice.java:110-129 | the same for the downlink |
| FogDevices.FogDevice.AddRoute | src/main/java/widesim/entity/FogDevice.java:487-489 | the route to a destination is set to the hop, replacing any earlier one |
| FogDevices.FogDevice.NextHop | src/main/java/widesim/entity/FogDevice.java:491-493 | the hop recorded for a destination, or null exactly when none is |
| FogDevices.FogDevice.NextHopId | src/main/java/widesim/entity/FogDevice.java:228-233 | the id of the next hop towards a device, defined exactly when every lookup of the chain succeeds |
| FogDevices.FogDevice.ProcessBroadcastId | src/main/java/widesim/entity/FogDevice.java:188-193 | the name and id of another device are recorded in both directions |
| FogDevices.FogDevice.ProcessResourceRequest | src/main/java/widesim/entity/FogDevice.java:184-186 | exactly one RESOURCE_REQUEST_RESPONSE with this device's characteristics goes back to the asker |
| FogDevices.FogDevice.ProcessVmCreate | src/main/java/widesim/entity/FogDevice.java:163-182 | exactly one VM_CREATE_ACK with the allocation result; the VM joins the list exactly when allocated |
| FogDevices.FogDevice.Send | src/main/java/widesim/entity/FogDevice.java:170 | one immediate send is appended, keeping the link bookkeeping |
| FogDevices.FogDevice.ProcessStageOutData | src/main/java/widesim/entity/FogDevice.java:195-270 | for this device, a DOWNLOADED_FOG_TO_FOG to itself with the summed size of the needed files; for another device, a FOG_TO_FOG over the uplink to the next hop, delayed by size/upLinkBw only when it carries data, carrying the task's whole output size |
| FogDevices.FogDevice.Upload | src/main/java/widesim/entity/FogDevice.java:245-269 | a FOG_TO_FOG towards the next hop is offered to the uplink |
| FogDevices.FogDevice.ProcessFogToFog | src/main/java/widesim/entity/FogDevice.java:272-303 | a DOWNLOADED_FOG_TO_FOG to this device is offered to the downlink, delayed by data/downLinkBw only when it carries data |
| FogDevices.FogDevice.ProcessExecuteTaskWithData | src/main/java/widesim/entity/FogDevice.java:437-477 | an EXECUTE_TASK to this device is offered to the downlink with no delay |
| FogDevices.FogDevice.ProcessExecuteTask | src/main/java/widesim/entity/FogDevice.java:391-435 | the task is filed under its id and its cycle gets a received set if it had none; released at once it leaves the waiting list and is sent as the gate says, sent back it has `false` memoised; otherwise it joins the end of the waiting list; its timestamps get exactly its arrival stamps |
| FogDevices.FogDevice.Arrive | src/main/java/widesim/entity/FogDevice.java:396-433 | the device side of an arrival: filed, then sent and removed from the waiting list, or appended to it |
| FogDevices.FogDevice.ArrivalEffects | src/main/java/widesim/entity/FogDevice.java:402-432 | the task side of an arrival: its arrival stamps, and `false` memoised exactly when it is sent back |
| FogDevices.FogDevice.Dispatch | src/main/java/widesim/entity/FogDevice.java:408-415 | the send goes out and every occurrence of the id leaves the waiting list |
| FogDevices.FogDevice.HoldArrival | src/main/java/widesim/entity/FogDevice.java:433 | the id joins the end of the waiting list |
| FogDevices.FogDevice.Admit | src/main/java/widesim/entity/FogDevice.java:396-398 | the task is filed under its id and its cycle gets an empty received set when it had none |
| FogDevices.FogDevice.StampArrival | src/main/java/widesim/entity/FogDevice.java:402-432 | the arrival's setter calls write exactly its arrival stamps |
| FogDevices.FogDevice.MarkNoData | src/main/java/widesim/entity/FogDevice.java:341 | the cycle is memoised as having generated no data |
| FogDevices.FogDevice.StampRelease | src/main/java/widesim/entity/FogDevice.java:329-350 | a released task gets its start time, then its exit time, both at the clock |
| FogDevices.FogDevice.SnapshotIsTracked | src/main/java/widesim/entity/FogDevice.java:318-326 | every waiting task is known and its cycle has a received set, so the pass never meets a null |
| FogDevices.FogDevice.KeptAreKnown | src/main/java/widesim/entity/FogDevice.java:318-353 | every id the pass keeps names a known task |
| FogDevices.FogDevice.ReleaseWaitingTasks | src/main/java/widesim/entity/FogDevice.java:318-353 | the iterator pass: the waiting list keeps exactly the tasks that must still wait, in order; the released ones are sent in list order; those sent back have `false` memoised; the released ones get their start and exit times; nothing else changes |
| FogDevices.FogDevice.ReleasePass | src/main/java/widesim/entity/FogDevice.java:318-353 | the same pass over a given snapshot |
| FogDevices.FogDevice.RunPass | src/main/java/widesim/entity/FogDevice.java:318-353 | the loop computes the scan and its effect on every memo and timestamp table |
| FogDevices.FogDevice.Commit | src/main/java/widesim/entity/FogDevice.java:337-351 | the waiting list becomes the kept ids and the sends go out in order |
| FogDevices.FogDevice.SendAll | src/main/java/widesim/entity/FogDevice.java:330-348 | the pass's sends are appended in order, none of them a link release |
| FogDevices.FogDevice.PassOver | src/main/java/widesim/entity/FogDevice.java:318-353 | the loop over the snapshot keeps and sends as the scan says |
| FogDevices.FogDevice.Receive | src/main/java/widesim/entity/FogDevice.java:312-315 | the pair (taskId, isData) joins the received set of its cycle, created when absent |
| FogDevices.FogDevice.ProcessDownloadedFogToFog | src/main/java/widesim/entity/FogDevice.java:305-389 | data for this device is recorded and the release pass runs over the waiting list as it stood; data for another device is relayed over the uplink to the next hop, delayed by data/upLinkBw always |
| FogDevices.FogDevice.ReceiveAndRelease | src/main/java/widesim/entity/FogDevice.java:309-353 | record the pair, then run the release pass |
| FogBrokers.Ascending | src/main/java/widesim/entity/FogBroker.java:399 | the parents are visited as a sorted, duplicate-free listing of exactly the parent set |
| FogBrokers.StageOut | src/main/java/widesim/entity/FogBroker.java:400-408 | the stage-out for one parent exists exactly when the parent has a ledger VM with a placement, is stored and has a data decision for the cycle; it is a STAGE_OUT to the parent's device carrying the parent id, the cycle, the destination, the decision and the files needed from that parent |
| FogBrokers.StageOuts | src/main/java/widesim/entity/FogBroker.java:399-409 | the requests for a parent list are that list's stage-outs, one per parent, in list order, and none at all if one fails |
| FogBrokers.ExecuteEvent | src/main/java/widesim/entity/FogBroker.java:412-429 | a root task gets EXECUTE_TASK_WITH_DATA after the 0.11 stage-in delay, any other task EXECUTE_TASK at once, both to the device of its VM with the task and that VM |
| FogBrokers.DispatchEvents | src/main/java/widesim/entity/FogBroker.java:391-429 | dispatching a task sends, if its VM is placed and every parent's stage-out exists, the stage-outs in ascending parent order followed by the execute request, and fails otherwise |
| FogBrokers.ScanSucceedsIff | src/main/java/widesim/entity/FogBroker.java:387-437 | the queue walk throws exactly when some queued task on a created VM cannot be dispatched |
| FogBrokers.ScanFilters | src/main/java/widesim/entity/FogBroker.java:387-437 | after the walk the queue holds, in their old order, exactly the tasks whose VM is not a created one, and the dispatched tasks are the others in queue order |
| FogBrokers.ScanPartitions | src/main/java/widesim/entity/FogBroker.java:387-437 | every queued task either stays queued or is dispatched: the two lists together are a permutation of the queue |
| FogBrokers.ExecutesOnCreatedVms | src/main/java/widesim/entity/FogBroker.java:395-429 | every execute request of the walk carries a dispatched task and goes to the device its created VM is placed on |
| FogBrokers.OneExecuteEach | src/main/java/widesim/entity/FogBroker.java:399-429 | dispatching one task sends exactly one execute request |
| FogBrokers.OneExecutePerDispatch | src/main/java/widesim/entity/FogBroker.java:387-437 | the walk sends exactly as many execute requests as it dispatches tasks |
| FogBrokers.StageOutPerParent | src/main/java/widesim/entity/FogBroker.java:399-409 | each parent of a dispatched task gets exactly one stage-out among that task's dispatch events, and it is the parent's own StageOut |
| FogBrokers.ScanQueue | src/main/java/widesim/entity/FogBroker.java:387-437 | the iterator walk over the queue computes the specified scan: its kept queue, dispatched list and sends, or the failure |
| FogBrokers.StampExits | src/main/java/widesim/entity/FogBroker.java:434 | each dispatched task's table gets an exit-broker timestamp at the clock for its cycle, and no other table or entry changes |
| FogBrokers.SendRequests | src/main/java/widesim/entity/FogBroker.java:321-347 | the request loop sends one request per listed VM id, in list order, to the device the placement gives it, and adds exactly those devices to the sent set; it fails exactly when an id has no placement |
| FogBrokers.NoRequests | src/main/java/widesim/entity/FogBroker.java:321-347 | an empty id list sends nothing and records no device |
| FogBrokers.InitialCreates | src/main/java/widesim/entity/FogBroker.java:158-168 | the first create round visits every placed VM once and sends it one VM_CREATE to its device, recording VM ids |
| FogBrokers.KeptVmsAreCreated | src/main/java/widesim/entity/FogBroker.java:354 | mapping the ids of created VMs back through the VM list gives the same created VMs |
| FogBrokers.ResourceRequests | src/main/java/widesim/entity/FogBroker.java:125-127 | `init` sends one RESOURCE_REQUEST to each device id, in list order, and nothing else |
| FogBrokers.RecreateAcksNeverCover | src/main/java/widesim/entity/FogBroker.java:208-216 | a recreate round records the devices it sends to while the acks name VM ids, so with a device id that is no VM id of the round the acks never cover the sent set |
| FogBrokers.ChildStageOut | src/main/java/widesim/entity/FogBroker.java:246-256 | the stage-out to one dispatched child exists exactly when the child has a ledger VM with a placement; it is a STAGE_OUT to the completing task's device, naming the finished cycle, the child's device, the data decision and the files the child needs |
| FogBrokers.ChildStageOuts | src/main/java/widesim/entity/FogBroker.java:246-257 | the requests for a child list are the children's stage-outs in list order, and none if one fails |
| FogBrokers.FogBroker.constructor | src/main/java/widesim/entity/FogBroker.java:59-90 | a new broker keeps its id, VM list and devices and starts with every id list, set, list, table and the outbox empty |
| FogBrokers.FogBroker.SetWorkflowEngineId | src/main/java/widesim/entity/FogBroker.java:445-447 | only the engine id changes |
| FogBrokers.FogBroker.ProcessIncomingTask | src/main/java/widesim/entity/FogBroker.java:130-145 | the task gets the broker as user and an enter-broker timestamp, is appended to the queue and stored by id; dispatch runs exactly when every sent create request has been acknowledged |
| FogBrokers.FogBroker.Admit | src/main/java/widesim/entity/FogBroker.java:134-137 | the task is queued at the end and stored under its id, with the user id and the enter-broker timestamp of its cycle set, and nothing else changes |
| FogBrokers.FogBroker.DispatchTasks | src/main/java/widesim/entity/FogBroker.java:366-438 | the ledger becomes the old ledger overridden by the mapper's result, every ledger task's VM id follows it, and unless the walk throws, the queue, dispatched set, outbox and exit timestamps are those of the specified scan |
| FogBrokers.FogBroker.ScanAndCommit | src/main/java/widesim/entity/FogBroker.java:387-437 | the walk either throws and changes nothing, or commits the scan's queue, dispatched set, sends and exit timestamps |
| FogBrokers.FogBroker.MergeLedger | src/main/java/widesim/entity/FogBroker.java:381-385 | the merge crashes exactly when a ledger task is not stored (Java unboxes a missing task); otherwise each ledger task's VM id becomes its ledger VM and no other task changes |
| FogBrokers.FogBroker.Init | src/main/java/widesim/entity/FogBroker.java:120-128 | the resource list is appended to the device ids and one RESOURCE_REQUEST per device id is appended to the outbox |
| FogBrokers.FogBroker.ProcessResourceRequestResponse | src/main/java/widesim/entity/FogBroker.java:147-170 | the sender's characteristics are stored; once every device has answered it crashes exactly when the mapper throws, and otherwise the placement is the mapper's, one VM_CREATE per placed VM goes out and the sent create set grows by exactly the placed VM ids; before that nothing else changes |
| FogBrokers.FogBroker.ProcessVmCreateAck | src/main/java/widesim/entity/FogBroker.java:172-190 | the VM id joins the acks, the VM joins the created or the failed list as the ack says, and dispatch runs exactly when the acks now cover the sent create requests |
| FogBrokers.FogBroker.RecordCreateAck | src/main/java/widesim/entity/FogBroker.java:177-182 | the ack is recorded and the acknowledged VM is appended to the created list when it was created, to the failed list otherwise |
| FogBrokers.FogBroker.ProcessVmDestroyAck | src/main/java/widesim/entity/FogBroker.java:200-219 | the sender joins the destroy acks; once they cover the sent destroys, the create sets are reset, one VM_CREATE per VM to recreate goes out and the sent create set becomes the devices sent to |
| FogBrokers.FogBroker.ProcessTaskIsDone | src/main/java/widesim/entity/FogBroker.java:221-364 | the task gets its end timestamp and the engine is told; the failure draw decides: with no generator selected nothing fails, otherwise the task failed exactly when a sample lies in its execution window, a failed task is marked failed with nothing finished and the generator's cursor moves past that sample, a successful one is marked a success; a failed task changes nothing else; otherwise the next-cycle copy, sharing the task's state and data memo, is stored and completed, gets its enter timestamp, its data decision is drawn, the stage-outs to the dispatched children are sent and, when every dispatched task is complete, the round ends |
| FogBrokers.FogBroker.Complete | src/main/java/widesim/entity/FogBroker.java:233-362 | the completion of a task that did not fail: stored, timestamped, decided, the stage-outs sent or the crash reported, and the round-end check |
| FogBrokers.FogBroker.CollectChildren | src/main/java/widesim/entity/FogBroker.java:246 | the children found are exactly the dispatched tasks listing the completed task among their parents |
| FogBrokers.FogBroker.Finish | src/main/java/widesim/entity/FogBroker.java:226-231 | the end-of-execution timestamp is recorded; the failure draw decides as `generate` promises (failed exactly when the selected generator has a sample in the execution window, with the status, finished length and cursor that follow); the engine is told and a fresh next-cycle copy is made; the broker's books are unchanged |
| FogBrokers.FogBroker.EndAndDraw | src/main/java/widesim/entity/FogBroker.java:226-227 | the end-of-execution timestamp of the task's cycle is recorded and `generate`'s outcome holds for the task's VM; the broker's books and outbox are unchanged |
| FogBrokers.FogBroker.Announce | src/main/java/widesim/entity/FogBroker.java:229-231 | exactly one TASK_IS_DONE to the workflow engine is appended, then a fresh copy one cycle further sharing the task's state and memo is made; nothing else changes |
| FogBrokers.FogBroker.RecordCompletion | src/main/java/widesim/entity/FogBroker.java:235-242 | the next-cycle copy is completed and stored under its id, gets its enter timestamp and its data decision for the finished cycle |
| FogBrokers.FogBroker.EndOfRound | src/main/java/widesim/entity/FogBroker.java:301-361 | at the end of a round the provisioner's result is applied and dispatch runs over the queue |
| FogBrokers.FogBroker.Provision | src/main/java/widesim/entity/FogBroker.java:304-354 | the default provisioner's triple leaves nothing to destroy or create: all round sets are cleared, the failed list is empty and the created list is kept |
| FogBrokers.FogBroker.RoundRequests | src/main/java/widesim/entity/FogBroker.java:319-348 | with empty create and destroy lists the round sends nothing and leaves every sent and ack set empty |
| FogBrokers.Requests | src/main/java/widesim/entity/FogBroker.java:208-216 | the requests of a VM id loop exist exactly when every id has a placement, one per id in order, each the id's request to its device |
| FogBrokers.DevicesOf | src/main/java/widesim/entity/FogBroker.java:209-216 | the devices recorded are exactly the placement's devices of the listed ids |
| FogBrokers.KeptVms | src/main/java/widesim/entity/FogBroker.java:354 | one VM per kept-alive id, in order, each the one the VM list yields for that id |
| FogBrokers.OnlyExecuteIsLast | src/main/java/widesim/entity/FogBroker.java:399-429 | among a task's dispatch events the execute request is the last one |
| FogBrokers.FogBroker.AdmitAndDispatch | src/main/java/widesim/entity/FogBroker.java:134-144 | a task arriving with every create request acknowledged is admitted and dispatch runs over the new queue |
| FogBrokers.FogBroker.AckAndDispatch | src/main/java/widesim/entity/FogBroker.java:177-188 | an ack completing the create round is recorded and dispatch runs |
| FogBrokers.FogBroker.StageAndClose | src/main/java/widesim/entity/FogBroker.java:246-362 | the children's stage-outs are sent unless one cannot be built, and the round-end check follows |
| FogBrokers.FogBroker.Close | src/main/java/widesim/entity/FogBroker.java:252-362 | the stage-outs are appended and, when every dispatched task has completed, the round ends |
| TopologyPostProcessing.FogHost.SetDatacenter | src/main/java/misty/parse/topology/PostProcessor.java:17 | the host's datacenter becomes the given device |
| TopologyPostProcessing.FogDevice.constructor | src/main/java/misty/entity/FogDevice.java:38-41 | a device starts with its name, hosts and neighbours and an empty routing table |
| TopologyPostProcessing.FogDevice.AddRoute | src/main/java/misty/entity/FogDevice.java:288-290 | the destination's next hop is replaced, a null hop included, and no other route changes |
| TopologyPostProcessing.FogDevice.NextHop | src/main/java/misty/entity/FogDevice.java:292-294 | the next hop is the stored hop for the destination, and null for a destination without a route |
| TopologyPostProcessing.TopologyAnalyzer.constructor | src/main/java/misty/analyze/TopologyAnalyzer.java:16-18 | a new graph has no vertex and no edge |
| TopologyPostProcessing.TopologyAnalyzer.AddVertex | src/main/java/misty/analyze/TopologyAnalyzer.java:20-22 | adding a vertex adds it to the vertex set, leaving one already present as it was |
| TopologyPostProcessing.TopologyAnalyzer.AddEdge | src/main/java/misty/analyze/TopologyAnalyzer.java:24-26 | an edge between two existing vertices is added and every edge still joins two vertices |
| TopologyPostProcessing.LastOwner | src/main/java/misty/parse/topology/PostProcessor.java:15-17 | the owner found is the last device in list order listing the host, and -1 exactly when no device lists it |
| TopologyPostProcessing.OwnerIsTheListingDevice | src/main/java/misty/parse/topology/PostProcessor.java:13-18 | with disjoint host lists a host's last owner is the one device listing it |
| TopologyPostProcessing.ConnectHostToDatabase | src/main/java/misty/parse/topology/PostProcessor.java:13-18 | every listed host's datacenter is the last device listing it, so with disjoint host lists each host points back at its own device |
| TopologyPostProcessing.EdgeIff | src/main/java/misty/parse/topology/PostProcessor.java:23-29 | the graph has an edge a -> b exactly when a device named a declares neighbour b |
| TopologyPostProcessing.VertexIff | src/main/java/misty/parse/topology/PostProcessor.java:24-26 | a name is a vertex exactly when a device with at least one neighbour has it as its name or as a neighbour |
| TopologyPostProcessing.EdgesJoinVertices | src/main/java/misty/parse/topology/PostProcessor.java:25-27 | both ends of every edge are vertices, so each edge insertion is legal |
| TopologyPostProcessing.IsolatedDeviceHasNoVertex | src/main/java/misty/parse/topology/PostProcessor.java:23-29 | a device that declares no neighbour and is nobody's neighbour is not in the graph |
| TopologyPostProcessing.EdgesAreNotSymmetrised | src/main/java/misty/parse/topology/PostProcessor.java:27 | declaring b as a's neighbour gives the edge a -> b but not b -> a |
| TopologyPostProcessing.BuildTopologyAnalyzer | src/main/java/misty/parse/topology/PostProcessor.java:20-32 | the fresh graph's edges are exactly the declared links and its vertices exactly their ends |
| TopologyPostProcessing.NeighbourRoutesIff | src/main/java/misty/parse/topology/PostProcessor.java:37-40 | a route is installed exactly for each declared neighbour, with the table's entry for the pair or null as its hop |
| TopologyPostProcessing.UnionAgain | src/main/java/misty/parse/topology/PostProcessor.java:36-41 | installing the same routes a second time changes nothing |
| TopologyPostProcessing.SetRoutingTableOfFogDevices | src/main/java/misty/parse/topology/PostProcessor.java:34-42 | each device's routing table becomes its old table overridden by routes to its declared neighbours only |
| TopologyPostProcessing.InstallAllRoutes | src/test/java/parser/TopologyPostProcessTest.java:94-108 | each device's routing table becomes its old table overridden by a route to every destination the table knows from that device |
| TopologyPostProcessing.AllRoutesFollowTable | src/test/java/parser/TopologyPostProcessTest.java:105-108 | after the corrected installer, a device's next hop to any destination is the routing table's first hop |
| TopologyPostProcessing.AllRoutesAgreeOnNeighbours | src/main/java/misty/parse/topology/PostProcessor.java:37-40 | on declared neighbours the corrected installer gives the same hops as the installer as written |
| TopologyPostProcessing.NeighbourRoutesMissMultiHop | src/test/java/parser/TopologyPostProcessTest.java:94-108 | on the test's links, the table's hop from device_a to device_d is device_c, which the installer as written never installs and the corrected one does |
| ParsedFiles.TotalSizeShift | src/main/java/widesim/parse/dax/DaxParser.java:106-107 | a size reduction seeded with s is s plus the plain sum of the file sizes |
| ParsedFiles.TotalSizeAtLeastSeed | src/main/java/widesim/parse/workflow/Parser.java:95-97 | with no negative size, a size total is never below its seed |
| ParsedFiles.FileMapIff | src/main/java/widesim/parse/workflow/Parser.java:78-84 | the file map holds exactly the listed file ids, each with the size of its last listing |
| ParsedFiles.ValuesOfIff | src/main/java/widesim/parse/workflow/Parser.java:120-125 | a value is listed under a key exactly when that (key, value) pair occurs |
| ParsedFiles.GroupedIff | src/main/java/widesim/parse/workflow/Parser.java:120-125 | the grouping has exactly the keys that occur; under each lie its values in pair order, so no group is empty, and an absent key has no value |
| ParsedFiles.Swapped | src/main/java/widesim/parse/dax/DaxParser.java:91-96 | the swapped list has the same length, each pair with key and value exchanged |
| ParsedFiles.GroupedBothWays | src/main/java/widesim/parse/dax/DaxParser.java:91-96 | v is grouped under k exactly when k is grouped under v in the grouping of the swapped pairs, so child-to-parents and parent-to-children agree |
| ParsedFiles.GroupedAppend | src/main/java/widesim/parse/dax/DaxParser.java:64-66 | grouping one more pair is one computeIfAbsent-and-add step on the grouping |
| ParsedFiles.Group | src/main/java/widesim/parse/workflow/Parser.java:120-125 | the computeIfAbsent-and-add loop builds the specified grouping of the pairs |
| WorkflowParsing.InfoDefaults | src/main/java/widesim/parse/workflow/Parser.java:86-105 | an absent selectivity or period is 1.0, an absent RAM or bandwidth 0.0, an absent PE count the default; the size totals are sums from 0, zero for no file and never negative for non-negative sizes |
| WorkflowParsing.OwnerIsLastDeclarer | src/main/java/widesim/parse/workflow/Parser.java:81-84 | a file has an owner exactly when some task declares it as an output, and the owner is the last task in document order to do so |
| WorkflowParsing.NeededPairs | src/main/java/widesim/parse/workflow/Parser.java:119 | one (owner, file id) pair per input, in input order, the owner defaulting to the consuming task |
| WorkflowParsing.DataOf | src/main/java/widesim/parse/workflow/Parser.java:127 | exactly one data entry (file, owner, task, size) per input file, in input order, the owner defaulting to the consuming task |
| WorkflowParsing.InputSourceIsLastDeclarer | src/main/java/widesim/parse/workflow/Parser.java:117-127 | an input's data entry names the consumer as destination and as source the last task declaring the file, earlier or later in the document, or the consumer itself when no task declares it |
| WorkflowParsing.NeededMatchesData | src/main/java/widesim/parse/workflow/Parser.java:119-127 | the needed-files map has a key exactly for each data entry's source, and lists each input under its source in input order |
| WorkflowParsing.ReadTaskInfos | src/main/java/widesim/parse/workflow/Parser.java:53-115 | one task record per task object, in document order, and the owner map over all of them |
| WorkflowParsing.ReadOutputs | src/main/java/widesim/parse/workflow/Parser.java:81-84 | every output file is claimed by the task in the owner map and sized in the task's file map |
| WorkflowParsing.BuildTasks | src/main/java/widesim/parse/workflow/Parser.java:117-139 | one new, distinct task per record, in record order, each built from its record |
| WorkflowParsing.BuildTask | src/main/java/widesim/parse/workflow/Parser.java:119-136 | the new task carries the record's fields, the input data, the file map and the needed files grouped by owner, with no parent, no child and cycle 0 |
| WorkflowParsing.ParseWorkflow | src/main/java/widesim/parse/workflow/Parser.java:46-141 | a workflow is built exactly when its task ids are distinct (the id index throws otherwise), with its tasks built from its task objects in document order |
| WorkflowParsing.Parse | src/main/java/widesim/parse/workflow/Parser.java:42-149 | the read succeeds exactly when every workflow object has distinct task ids, giving one workflow per object in document order |
| DaxParsing.WrapInt | src/main/java/widesim/parse/dax/DaxParser.java:39 | Java's `int` addition: the result lies in the 32-bit range and equals the exact sum whenever that is in range |
| DaxParsing.ParseInt | src/main/java/widesim/parse/dax/DaxParser.java:39 | a parsed integer always lies in the `int` range; anything else is a parse failure |
| DaxParsing.DecimalStringValue | src/main/java/widesim/parse/dax/DaxParser.java:39 | the decimal string of a number is non-empty, unsigned, and its digits read back as the number |
| DaxParsing.WrapPastIntMax | src/main/java/widesim/parse/dax/DaxParser.java:39 | one past the largest `int` wraps to the smallest |
| DaxParsing.ParseIntOfDecimal | src/main/java/widesim/parse/dax/DaxParser.java:39 | parsing reads back every decimal string of a number in the `int` range |
| DaxParsing.ParseRefRoundTrip | src/main/java/widesim/parse/dax/DaxParser.java:39 | an id written after any two-character prefix reads back as the number plus one, and the largest `int` wraps round to the smallest |
| DaxParsing.LongOf | src/main/java/widesim/parse/dax/DaxParser.java:41 | the `(long)` cast always lies in the `long` range and rounds toward zero inside it |
| DaxParsing.RuntimeBounds | src/main/java/widesim/parse/dax/DaxParser.java:41-44 | a runtime is never below 100 nor above the `long` range; a scaled runtime of 100 or more keeps its truncated value and a smaller one becomes 100 |
| DaxParsing.RuntimeMonotone | src/main/java/widesim/parse/dax/DaxParser.java:41-44 | a longer runtime attribute never gives a shorter runtime |
| DaxParsing.UsesSplit | src/main/java/widesim/parse/dax/DaxParser.java:58-67 | each `uses` element becomes exactly one file: an input when its link is "input", an output for any other link |
| DaxParsing.JobsOfIff | src/main/java/widesim/parse/dax/DaxParser.java:36-71 | the job records exist exactly when every job id parses, one per element in document order, each with its parsed id |
| DaxParsing.ClaimPairs | src/main/java/widesim/parse/dax/DaxParser.java:64-66 | one (file, job id) pair per output, in document order |
| DaxParsing.OwnersAreDeclarers | src/main/java/widesim/parse/dax/DaxParser.java:64-66 | a job is among a file's owners exactly when it lists the file as an output |
| DaxParsing.OwnerPairsIff | src/main/java/widesim/parse/dax/DaxParser.java:64-66 | a (file, job) pair is recorded exactly when that job lists that file as an output |
| DaxParsing.ReadUses | src/main/java/widesim/parse/dax/DaxParser.java:46-70 | the loop splits the job's files into inputs and outputs, sizes every output in the file map and appends the job to each output's owner list |
| DaxParsing.ReadJobs | src/main/java/widesim/parse/dax/DaxParser.java:32-71 | the job loop yields the specified job records, failing exactly when an id does not parse, and the owner lists grouped over all jobs' outputs |
| DaxParsing.ParsedRefsIff | src/main/java/widesim/parse/dax/DaxParser.java:84-88 | the parent ids exist exactly when every parent ref parses, one per ref in order |
| DaxParsing.ParsedChildrenIff | src/main/java/widesim/parse/dax/DaxParser.java:79-98 | the child links exist exactly when every child and parent ref parses, one per element in order |
| DaxParsing.PairsOf | src/main/java/widesim/parse/dax/DaxParser.java:85-97 | one (child, parent) pair per parent, in order |
| DaxParsing.PairsOfIff | src/main/java/widesim/parse/dax/DaxParser.java:85-97 | a (c, p) pair is produced exactly when c is the child and p one of its parents |
| DaxParsing.LinksIff | src/main/java/widesim/parse/dax/DaxParser.java:79-98 | a link (c, p) exists exactly when some `child` element for c lists p among its parents |
| DaxParsing.ReadParents | src/main/java/widesim/parse/dax/DaxParser.java:84-97 | the parent loop fails exactly when a ref does not parse, and otherwise adds each parent to the child's list and the child to each parent's list |
| DaxParsing.ReadChildren | src/main/java/widesim/parse/dax/DaxParser.java:74-98 | the child loop fails exactly when a ref does not parse, and otherwise builds child-to-parents as the grouping of the links and parent-to-children as the grouping of the reversed links |
| DaxParsing.ParentsAndChildrenAgree | src/main/java/widesim/parse/dax/DaxParser.java:91-96 | p is a parent of c exactly when c is a child of p, exactly when a `child` element for c lists p as a parent |
| DaxParsing.InputSources | src/main/java/widesim/parse/dax/DaxParser.java:111 | an input's sources are exactly the jobs listing the file as an output, or the job itself when none does |
| DaxParsing.DataFor | src/main/java/widesim/parse/dax/DaxParser.java:111 | an input file gets one data entry per owner, in owner order, all with the job as destination |
| DaxParsing.DaxDataIff | src/main/java/widesim/parse/dax/DaxParser.java:111 | a data entry exists exactly for each pair of an input file and one of its owners (the job itself when it has none) |
| DaxParsing.NeededSources | src/main/java/widesim/parse/dax/DaxParser.java:122 | one (source task, file name) pair per data entry, in order |
| DaxParsing.NeededFromSources | src/main/java/widesim/parse/dax/DaxParser.java:122-129 | a file is needed from a source exactly when some data entry brings that file from that source |
| DaxParsing.NewDaxTask | src/main/java/widesim/parse/dax/DaxParser.java:102-120 | the new task has the job's id and runtime, one PE, size totals seeded with 1, the input data, the largest double as deadline, entry time 0, selectivity and period 1 and no RAM, bandwidth or VM |
| DaxParsing.BuildDaxTask | src/main/java/widesim/parse/dax/DaxParser.java:101-137 | the built task is constructed from its job and also carries its parents as a set, its children in document order (both empty by default), the job's file map and the needed files grouped by source |
| DaxParsing.BuildDaxTasks | src/main/java/widesim/parse/dax/DaxParser.java:100-138 | one new task per job record, in job order, each built from its job |
| DaxParsing.DistinctTaskIds | src/main/java/widesim/computation/Workflow.java:14 | the built tasks have distinct ids exactly when the jobs do |
| DaxParsing.BuildWorkflow | src/main/java/widesim/parse/dax/DaxParser.java:29-141 | a workflow is built exactly when every job id and ref parses and no job id repeats, and then its tasks are built from the jobs and links in job order |

## Left out

- The CloudSim kernel is not modelled: the event queue, the clock, entity registration, `startEntity`/`processInit` of the devices and the broker, and the `processEvent` tag dispatch of the device and the broker. Each handler is a method of its own, and every send is an event appended to `outbox`.
- Broker `processTaskAck` and `getCloudletReceivedList` are not modelled: the first only logs and the second only copies a set.
- Logging, `Logger` and the result tables are not modelled.
- Random numbers and calls into CloudSim that the model cannot see become parameters:
  - the selectivity draw (`draw`);
  - the failure samples of a `DistributionGenerator`;
  - the device's VM allocation result (`isAllocated`);
  - the task-to-VM mapper's result in the broker (`mapping`);
  - the resource list (`resources`).
- `double` arithmetic is modelled on exact reals. `Math.ceil` and the `(long)` cast are written out, and no rounding error is modelled.
- `long` sizes and sums are unbounded integers: a 64-bit overflow of a size total is not modelled.
- HashMap and HashSet iteration orders are not modelled. Where the order matters, the model takes it as a parameter or ghost result tied to the key set (`KeyOrder`), or fixes it:
  - a task's parents are visited in ascending id order (`Ascending`);
  - the engine's release scan is a choice over the waiting set.
- FogDevices.FogDevice: a handler whose Java code throws on a state the simulation never builds has that state excluded by its `requires`. It needs the task to be stored, a route to the destination and the needed files to be in the task's file map.
- FogBrokers.FogBroker: a crash of the broker is reported as `crashed = true`, with no promise about the state after it. Java would abort the simulation there.
- FogDevices.FogDevice.constructor: requires positive link bandwidths, because transfer times divide by them and Java's division of a double by zero (an infinite delay) has no counterpart over reals.
- FogBrokers.FogBroker.StageAndClose: the branch under `task.getCycle() <= maximumCycle` (FogBroker.java:259-298) is specified as unreachable. `maximumCycle` is 0, and a next-cycle copy always has a cycle of at least 1.
- FogBrokers.FogBroker.ProcessTaskIsDone: the failure draw's outcome is stated about the ghost snapshot `drawn` taken right after the draw. The final state restates the task's status and finished length from it, but not the generator's cursor, which nothing after the draw touches.
- FogBrokers.FogBroker.ProcessTaskIsDone: takes the dispatched children as an input list `children`, which must hold exactly the dispatched tasks naming the completed task as a parent (`CollectChildren` computes such a list). The order of Java's stream over the hash set is not modelled.
- Tasks.Task.GetNextCycle: the copy gets the values of the parent set, child list, file map and needed-from-parent map, where Java hands it the same collection objects (Task.java:199-200 and 206-207). Nothing in the core changes these collections after parsing, so no behaviour is lost.
- FogBrokers.FogBroker.Admit: stores the task before the setter calls, where Java calls the setters first. The final state is the same.
- FogBrokers.FogBroker.RoundRequests: requires empty create and destroy lists, which is what the only provisioner (`SimpleVmProvisioner`) returns. A provisioner that creates or destroys VMs is not modelled beyond `SendRequests` and `ProcessVmDestroyAck`.
- FogBrokers.KeptVms: requires every kept-alive id to be in the VM list. Java would store a null VM there, and it would throw later.
- The device's `updateVmProcessing`/`setBeingInstantiated` calls in VM_CREATE are not modelled, since they are CloudSim internals.
- The storage max-rate loop in EXECUTE_TASK_WITH_DATA is not modelled, because its result is never used.
- The 13-argument `Task` constructor leaves some collections null. The model gives them empty values, and nothing in the core reads them before they are set.
- PeriodicExecution.NextExecutionTime: requires a non-zero period. Java divides by the period.
- FailureConfig.FailureParameters: the Java class keeps its configuration in static fields. The model makes them the fields of one object.
- DistributionGenerator.java is not part of this model. A generator is its family, its ascending samples and a cursor.
- The commons-math distribution classes are not modelled: `GetDistribution` states the family and parameters only.
- FailureRecord and FailureMonitor (the failure bookkeeping that `generate` posts) are not modelled beyond the task's status change.
- The analyzer's routing-table computation (`buildRoutingTable`, a shortest-path computation) is not modelled. The installers take the routing table as an input.
- Reading the JSON and XML documents, `Helper.getOrDefault` and the utilization-model factories are not modelled. The readers start from the values read, with `None` for an absent optional key.
- widesim/parse/Default.java is not part of this model. The task defaults it supplies are the `TaskDefaults` parameter.
- widesim/parse/workflow/PostProcessor.java, which Parser.java calls at 143-145, is not part of this model. A workflow read from JSON therefore has no parent or child links here.
- DaxParsing.ParseInt: accepts ASCII digits only, where `Integer.parseInt` also accepts other Unicode decimal digits.
- Misty topology: a null hop from the routing table is a stored `None` route, as in Java, whereas a destination with no route gets `None` from `NextHop`.

## Findings

| source | as written | input that shows it | evidently intended | confidence | as-written member | corrected member |
|---|---|---|---|---|---|---|
| src/main/java/misty/parse/topology/PostProcessor.java:36-41 | each device gets a route only to its declared neighbours | links a→b, a→c, b→c, c→d: device_a gets no route to device_d, yet TopologyPostProcessTest.java:94-108 expects its next hop to be device_c | every destination the routing table knows from a device gets that device's first hop | not executed | TopologyPostProcessing.SetRoutingTableOfFogDevices, with the counterexample TopologyPostProcessing.NeighbourRoutesMissMultiHop | TopologyPostProcessing.InstallAllRoutes, with TopologyPostProcessing.AllRoutesFollowTable and TopologyPostProcessing.AllRoutesAgreeOnNeighbours |
| src/main/java/widesim/failure/FailureParameters.java:110-118 | the result of the first-dimension check is ignored, and the code then reads `generators[0]` | an uninitialised (null) generator table: reading `generators[0]` throws instead of returning INVALID | return INVALID when the first dimension is invalid | not executed | FailureConfig.MaxSecondIndexAsWrittenOf, with the counterexample FailureConfig.MaxSecondIndexThrowsOnNullTable | FailureConfig.MaxSecondIndexOf, used by FailureConfig.FailureParameters.GetFailureGeneratorsMaxSecondIndex, with FailureConfig.MaxSecondIndexMatchesAsWrittenOnValidTables |

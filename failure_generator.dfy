/**
 * Failure injection at task completion (widesim/failure/FailureGenerator.java):
 * a task fails when a failure instant of its generator falls in its
 * execution window.
 */
module FailureGeneration {
  import opened Wrappers
  import opened FailureConfig
  import opened Tasks

  /** The table row `checkFailureStatus` consults; None for modes that never fail. */
  function GeneratorIndex(mode: FTCFailure, vmId: int): (r: Option<int>)
    ensures r.Some? <==> mode != FailureNone
    ensures mode == FailureAll ==> r == Some(0)
    ensures mode == FailureVm ==> r == Some(vmId)
  {
    match mode
    case FailureAll => Some(0)
    case FailureVm => Some(vmId)
    case FailureNone => None
  }

  /**
   * The sample scan from index `i`: a sample past the window's end means no
   * failure, a sample not before its start means a failure.
   */
  function ScanFrom(samples: seq<real>, start: real, end: real, i: nat): (r: bool)
    requires i <= |samples|
    ensures r ==> exists k :: i <= k < |samples| && start <= samples[k] <= end
    decreases |samples| - i
  {
    if i == |samples| then false
    else if end < samples[i] then false
    else if start <= samples[i] then true
    else ScanFrom(samples, start, end, i + 1)
  }

  function FailsInWindow(samples: seq<real>, start: real, end: real): (r: bool)
    ensures r ==> exists k :: 0 <= k < |samples| && start <= samples[k] <= end
  {
    ScanFrom(samples, start, end, 0)
  }

  predicate Ascending(samples: seq<real>)
  {
    forall i, j :: 0 <= i < j < |samples| ==> samples[i] <= samples[j]
  }

  lemma {:induction false} ScanFromFindsSample(samples: seq<real>, start: real, end: real, i: nat, k: nat)
    requires Ascending(samples)
    requires i <= k < |samples| && start <= samples[k] <= end
    ensures ScanFrom(samples, start, end, i)
    decreases k - i
  {
    assert samples[i] <= samples[k];
    if end < samples[i] {
    } else if start <= samples[i] {
    } else {
      ScanFromFindsSample(samples, start, end, i + 1, k);
    }
  }

  /**
   * On ascending cumulative samples the scan reports a failure exactly when
   * some failure instant lies within [start, end].
   */
  lemma FailsInWindowIffSampleInWindow(samples: seq<real>, start: real, end: real)
    requires Ascending(samples)
    ensures FailsInWindow(samples, start, end)
        <==> exists k :: 0 <= k < |samples| && start <= samples[k] <= end
  {
    if k :| 0 <= k < |samples| && start <= samples[k] <= end {
      ScanFromFindsSample(samples, start, end, 0, k);
    }
  }

  /** The generator `checkFailureStatus` draws from for VM `vmId`, as a frame: empty when there is none. */
  ghost function SelectedFrame(params: FailureParameters, vmId: int): set<DistributionGenerator>
    reads params`failureMode, params`generators
  {
    var index := GeneratorIndex(params.failureMode, vmId);
    if index.Some? && params.SelectedGenerator(index.value).Some? then {params.SelectedGenerator(index.value).value} else {}
  }

  /**
   * `checkFailureStatus(task, vmId)`: None where Java throws (no generator at
   * the index, or a null one). A failure advances that generator's cursor.
   */
  method CheckFailureStatus(params: FailureParameters, task: Task, vmId: int) returns (r: Option<bool>)
    modifies SelectedFrame(params, vmId)`cursor
    ensures GeneratorIndex(params.failureMode, vmId).None? ==> r == Some(false)
    ensures GeneratorIndex(params.failureMode, vmId).Some? ==>
      var g := params.SelectedGenerator(GeneratorIndex(params.failureMode, vmId).value);
      (g.None? ==> r.None?)
      && (g.Some? ==>
            r == Some(FailsInWindow(g.value.samples, task.execStartTime, task.finishTime))
            && g.value.samples == old(g.value.samples)
            && g.value.cursor == old(g.value.cursor) + (if r.value then 1 else 0))
  {
    var index := GeneratorIndex(params.failureMode, vmId);
    if index.None? {
      return Some(false);
    }
    var selected := params.SelectedGenerator(index.value);
    if selected.None? {
      return None;
    }
    var generator := selected.value;
    var start := task.execStartTime;
    var end := task.finishTime;
    var samples := generator.samples;
    var sampleId := 0;
    while sampleId < |samples|
      invariant 0 <= sampleId <= |samples|
      invariant ScanFrom(samples, start, end, sampleId) == FailsInWindow(samples, start, end)
    {
      if end < samples[sampleId] {
        return Some(false);
      }
      if start <= samples[sampleId] {
        generator.GetNextSample();
        return Some(true);
      }
      sampleId := sampleId + 1;
    }
    return Some(false);
  }

  /** What `generate` decides from the scan's outcome: a thrown exception never fails the task. */
  function TaskFails(mode: FTCFailure, check: Option<bool>): (r: bool)
    ensures r <==> mode != FailureNone && check == Some(true)
  {
    if mode == FailureNone then false
    else match check
      case None => false
      case Some(b) => b
  }

  /**
   * `generate(task)`: with failures enabled, a failing task becomes FAILED
   * with nothing finished and any other becomes SUCCESS; an exception in the
   * check leaves the status alone and reports no failure.
   */
  method Generate(params: FailureParameters, task: Task) returns (failed: bool)
    modifies task`status, task`finishedSoFar
    modifies SelectedFrame(params, task.vmId)`cursor
    ensures params.failureMode == FailureNone ==>
      !failed && task.status == old(task.status) && task.finishedSoFar == old(task.finishedSoFar)
    ensures params.failureMode != FailureNone ==>
      var g := params.SelectedGenerator(GeneratorIndex(params.failureMode, task.vmId).value);
      (g.None? ==> !failed && task.status == old(task.status) && task.finishedSoFar == old(task.finishedSoFar))
      && (g.Some? ==>
            failed == old(FailsInWindow(g.value.samples, task.execStartTime, task.finishTime))
            && (failed ==> task.status == Failed && task.finishedSoFar == 0)
            && (!failed ==> task.status == Success && task.finishedSoFar == old(task.finishedSoFar))
            && g.value.samples == old(g.value.samples)
            && g.value.cursor == old(g.value.cursor) + (if failed then 1 else 0))
    ensures Generated(params, task, task.vmId, failed)
  {
    if params.failureMode == FailureNone {
      return false;
    }
    var check := CheckFailureStatus(params, task, task.vmId);
    failed := TaskFails(params.failureMode, check);
    if check.Some? {
      if failed {
        task.status := Failed;
        task.finishedSoFar := 0;
      } else {
        task.status := Success;
      }
    }
  }

  /** The failure settings of the parameters, as one value. */
  ghost function Settings(params: FailureParameters): (FTCMonitor, FTCFailure, DistributionFamily, Table)
    reads params`monitorMode, params`failureMode, params`distribution, params`generators
  {
    (params.monitorMode, params.failureMode, params.distribution, params.generators)
  }

  /** What `generate` reads and writes for a task on VM `vmId`, in one state. */
  datatype Observed = Observed(settings: (FTCMonitor, FTCFailure, DistributionFamily, Table),
                               status: CloudletStatus, finishedSoFar: int, start: real, end: real,
                               generator: Option<(seq<real>, nat)>)

  /** The observed state: the selected generator's samples and cursor, when there is one. */
  ghost function Observe(params: FailureParameters, task: Task, vmId: int): Observed
    reads params`monitorMode, params`failureMode, params`distribution, params`generators
    reads task`status, task`finishedSoFar, task`execStartTime, task`finishTime
    reads SelectedFrame(params, vmId)`samples, SelectedFrame(params, vmId)`cursor
  {
    var index := GeneratorIndex(params.failureMode, vmId);
    var g := if index.Some? then params.SelectedGenerator(index.value) else None;
    Observed(Settings(params), task.status, task.finishedSoFar, task.execStartTime, task.finishTime,
             if g.Some? then Some((g.value.samples, g.value.cursor)) else None)
  }

  /**
   * What `generate` leaves from `before` to `after`: the settings stay; with
   * failures off or no generator nothing changes and nothing fails; otherwise
   * the task fails iff a sample lies in its execution window, a failure sets
   * FAILED with nothing finished and advances the cursor, and a success sets
   * SUCCESS.
   */
  ghost predicate GeneratedBetween(before: Observed, after: Observed, failed: bool)
  {
    && after.settings == before.settings
    && match before.generator
       case None =>
         !failed && after.status == before.status && after.finishedSoFar == before.finishedSoFar
       case Some((samples, cursor)) =>
         && failed == FailsInWindow(samples, before.start, before.end)
         && (failed ==> after.status == Failed && after.finishedSoFar == 0)
         && (!failed ==> after.status == Success && after.finishedSoFar == before.finishedSoFar)
         && after.generator == Some((samples, cursor + (if failed then 1 else 0)))
  }

  /**
   * What `generate` left between the two states: the parameters themselves
   * are untouched, and the task's status and finishedSoFar and the cursor of
   * its selected generator are as in Generate's contract, given the task's
   * VM id `vmId`.
   */
  twostate predicate Generated(params: FailureParameters, task: Task, vmId: int, failed: bool)
    reads params`monitorMode, params`failureMode, params`distribution, params`generators
    reads task`status, task`finishedSoFar, task`execStartTime, task`finishTime
    reads SelectedFrame(params, vmId)`samples, SelectedFrame(params, vmId)`cursor
  {
    GeneratedBetween(old(Observe(params, task, vmId)), Observe(params, task, vmId), failed)
  }

}

/**
 * The default provisioning policy (widesim/provision/SimpleVmProvisioner.java):
 * after a round it creates nothing, destroys nothing and keeps every created VM.
 */
module SimpleProvisioner {
  import opened Tasks
  import opened Messages

  /** The provisioner's triple: VMs to create, VM ids to destroy, VM ids to keep alive. */
  datatype Provision = Provision(toCreate: seq<int>, toDestroy: seq<int>, keepAlive: seq<int>)

  /** The ids of a VM list, in list order (`createdVms.stream().map(Vm::getId)`). */
  function VmIds(vms: seq<Vm>): (r: seq<int>)
    ensures |r| == |vms| && forall i :: 0 <= i < |vms| ==> r[i] == vms[i].id
  {
    if vms == [] then [] else [vms[0].id] + VmIds(vms[1..])
  }

  function Provide(failedVms: seq<Vm>, createdVms: seq<Vm>, vms: seq<Vm>, taskToVm: map<int, int>,
                   completedTasks: set<Task>, dispatchedTasks: set<Task>, queuedTasks: seq<Task>): (r: Provision)
    ensures r.toCreate == [] && r.toDestroy == []
    ensures |r.keepAlive| == |createdVms| && forall i :: 0 <= i < |createdVms| ==> r.keepAlive[i] == createdVms[i].id
  {
    Provision([], [], VmIds(createdVms))
  }

  /** The result is a function of the created VMs alone: any other arguments give the same triple. */
  lemma ProvideDependsOnCreatedOnly(failed1: seq<Vm>, failed2: seq<Vm>, created: seq<Vm>, vms1: seq<Vm>, vms2: seq<Vm>,
                                    ledger1: map<int, int>, ledger2: map<int, int>,
                                    completed1: set<Task>, completed2: set<Task>, dispatched1: set<Task>, dispatched2: set<Task>,
                                    queued1: seq<Task>, queued2: seq<Task>)
    ensures Provide(failed1, created, vms1, ledger1, completed1, dispatched1, queued1)
         == Provide(failed2, created, vms2, ledger2, completed2, dispatched2, queued2)
  {
  }

  /** Every created VM is kept alive, and nothing but a created VM. */
  lemma KeepAliveIsCreated(failedVms: seq<Vm>, createdVms: seq<Vm>, vms: seq<Vm>, taskToVm: map<int, int>,
                           completedTasks: set<Task>, dispatchedTasks: set<Task>, queuedTasks: seq<Task>, id: int)
    ensures id in Provide(failedVms, createdVms, vms, taskToVm, completedTasks, dispatchedTasks, queuedTasks).keepAlive
        <==> exists i :: 0 <= i < |createdVms| && createdVms[i].id == id
  {
    var k := Provide(failedVms, createdVms, vms, taskToVm, completedTasks, dispatchedTasks, queuedTasks).keepAlive;
    if id in k {
      var i :| 0 <= i < |k| && k[i] == id;
      assert createdVms[i].id == id;
    }
  }
}

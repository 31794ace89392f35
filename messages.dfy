/**
 * What the entities exchange: event tags, message payloads, the events an
 * entity sends (target, delay, tag, payload) and the VMs they talk about.
 * The CloudSim kernel that delivers events is outside the model: each entity
 * keeps the sequence of events it has sent.
 */
module Messages {
  import opened Wrappers
  import opened Tasks

  /** A VM (widesim/entity/FogVm.java): its id and the name of the fog device it is pinned to, if any. */
  datatype Vm = Vm(id: int, assignedFogDeviceId: Option<string>)

  /** CloudSim's `VmList.getById`: the first VM in the list with that id, or null. */
  function GetById(vms: seq<Vm>, id: int): (r: Option<Vm>)
    ensures r.Some? <==> exists i :: 0 <= i < |vms| && vms[i].id == id
    ensures r.Some? ==> r.value.id == id && r.value in vms
    ensures r.Some? ==> exists i :: 0 <= i < |vms| && vms[i] == r.value
                          && forall j :: 0 <= j < i ==> vms[j].id != id
  {
    if vms == [] then None
    else if vms[0].id == id then Some(vms[0])
    else
      var r := GetById(vms[1..], id);
      assert r.Some? ==> exists i :: 0 <= i < |vms| && vms[i] == r.value
                          && forall j :: 0 <= j < i ==> vms[j].id != id by {
        if r.Some? {
          var i :| 0 <= i < |vms[1..]| && vms[1..][i] == r.value
                   && forall j :: 0 <= j < i ==> vms[1..][j].id != id;
          assert vms[i + 1] == r.value;
          forall j | 0 <= j < i + 1 ensures vms[j].id != id {
            if j > 0 { assert vms[j] == vms[1..][j - 1]; }
          }
        }
      }
      assert (exists i :: 0 <= i < |vms| && vms[i].id == id) ==> r.Some? by {
        if i :| 0 <= i < |vms| && vms[i].id == id {
          assert i > 0 && vms[1..][i - 1].id == id;
        }
      }
      r
  }

  /** A VM found by its id is found again by that id. */
  lemma GetByIdOfFound(vms: seq<Vm>, id: int)
    requires GetById(vms, id).Some?
    ensures GetById(vms, GetById(vms, id).value.id) == GetById(vms, id)
  {
  }

  /** The datacenter characteristics a fog device reports; only its identity matters here. */
  datatype Characteristics = Characteristics(datacenterId: int)

  /** Event tags: the simulator's own message tags and the CloudSim tags the entities handle. */
  datatype Tag =
    | Init
    | IncomingTask
    | ResourceRequest
    | ResourceRequestResponse
    | BroadcastId
    | VmCreate
    | VmCreateAck
    | VmDestroy
    | VmDestroyAck
    | ExecuteTask
    | ExecuteTaskWithData
    | TaskIsDone
    | StageOutData
    | FogToFog
    | DownloadedFogToFog
    | UpLinkIsFree
    | DownLinkIsFree
    | CloudletSubmitAck
    | CloudletReturn
    | RegisterResource
    | OtherTag(code: int)

  datatype Payload =
    | NoData
    | TaskData(task: Task)
    | ExecuteTaskMsg(task: Task, vmId: int)
    | IncomingTaskMsg(task: Task)
    | TaskIsDoneMsg(task: Task)
    | StageOutDataMsg(taskId: int, cycle: int, dstFogDeviceId: int, isData: bool, neededFiles: Option<seq<string>>)
    | FogToFogMsg(dstFogDeviceId: int, taskId: int, cycle: int, data: int, isData: bool)
    | VmCreateMsg(vm: Option<Vm>)
    | VmCreateAckMsg(datacenterId: int, vmId: int, isCreated: bool)
    | VmDestroyMsg(vmId: int)
    | ResourceRequestResponseMsg(characteristics: Characteristics)
    | BroadcastIdMsg(name: string, id: int)

  /** `send(target, delay, tag, payload)`; `sendNow` is a send with delay 0. */
  datatype Event = Event(target: int, delay: real, tag: Tag, payload: Payload)

  function SendNow(target: int, tag: Tag, payload: Payload): (e: Event)
    ensures e.target == target && e.delay == 0.0 && e.tag == tag && e.payload == payload
  {
    Event(target, 0.0, tag, payload)
  }

  /** How many events in a sequence carry a tag. */
  function CountTag(events: seq<Event>, tag: Tag): (n: nat)
  {
    if events == [] then 0
    else (if events[0].tag == tag then 1 else 0) + CountTag(events[1..], tag)
  }

  /** A sequence with no event of `tag` counts none. */
  lemma {:induction false} NoReleaseCounted(events: seq<Event>, tag: Tag)
    requires forall j :: 0 <= j < |events| ==> events[j].tag != tag
    ensures CountTag(events, tag) == 0
    decreases |events|
  {
    if events != [] {
      assert forall j :: 0 <= j < |events| - 1 ==> events[1..][j] == events[j + 1];
      NoReleaseCounted(events[1..], tag);
    }
  }

  lemma {:induction false} CountTagAppend(a: seq<Event>, b: seq<Event>, tag: Tag)
    ensures CountTag(a + b, tag) == CountTag(a, tag) + CountTag(b, tag)
    decreases |a|
  {
    if a == [] {
      assert a + b == b;
    } else {
      assert (a + b)[1..] == a[1..] + b;
      CountTagAppend(a[1..], b, tag);
    }
  }
}

/**
 * The default VM placement (widesim/mapper/SimpleVmToFogDeviceMapper.java):
 * a VM pinned to a device name goes to the device with that name, any other
 * VM at list position i to the i-th reporting device modulo their number.
 */
module SimpleVmToFogDevice {
  import opened Wrappers
  import opened Messages

  /** A fog device as the mapper sees it: its name and its entity id. */
  datatype DeviceRef = DeviceRef(name: string, id: int)

  /** `fogDevices.stream().filter(name matches).findAny()`: the first device with that name. */
  function FindByName(devices: seq<DeviceRef>, name: string): (r: Option<DeviceRef>)
    ensures r.Some? <==> exists i :: 0 <= i < |devices| && devices[i].name == name
    ensures r.Some? ==> r.value.name == name && r.value in devices
  {
    if devices == [] then None
    else if devices[0].name == name then Some(devices[0])
    else
      var r := FindByName(devices[1..], name);
      assert (exists i :: 0 <= i < |devices| && devices[i].name == name) ==> r.Some? by {
        if i :| 0 <= i < |devices| && devices[i].name == name {
          assert devices[1..][i - 1].name == name;
        }
      }
      r
  }

  /**
   * The device of the VM at position `index`; None where Java throws: a pinned
   * name no device carries (`null.getId()`), or an unpinned VM when no device
   * reported characteristics (`% 0`).
   */
  function Choice(vm: Vm, index: nat, deviceIds: seq<int>, devices: seq<DeviceRef>): (r: Option<int>)
    ensures vm.assignedFogDeviceId.Some? ==>
      (r.Some? <==> exists i :: 0 <= i < |devices| && devices[i].name == vm.assignedFogDeviceId.value)
    ensures vm.assignedFogDeviceId.Some? && r.Some? ==>
      exists i :: 0 <= i < |devices| && devices[i].name == vm.assignedFogDeviceId.value && devices[i].id == r.value
    ensures vm.assignedFogDeviceId.None? ==> (r.Some? <==> deviceIds != [])
    ensures vm.assignedFogDeviceId.None? && r.Some? ==> r.value == deviceIds[index % |deviceIds|]
  {
    match vm.assignedFogDeviceId
    case Some(name) =>
      (match FindByName(devices, name)
       case None => None
       case Some(d) => Some(d.id))
    case None =>
      if deviceIds == [] then None else Some(deviceIds[index % |deviceIds|])
  }

  /** The mapping built over the first `|vms|` VMs, a later VM with the same id replacing an earlier one. */
  function Fold(vms: seq<Vm>, deviceIds: seq<int>, devices: seq<DeviceRef>): (r: Option<map<int, int>>)
    ensures r.Some? <==> forall i :: 0 <= i < |vms| ==> Choice(vms[i], i, deviceIds, devices).Some?
    ensures r.Some? ==> r.value.Keys == set i | 0 <= i < |vms| :: vms[i].id
  {
    if vms == [] then Some(map[])
    else
      var n := |vms| - 1;
      match Fold(vms[..n], deviceIds, devices)
      case None =>
        assert !forall i :: 0 <= i < |vms| ==> Choice(vms[i], i, deviceIds, devices).Some? by {
          var i :| 0 <= i < n && Choice(vms[..n][i], i, deviceIds, devices).None?;
          assert vms[..n][i] == vms[i];
        }
        None
      case Some(m) =>
        match Choice(vms[n], n, deviceIds, devices)
        case None => None
        case Some(d) =>
          var all, before := set i | 0 <= i < |vms| :: vms[i].id, set i | 0 <= i < n :: vms[..n][i].id;
          assert all == before + {vms[n].id} by {
            forall x | x in all ensures x in before + {vms[n].id} {
              var i :| 0 <= i < |vms| && vms[i].id == x;
              if i < n { assert vms[..n][i].id == x; }
            }
          }
          Some(m[vms[n].id := d])
  }

  /** A VM id gets the choice made for its last position in the list. */
  lemma {:induction false} FoldLastOccurrenceWins(vms: seq<Vm>, deviceIds: seq<int>, devices: seq<DeviceRef>, i: nat)
    requires Fold(vms, deviceIds, devices).Some?
    requires i < |vms| && forall j :: i < j < |vms| ==> vms[j].id != vms[i].id
    ensures Fold(vms, deviceIds, devices).value[vms[i].id] == Choice(vms[i], i, deviceIds, devices).value
    decreases |vms|
  {
    var n := |vms| - 1;
    PrefixFolds(vms, deviceIds, devices);
    assert Fold(vms, deviceIds, devices).value
        == Fold(vms[..n], deviceIds, devices).value[vms[n].id := Choice(vms[n], n, deviceIds, devices).value];
    if i < n {
      assert vms[..n][i] == vms[i];
      FoldLastOccurrenceWins(vms[..n], deviceIds, devices, i);
    }
  }

  /** A fold that succeeds succeeded on the list without its last VM. */
  lemma PrefixFolds(vms: seq<Vm>, deviceIds: seq<int>, devices: seq<DeviceRef>)
    requires vms != [] && Fold(vms, deviceIds, devices).Some?
    ensures Fold(vms[..|vms| - 1], deviceIds, devices).Some?
  {
    var n := |vms| - 1;
    forall j | 0 <= j < n ensures Choice(vms[..n][j], j, deviceIds, devices).Some? {
      assert vms[..n][j] == vms[j];
    }
  }

  /**
   * Every VM gets an entry; an unpinned VM whose id occurs last at position i
   * goes to `deviceIds[i % k]`, a device that reported characteristics; a
   * pinned one goes to a device of the pinned name.
   */
  lemma Placement(vms: seq<Vm>, deviceIds: seq<int>, devices: seq<DeviceRef>, i: nat)
    requires Fold(vms, deviceIds, devices).Some?
    requires i < |vms| && forall j :: i < j < |vms| ==> vms[j].id != vms[i].id
    ensures vms[i].id in Fold(vms, deviceIds, devices).value
    ensures vms[i].assignedFogDeviceId.None? ==>
      && Fold(vms, deviceIds, devices).value[vms[i].id] == deviceIds[i % |deviceIds|]
      && Fold(vms, deviceIds, devices).value[vms[i].id] in deviceIds
    ensures vms[i].assignedFogDeviceId.Some? ==>
      exists k :: 0 <= k < |devices| && devices[k].name == vms[i].assignedFogDeviceId.value
                  && devices[k].id == Fold(vms, deviceIds, devices).value[vms[i].id]
  {
    FoldLastOccurrenceWins(vms, deviceIds, devices, i);
    assert Choice(vms[i], i, deviceIds, devices).Some?;
  }

  /** A failing prefix makes the whole fold fail: Java throws before the later VMs are mapped. */
  lemma PrefixFailureIsFinal(vms: seq<Vm>, deviceIds: seq<int>, devices: seq<DeviceRef>, n: nat)
    requires n <= |vms| && Fold(vms[..n], deviceIds, devices).None?
    ensures Fold(vms, deviceIds, devices).None?
  {
    var i :| 0 <= i < n && Choice(vms[..n][i], i, deviceIds, devices).None?;
    assert vms[i] == vms[..n][i];
  }

  /** The mapper's loop over the VM indices; `deviceIds` is the key order of the characteristics map. */
  method Map(deviceIds: seq<int>, vms: seq<Vm>, devices: seq<DeviceRef>) returns (r: Option<map<int, int>>)
    ensures r == Fold(vms, deviceIds, devices)
  {
    var vmToFogDevice: map<int, int> := map[];
    var vmIndex := 0;
    while vmIndex < |vms|
      invariant 0 <= vmIndex <= |vms|
      invariant Fold(vms[..vmIndex], deviceIds, devices) == Some(vmToFogDevice)
    {
      var vm := vms[vmIndex];
      assert vms[..vmIndex + 1][..vmIndex] == vms[..vmIndex];
      var d := Choice(vm, vmIndex, deviceIds, devices);
      if d.None? {
        assert Fold(vms[..vmIndex + 1], deviceIds, devices).None?;
        PrefixFailureIsFinal(vms, deviceIds, devices, vmIndex + 1);
        return None;
      }
      vmToFogDevice := vmToFogDevice[vm.id := d.value];
      vmIndex := vmIndex + 1;
    }
    assert vms[..vmIndex] == vms;
    r := Some(vmToFogDevice);
  }
}

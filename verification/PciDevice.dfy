/** The PCI device tree of a host. The methods update the records of a device, its parent and its
    children one after the other, and do exactly what module PciStates says. */
module PciDevice {
  import opened Options
  import opened PciStates

  class PciTree {
    const topology: Topology
    var devices: map<Id, Device>
    var lists: map<Uuid, seq<Id>>

    ghost function View(): State
      reads this
    {
      State(devices, lists)
    }

    ghost predicate Valid()
      reads this
    {
      Fits(topology, View()) && topology.Mutual()
    }

    // All devices are discovered available, and no container has one.
    constructor (topology: Topology, containers: set<Uuid>)
      requires topology.Valid() && topology.Mutual()
      ensures Valid() && this.topology == topology && Fresh(topology, View()) && lists.Keys == containers
    {
      this.topology := topology;
      devices := map d | d in topology.devType :: Device(AVAILABLE, None, None);
      lists := map c | c in containers :: [];
    }

    predicate IsAvailable(d: Id)
      requires d in devices
      reads this
    {
      devices[d].status == AVAILABLE
    }

    method SetStatus(d: Id, status: Status)
      requires d in devices
      modifies this`devices
      ensures devices == old(devices)[d := old(devices)[d].(status := status)]
    {
      devices := devices[d := devices[d].(status := status)];
    }

    method BulkUpdateStatus(ids: seq<Id>, status: Status)
      requires forall d :: d in ids ==> d in devices
      modifies this`devices
      ensures devices.Keys == old(devices.Keys)
      ensures forall d :: d in devices ==>
                devices[d] == if d in ids then old(devices)[d].(status := status) else old(devices)[d]
    {
      for i := 0 to |ids|
        invariant devices.Keys == old(devices.Keys)
        invariant forall d :: d in devices ==>
                    devices[d] == if d in ids[..i] then old(devices)[d].(status := status) else old(devices)[d]
      {
        SetStatus(ids[i], status);
        assert ids[..i + 1] == ids[..i] + [ids[i]];
      }
    }

    // The statuses an operation on d gives to its virtual functions and to its physical function.
    method MarkRelatives(d: Id, vfs: Status, pf: Option<Status>)
      requires Valid() && d in devices
      modifies this`devices
      ensures devices.Keys == old(devices.Keys)
      ensures forall k :: k in devices ==>
                devices[k] == if topology.IsChild(k, d) then old(devices)[k].(status := vfs)
                              else if pf.Some? && topology.IsChild(d, k) then old(devices)[k].(status := pf.value)
                              else old(devices)[k]
    {
      Kinship(topology, d);
      if topology.devType[d] == SRIOV_PF {
        BulkUpdateStatus(topology.children[d], vfs);
      } else if topology.devType[d] == SRIOV_VF {
        if topology.parent[d].Some? && pf.Some? {
          SetStatus(topology.parent[d].value, pf.value);
        }
      }
    }

    method Claim(d: Id, container: Uuid) returns (error: Option<PciError>)
      requires Valid() && d in devices
      modifies this`devices
      ensures Valid()
      ensures Follows(PciStates.Claim(topology, old(View()), d, container), old(View()), View(), error, [])
    {
      if devices[d].status != AVAILABLE {
        return Some(InvalidStatus);
      }
      Kinship(topology, d);
      var parent := topology.parent[d];
      if topology.devType[d] == SRIOV_PF {
        if exists v :: v in topology.children[d] && !IsAvailable(v) {
          return Some(VFInvalidStatus);
        }
      } else if topology.devType[d] == SRIOV_VF {
        if parent.Some? && devices[parent.value].status !in PARENT_OK {
          return Some(PFInvalidStatus);
        }
      }
      var pf := if parent.None? || devices[parent.value].status == AVAILABLE then Some(UNCLAIMABLE) else None;
      ghost var s := View();
      ghost var self := devices[d].(status := CLAIMED, containerUuid := Some(container));
      assert PciStates.Claim(topology, s, d, container) ==
             Done(s.(devices := Shift(topology, s.devices, d, self, Some(UNCLAIMABLE), pf)), []);
      hide PciStates.Claim;
      MarkRelatives(d, UNCLAIMABLE, pf);
      devices := devices[d := devices[d].(status := CLAIMED, containerUuid := Some(container))];
      error := None;
    }

    method Allocate(d: Id, container: Uuid) returns (error: Option<PciError>)
      requires Valid() && d in devices && container in lists
      modifies this
      ensures Valid()
      ensures Follows(PciStates.Allocate(topology, old(View()), d, container), old(View()), View(), error, [])
    {
      if devices[d].status !in {AVAILABLE, CLAIMED} {
        return Some(InvalidStatus);
      }
      if devices[d].status == CLAIMED && devices[d].containerUuid != Some(container) {
        return Some(InvalidOwner);
      }
      Kinship(topology, d);
      var parent := topology.parent[d];
      if topology.devType[d] == SRIOV_PF {
        if exists v :: v in topology.children[d] && devices[v].status !in DEPENDANTS_OK {
          return Some(VFInvalidStatus);
        }
      } else if topology.devType[d] == SRIOV_VF {
        if parent.Some? && devices[parent.value].status !in PARENT_OK {
          return Some(PFInvalidStatus);
        }
      }
      ghost var s := View();
      ghost var self := devices[d].(status := ALLOCATED, containerUuid := Some(container));
      assert PciStates.Allocate(topology, s, d, container) ==
             Done(State(Shift(topology, s.devices, d, self, Some(UNAVAILABLE), Some(UNAVAILABLE)),
                        s.lists[container := s.lists[container] + [d]]), []);
      hide PciStates.Allocate;
      MarkRelatives(d, UNAVAILABLE, Some(UNAVAILABLE));
      devices := devices[d := devices[d].(status := ALLOCATED, containerUuid := Some(container))];
      lists := lists[container := lists[container] + [d]];
      error := None;
    }

    method Remove(d: Id) returns (error: Option<PciError>)
      requires Valid() && d in devices
      modifies this`devices
      ensures Valid()
      ensures Follows(PciStates.Remove(old(View()), d), old(View()), View(), error, [])
    {
      if devices[d].status != AVAILABLE {
        return Some(InvalidStatus);
      }
      devices := devices[d := Device(REMOVED, None, None)];
      error := None;
    }

    // The first part of `free`: the virtual functions of d, and its physical function if d was the
    // last one in use.
    method FreeRelatives(d: Id) returns (freed: seq<Id>)
      requires Valid() && d in devices
      modifies this`devices
      ensures devices.Keys == old(devices.Keys)
      ensures var up := topology.parent[d].Some? && SiblingsAvailable(topology, old(View()), d);
              && freed == topology.children[d] + (if up then [topology.parent[d].value] else [])
              && forall k :: k in devices ==>
                   devices[k] == if topology.IsChild(k, d) || (up && topology.IsChild(d, k))
                                 then old(devices)[k].(status := AVAILABLE) else old(devices)[k]
    {
      freed := [];
      Kinship(topology, d);
      if topology.devType[d] == SRIOV_PF {
        BulkUpdateStatus(topology.children[d], AVAILABLE);
        freed := topology.children[d];
      }
      if topology.devType[d] == SRIOV_VF {
        var parent := topology.parent[d];
        if parent.Some? {
          Kinship(topology, parent.value);
          if forall v :: v in topology.children[parent.value] && v != d ==> IsAvailable(v) {
            SetStatus(parent.value, AVAILABLE);
            freed := [parent.value];
          }
        }
      }
    }

    // The last step takes the entry with this id out of the container's list.
    method Free(d: Id, container: Option<Uuid>) returns (error: Option<PciError>, freed: seq<Id>)
      requires Valid() && d in devices && (container.Some? ==> container.value in lists)
      modifies this
      ensures Valid()
      ensures Follows(PciStates.Free(topology, old(View()), d, container), old(View()), View(), error, freed)
    {
      freed := [];
      if devices[d].status !in {ALLOCATED, CLAIMED} {
        return Some(InvalidStatus), [];
      }
      if container.Some? && devices[d].containerUuid != container {
        return Some(InvalidOwner), [];
      }
      ghost var s := View();
      freed := FreeRelatives(d);
      var oldStatus := devices[d].status;
      devices := devices[d := Device(AVAILABLE, None, None)];
      freed := freed + [d];
      assert devices == PciStates.Free(topology, s, d, container).state.devices;
      if oldStatus == ALLOCATED && container.Some? {
        if d !in lists[container.value] {
          return Some(EntryMissing), [];
        }
        lists := lists[container.value := WithoutFirst(lists[container.value], d)];
      }
      error := None;
    }
  }

  // The method reports what the specification says, and leaves the specified state.
  ghost predicate Follows(o: Outcome, before: State, after: State, error: Option<PciError>, freed: seq<Id>) {
    match o
    case Refused(e) => error == Some(e) && after == before
    case Done(s, f) => error == None && after == s && freed == f
    case NotListed(s) => error == Some(EntryMissing) && after == s
  }

  // A device has children, or a parent, or neither.
  lemma Kinship(t: Topology, d: Id)
    requires t.Valid() && t.Mutual() && d in t.devType
    ensures d in t.children && d in t.parent
    ensures forall v :: v in t.children[d] <==> t.IsChild(v, d)
    ensures t.devType[d] != SRIOV_PF ==> t.children[d] == []
    ensures t.devType[d] != SRIOV_VF ==> t.parent[d].None?
    ensures t.parent[d].Some? ==> t.IsChild(d, t.parent[d].value)
    ensures !t.IsChild(d, d)
  {
    if t.parent[d].Some? {
      assert t.IsChild(d, t.parent[d].value);
    }
    if t.children[d] != [] {
      assert t.IsChild(t.children[d][0], d);
    }
  }
}

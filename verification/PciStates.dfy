/** The PCI device states as values: what claim, allocate, free and remove do to a device tree of
    SR-IOV physical functions (PF) and virtual functions (VF). */
module PciStates {
  import opened Options

  type Id = nat        // device id
  type Uuid = string   // container uuid

  datatype DevType = STANDARD | SRIOV_PF | SRIOV_VF

  datatype Status =
    | AVAILABLE | CLAIMED | ALLOCATED | REMOVED | DELETED | UNAVAILABLE | UNCLAIMABLE

  datatype Device = Device(status: Status, containerUuid: Option<Uuid>, requestId: Option<string>)

  // Who is whose parent; it does not change while devices are claimed and freed.
  datatype Topology = Topology(
    devType: map<Id, DevType>, parent: map<Id, Option<Id>>, children: map<Id, seq<Id>>)
  {
    predicate IsChild(v: Id, p: Id) {
      v in parent && parent[v] == Some(p)
    }

    // Only physical functions have children, all of them virtual functions.
    ghost predicate Valid() {
      && parent.Keys == devType.Keys && children.Keys == devType.Keys
      && (forall v, p {:trigger IsChild(v, p)} :: IsChild(v, p) ==>
            p in devType && devType[p] == SRIOV_PF && devType[v] == SRIOV_VF)
    }

    // Links are mutual: the list of children holds exactly the children, each once.
    ghost predicate Mutual() {
      && (forall p, v {:trigger IsChild(v, p)} :: p in children ==> (v in children[p] <==> IsChild(v, p)))
      && (forall p {:trigger NoRepeats(children[p])} :: p in children ==> NoRepeats(children[p]))
    }
  }

  ghost predicate NoRepeats(list: seq<Id>) {
    forall i, j :: 0 <= i < j < |list| ==> list[i] != list[j]
  }

  // The devices, and the list `pci_devices` (by device id) of every container.
  datatype State = State(devices: map<Id, Device>, lists: map<Uuid, seq<Id>>)

  ghost predicate Fits(t: Topology, s: State) {
    t.Valid() && s.devices.Keys == t.devType.Keys
  }

  datatype PciError = InvalidStatus | InvalidOwner | VFInvalidStatus | PFInvalidStatus | EntryMissing

  datatype Outcome =
    | Done(state: State, freed: seq<Id>)
    | Refused(error: PciError)
    | NotListed(state: State)  // `free` changed the devices, then found no list entry to remove

  const PARENT_OK := {AVAILABLE, UNCLAIMABLE, UNAVAILABLE}
  const DEPENDANTS_OK := {AVAILABLE, UNCLAIMABLE}

  // A change of one device together with its relatives: all children, and the parent.
  function Shift(t: Topology, ds: map<Id, Device>, d: Id, self: Device, kids: Option<Status>, up: Option<Status>)
    : map<Id, Device>
  {
    map k | k in ds ::
      if k == d then self
      else if kids.Some? && t.IsChild(k, d) then ds[k].(status := kids.value)
      else if up.Some? && t.IsChild(d, k) then ds[k].(status := up.value)
      else ds[k]
  }

  ghost predicate ChildrenIn(t: Topology, s: State, d: Id, statuses: set<Status>)
    requires Fits(t, s)
  {
    forall v :: t.IsChild(v, d) ==> s.devices[v].status in statuses
  }

  ghost predicate ParentIn(t: Topology, s: State, d: Id, statuses: set<Status>)
    requires Fits(t, s)
  {
    forall p :: t.IsChild(d, p) ==> s.devices[p].status in statuses
  }

  // All virtual functions of the parent other than d are available.
  ghost predicate SiblingsAvailable(t: Topology, s: State, d: Id)
    requires Fits(t, s)
  {
    forall p, v :: t.IsChild(d, p) && t.IsChild(v, p) && v != d ==> s.devices[v].status == AVAILABLE
  }

  ghost function Claim(t: Topology, s: State, d: Id, c: Uuid): Outcome
    requires Fits(t, s) && d in s.devices
  {
    var ds := s.devices;
    if ds[d].status != AVAILABLE then Refused(InvalidStatus)
    else if !ChildrenIn(t, s, d, {AVAILABLE}) then Refused(VFInvalidStatus)
    else if !ParentIn(t, s, d, PARENT_OK) then Refused(PFInvalidStatus)
    else
      var up := if ParentIn(t, s, d, {AVAILABLE}) then Some(UNCLAIMABLE) else None;
      var self := ds[d].(status := CLAIMED, containerUuid := Some(c));
      Done(s.(devices := Shift(t, ds, d, self, Some(UNCLAIMABLE), up)), [])
  }

  ghost function Allocate(t: Topology, s: State, d: Id, c: Uuid): Outcome
    requires Fits(t, s) && d in s.devices && c in s.lists
  {
    var ds := s.devices;
    if ds[d].status !in {AVAILABLE, CLAIMED} then Refused(InvalidStatus)
    else if ds[d].status == CLAIMED && ds[d].containerUuid != Some(c) then Refused(InvalidOwner)
    else if !ChildrenIn(t, s, d, DEPENDANTS_OK) then Refused(VFInvalidStatus)
    else if !ParentIn(t, s, d, PARENT_OK) then Refused(PFInvalidStatus)
    else
      var self := ds[d].(status := ALLOCATED, containerUuid := Some(c));
      Done(State(Shift(t, ds, d, self, Some(UNAVAILABLE), Some(UNAVAILABLE)), s.lists[c := s.lists[c] + [d]]), [])
  }

  function Remove(s: State, d: Id): Outcome
    requires d in s.devices
  {
    if s.devices[d].status != AVAILABLE then Refused(InvalidStatus)
    else Done(s.(devices := s.devices[d := Device(REMOVED, None, None)]), [])
  }

  function WithoutFirst(list: seq<Id>, d: Id): seq<Id> {
    if list == [] then [] else if list[0] == d then list[1..] else [list[0]] + WithoutFirst(list[1..], d)
  }

  ghost function Free(t: Topology, s: State, d: Id, owner: Option<Uuid>): Outcome
    requires Fits(t, s) && d in s.devices && (owner.Some? ==> owner.value in s.lists)
  {
    var ds := s.devices;
    if ds[d].status !in {ALLOCATED, CLAIMED} then Refused(InvalidStatus)
    else if owner.Some? && ds[d].containerUuid != owner then Refused(InvalidOwner)
    else
      var freesParent := t.parent[d].Some? && SiblingsAvailable(t, s, d);
      var up := if freesParent then Some(AVAILABLE) else None;
      var freed := t.children[d] + (if freesParent then [t.parent[d].value] else []) + [d];
      var ds' := Shift(t, ds, d, Device(AVAILABLE, None, None), Some(AVAILABLE), up);
      if ds[d].status == ALLOCATED && owner.Some? then
        var list := s.lists[owner.value];
        if d in list then Done(State(ds', s.lists[owner.value := WithoutFirst(list, d)]), freed)
        else NotListed(State(ds', s.lists))
      else Done(s.(devices := ds'), freed)
  }

  /******* Runs *******/

  datatype Op =
    | DoClaim(d: Id, c: Uuid)
    | DoAllocate(d: Id, c: Uuid)
    | DoFree(d: Id, owner: Option<Uuid>)
    | DoRemove(d: Id)

  ghost predicate Enabled(s: State, op: Op) {
    && op.d in s.devices
    && (op.DoAllocate? ==> op.c in s.lists)
    && (op.DoFree? && op.owner.Some? ==> op.owner.value in s.lists)
  }

  ghost function Attempt(t: Topology, s: State, op: Op): Outcome
    requires Fits(t, s) && Enabled(s, op)
  {
    match op
    case DoClaim(d, c) => Claim(t, s, d, c)
    case DoAllocate(d, c) => Allocate(t, s, d, c)
    case DoFree(d, owner) => Free(t, s, d, owner)
    case DoRemove(d) => Remove(s, d)
  }

  // A refused operation raises before it changes anything.
  ghost function Step(t: Topology, s: State, op: Op): (s': State)
    requires Fits(t, s) && Enabled(s, op)
    ensures Fits(t, s') && s'.lists.Keys == s.lists.Keys
  {
    var o := Attempt(t, s, op);
    if o.Refused? then s else o.state
  }

  // Operations on unknown devices or containers are not part of a run.
  ghost function Run(t: Topology, s: State, ops: seq<Op>): (s': State)
    requires Fits(t, s)
    ensures Fits(t, s') && s'.lists.Keys == s.lists.Keys
  {
    if ops == [] then s
    else
      var last := ops[|ops| - 1];
      var before := Run(t, s, ops[..|ops| - 1]);
      if Enabled(before, last) then Step(t, before, last) else before
  }

  ghost predicate Fresh(t: Topology, s: State) {
    && Fits(t, s)
    && (forall d :: d in s.devices ==> s.devices[d].status == AVAILABLE && s.devices[d].containerUuid == None)
    && (forall c :: c in s.lists ==> s.lists[c] == [])
  }
}

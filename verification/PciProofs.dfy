/** Properties of every run of claims, allocations, releases and removals of PCI devices. */
module PciProofs {
  import opened Options
  import opened PciStates

  predicate Busy(d: Device) {
    d.status == CLAIMED || d.status == ALLOCATED
  }

  predicate Blocked(d: Device) {
    d.status == UNCLAIMABLE || d.status == UNAVAILABLE
  }

  // One physical function p and one of its virtual functions v.
  ghost predicate Pair(s: State, p: Id, v: Id)
    requires p in s.devices && v in s.devices
  {
    var pf, vf := s.devices[p], s.devices[v];
    && !(Busy(pf) && Busy(vf))
    && (pf.status == CLAIMED ==> vf.status == UNCLAIMABLE)
    && (pf.status == ALLOCATED ==> vf.status == UNAVAILABLE)
    && (Blocked(vf) ==> Busy(pf))
    && (Busy(vf) ==> Blocked(pf))
    && (vf.status == ALLOCATED ==> pf.status == UNAVAILABLE)
  }

  // One device on its own.
  ghost predicate Single(t: Topology, s: State, d: Id)
    requires Fits(t, s) && d in s.devices
  {
    var dev := s.devices[d];
    && (dev.containerUuid.Some? <==> Busy(dev))
    && dev.status != DELETED
    && (Blocked(dev) ==> t.devType[d] == SRIOV_PF || t.parent[d].Some?)
  }

  // A physical function is blocked for a reason.
  ghost predicate Reasoned(t: Topology, s: State, p: Id)
    requires Fits(t, s) && p in s.devices
  {
    t.devType[p] == SRIOV_PF && Blocked(s.devices[p]) ==>
      exists v :: t.IsChild(v, p) && (Busy(s.devices[v]) || s.devices[v].status == REMOVED)
  }

  ghost predicate Consistent(t: Topology, s: State) {
    && Fits(t, s)
    && (forall d {:trigger Single(t, s, d)} :: d in s.devices ==> Single(t, s, d))
    && (forall p, v {:trigger Pair(s, p, v)} :: t.IsChild(v, p) ==> Pair(s, p, v))
    && (forall p {:trigger Reasoned(t, s, p)} :: p in s.devices ==> Reasoned(t, s, p))
  }

  // Neither a grandparent nor a second parent exists.
  lemma Roles(t: Topology, d: Id, p: Id, v: Id)
    requires t.Valid() && t.IsChild(v, p)
    ensures v != p && !t.IsChild(p, d) && !t.IsChild(d, v)
    ensures t.IsChild(v, d) <==> p == d
    ensures v in t.devType && p in t.devType
  {
  }

  lemma ClaimPair(t: Topology, s: State, d: Id, c: Uuid, p: Id, v: Id)
    requires Consistent(t, s) && d in s.devices && t.IsChild(v, p)
    requires Claim(t, s, d, c).Done?
    ensures Pair(Claim(t, s, d, c).state, p, v)
  {
    Roles(t, d, p, v);
    assert Pair(s, p, v) && (t.IsChild(d, p) ==> Pair(s, p, d));
    var up := if ParentIn(t, s, d, {AVAILABLE}) then Some(UNCLAIMABLE) else None;
    var self := s.devices[d].(status := CLAIMED, containerUuid := Some(c));
    assert Claim(t, s, d, c).state.devices == Shift(t, s.devices, d, self, Some(UNCLAIMABLE), up);
    assert s.devices[d].status == AVAILABLE;
    assert t.IsChild(d, p) ==> s.devices[p].status in PARENT_OK && (up.Some? <==> s.devices[p].status == AVAILABLE);
    hide Consistent, Claim, ChildrenIn, ParentIn;
  }

  lemma AllocatePair(t: Topology, s: State, d: Id, c: Uuid, p: Id, v: Id)
    requires Consistent(t, s) && d in s.devices && c in s.lists && t.IsChild(v, p)
    requires Allocate(t, s, d, c).Done?
    ensures Pair(Allocate(t, s, d, c).state, p, v)
  {
    Roles(t, d, p, v);
    assert Pair(s, p, v) && (t.IsChild(d, p) ==> Pair(s, p, d));
    var self := s.devices[d].(status := ALLOCATED, containerUuid := Some(c));
    assert Allocate(t, s, d, c).state.devices == Shift(t, s.devices, d, self, Some(UNAVAILABLE), Some(UNAVAILABLE));
    assert t.IsChild(d, p) ==> s.devices[p].status in PARENT_OK;
    hide Consistent, Allocate, ChildrenIn, ParentIn;
  }

  lemma RemovePair(t: Topology, s: State, d: Id, p: Id, v: Id)
    requires Consistent(t, s) && d in s.devices && t.IsChild(v, p)
    requires Remove(s, d).Done?
    ensures Pair(Remove(s, d).state, p, v)
  {
    assert Pair(s, p, v);
    hide Consistent;
  }

  lemma FreePair(t: Topology, s: State, d: Id, owner: Option<Uuid>, p: Id, v: Id)
    requires Consistent(t, s) && d in s.devices && t.IsChild(v, p)
    requires owner.Some? ==> owner.value in s.lists
    requires !Free(t, s, d, owner).Refused?
    ensures Pair(Free(t, s, d, owner).state, p, v)
  {
    Roles(t, d, p, v);
    assert Pair(s, p, v) && (t.IsChild(d, p) ==> Pair(s, p, d));
    var up := if t.parent[d].Some? && SiblingsAvailable(t, s, d) then Some(AVAILABLE) else None;
    var s' := Free(t, s, d, owner).state;
    assert s'.devices == Shift(t, s.devices, d, Device(AVAILABLE, None, None), Some(AVAILABLE), up);
    assert Busy(s.devices[d]);
    assert up.Some? && t.IsChild(d, p) && v != d ==> s.devices[v].status == AVAILABLE;
    hide Consistent, Free, SiblingsAvailable;
  }

  // Every step keeps the device tree consistent.
  lemma StepPair(t: Topology, s: State, op: Op, p: Id, v: Id)
    requires Consistent(t, s) && Enabled(s, op) && t.IsChild(v, p)
    ensures Pair(Step(t, s, op), p, v)
  {
    assert Pair(s, p, v);
    if !Attempt(t, s, op).Refused? {
      match op
      case DoClaim(d, c) => ClaimPair(t, s, d, c, p, v);
      case DoAllocate(d, c) => AllocatePair(t, s, d, c, p, v);
      case DoFree(d, owner) => FreePair(t, s, d, owner, p, v);
      case DoRemove(d) => RemovePair(t, s, d, p, v);
    }
  }

  // The record of k after a step, by the role of k for the device of the operation.
  lemma StepAt(t: Topology, s: State, op: Op, k: Id)
    requires Consistent(t, s) && Enabled(s, op) && k in s.devices
    requires !Attempt(t, s, op).Refused?
    ensures var d, old', new' := op.d, s.devices[k], Step(t, s, op).devices[k];
            && (k == d ==> new' == match op
                                   case DoClaim(_, c) => old'.(status := CLAIMED, containerUuid := Some(c))
                                   case DoAllocate(_, c) => old'.(status := ALLOCATED, containerUuid := Some(c))
                                   case DoFree(_, _) => Device(AVAILABLE, None, None)
                                   case DoRemove(_) => Device(REMOVED, None, None))
            && (k != d ==> new'.containerUuid == old'.containerUuid)
            && (k != d && !t.IsChild(k, d) && !t.IsChild(d, k) ==> new' == old')
            && (t.IsChild(d, k) && k != d && !op.DoFree? && !op.DoRemove? ==> Blocked(new') && !Busy(old'))
            && (t.IsChild(d, k) && k != d && op.DoFree? ==>
                  new' == if SiblingsAvailable(t, s, d) then old'.(status := AVAILABLE) else old')
  {
    match op
    case DoClaim(d, c) =>
    case DoAllocate(d, c) =>
    case DoFree(d, owner) =>
    case DoRemove(d) =>
      if t.IsChild(d, k) {
        Roles(t, d, k, d);
      }
  }

  lemma StepSingle(t: Topology, s: State, op: Op, k: Id)
    requires Consistent(t, s) && Enabled(s, op) && k in s.devices
    ensures Single(t, Step(t, s, op), k)
  {
    assert Single(t, s, k) && Single(t, s, op.d);
    assert t.IsChild(k, op.d) ==> Pair(s, op.d, k);
    assert t.IsChild(op.d, k) ==> Pair(s, k, op.d);
    hide Consistent, Claim, Allocate, Free, Remove, Shift;
    if !Attempt(t, s, op).Refused? {
      StepAt(t, s, op, k);
      StepAt(t, s, op, op.d);
      if t.IsChild(k, op.d) {
        StepPair(t, s, op, op.d, k);
      }
      if t.IsChild(op.d, k) {
        StepPair(t, s, op, k, op.d);
      }
    }
  }

  lemma StepReasoned(t: Topology, s: State, op: Op, p: Id)
    requires Consistent(t, s) && Enabled(s, op) && p in s.devices
    ensures Reasoned(t, Step(t, s, op), p)
  {
    var s', d := Step(t, s, op), op.d;
    assert Reasoned(t, s, p);
    if t.devType[p] == SRIOV_PF && Blocked(s'.devices[p]) && !Attempt(t, s, op).Refused? {
      StepAt(t, s, op, p);
      StepAt(t, s, op, d);
      if t.IsChild(d, p) && op.DoFree? {
        var q, w :| t.IsChild(d, q) && t.IsChild(w, q) && w != d && s.devices[w].status != AVAILABLE;
        BusySibling(t, s, p, d, w);
        StepAt(t, s, op, w);
        Roles(t, d, p, w);
      } else if !t.IsChild(d, p) {
        var v :| t.IsChild(v, p) && (Busy(s.devices[v]) || s.devices[v].status == REMOVED);
        StepAt(t, s, op, v);
        Roles(t, d, p, v);
      }
    }
  }

  // Next to a busy virtual function there are only available, busy and removed ones.
  lemma BusySibling(t: Topology, s: State, p: Id, d: Id, w: Id)
    requires Consistent(t, s) && t.IsChild(d, p) && t.IsChild(w, p)
    requires Busy(s.devices[d]) && s.devices[w].status != AVAILABLE
    ensures Busy(s.devices[w]) || s.devices[w].status == REMOVED
  {
    assert Pair(s, p, w) && Pair(s, p, d) && Single(t, s, w);
  }

  lemma StepKeepsConsistent(t: Topology, s: State, op: Op)
    requires Consistent(t, s) && Enabled(s, op)
    ensures Consistent(t, Step(t, s, op))
  {
    forall p, v | t.IsChild(v, p) ensures Pair(Step(t, s, op), p, v) { StepPair(t, s, op, p, v); }
    forall k | k in s.devices ensures Single(t, Step(t, s, op), k) { StepSingle(t, s, op, k); }
    forall p | p in s.devices ensures Reasoned(t, Step(t, s, op), p) { StepReasoned(t, s, op, p); }
  }

  /******* Runs *******/

  lemma FreshIsConsistent(t: Topology, s: State)
    requires Fresh(t, s)
    ensures Consistent(t, s)
  {
  }

  // Over every run from an all-available tree.
  lemma {:induction false} RunIsConsistent(t: Topology, s: State, ops: seq<Op>)
    requires Consistent(t, s)
    ensures Consistent(t, Run(t, s, ops))
  {
    if ops != [] {
      RunIsConsistent(t, s, ops[..|ops| - 1]);
      var before, last := Run(t, s, ops[..|ops| - 1]), ops[|ops| - 1];
      if Enabled(before, last) {
        StepKeepsConsistent(t, before, last);
      }
    }
  }

  ghost predicate NothingRemoved(s: State) {
    forall d :: d in s.devices ==> s.devices[d].status != REMOVED
  }

  lemma StepRemovesNothing(t: Topology, s: State, op: Op)
    requires Consistent(t, s) && Enabled(s, op) && NothingRemoved(s) && !op.DoRemove?
    ensures NothingRemoved(Step(t, s, op))
  {
    if !Attempt(t, s, op).Refused? {
      forall k | k in s.devices ensures Step(t, s, op).devices[k].status != REMOVED {
        StepAt(t, s, op, k);
        if t.IsChild(k, op.d) {
          StepPair(t, s, op, op.d, k);
        }
        if t.IsChild(op.d, k) {
          StepPair(t, s, op, k, op.d);
        }
      }
    }
  }

  lemma {:induction false} RunRemovesNothing(t: Topology, s: State, ops: seq<Op>)
    requires Consistent(t, s) && NothingRemoved(s)
    requires forall i :: 0 <= i < |ops| ==> !ops[i].DoRemove?
    ensures NothingRemoved(Run(t, s, ops))
  {
    if ops != [] {
      var before, last := Run(t, s, ops[..|ops| - 1]), ops[|ops| - 1];
      RunRemovesNothing(t, s, ops[..|ops| - 1]);
      RunIsConsistent(t, s, ops[..|ops| - 1]);
      hide Step, Consistent, NothingRemoved;
      if Enabled(before, last) {
        StepRemovesNothing(t, before, last);
      }
    }
  }

  // In a run without removals a physical function is blocked exactly while one of its virtual
  // functions is claimed or allocated; so freeing the last one always frees the physical function.
  lemma BlockedIffChildBusy(t: Topology, s: State, ops: seq<Op>, p: Id)
    requires Fresh(t, s) && p in s.devices && t.devType[p] == SRIOV_PF
    requires forall i :: 0 <= i < |ops| ==> !ops[i].DoRemove?
    ensures var r := Run(t, s, ops);
            Blocked(r.devices[p]) <==> exists v :: t.IsChild(v, p) && Busy(r.devices[v])
  {
    var r := Run(t, s, ops);
    RunIsConsistent(t, s, ops);
    RunRemovesNothing(t, s, ops);
    hide Run;
    assert Reasoned(t, r, p);
    forall v | t.IsChild(v, p) && Busy(r.devices[v]) ensures Blocked(r.devices[p]) {
      assert Pair(r, p, v);
    }
  }

  lemma StepKeepsRemoved(t: Topology, s: State, op: Op, d: Id)
    requires Consistent(t, s) && Enabled(s, op) && d in s.devices && s.devices[d].status == REMOVED
    ensures Step(t, s, op).devices[d].status == REMOVED
  {
    assert t.IsChild(d, op.d) ==> Pair(s, op.d, d);
    assert t.IsChild(op.d, d) ==> Pair(s, d, op.d);
    if !Attempt(t, s, op).Refused? {
      StepAt(t, s, op, d);
      hide Consistent;
    }
  }

  // A removed device is never used again.
  lemma {:induction false} RemovedStaysRemoved(t: Topology, s: State, ops: seq<Op>, d: Id)
    requires Consistent(t, s) && d in s.devices && s.devices[d].status == REMOVED
    ensures Run(t, s, ops).devices[d].status == REMOVED
  {
    if ops != [] {
      var before, last := Run(t, s, ops[..|ops| - 1]), ops[|ops| - 1];
      RemovedStaysRemoved(t, s, ops[..|ops| - 1], d);
      RunIsConsistent(t, s, ops[..|ops| - 1]);
      if Enabled(before, last) {
        StepKeepsRemoved(t, before, last, d);
      }
    }
  }

  lemma StepKeepsBlocked(t: Topology, s: State, op: Op, p: Id, v: Id)
    requires Consistent(t, s) && Enabled(s, op) && t.IsChild(v, p)
    requires s.devices[v].status == REMOVED && Blocked(s.devices[p])
    ensures Blocked(Step(t, s, op).devices[p])
  {
    Roles(t, op.d, p, v);
    if !Attempt(t, s, op).Refused? {
      assert op.d != p && op.d != v;
      StepAt(t, s, op, p);
      if t.IsChild(op.d, p) {
        Roles(t, op.d, p, op.d);
        assert !SiblingsAvailable(t, s, op.d);
      }
    }
  }

  // A physical function that is blocked while one of its virtual functions is removed stays so.
  lemma {:induction false} BlockedForGood(t: Topology, s: State, ops: seq<Op>, p: Id, v: Id)
    requires Consistent(t, s) && t.IsChild(v, p)
    requires s.devices[v].status == REMOVED && Blocked(s.devices[p])
    ensures Blocked(Run(t, s, ops).devices[p])
  {
    if ops != [] {
      var before, last := Run(t, s, ops[..|ops| - 1]), ops[|ops| - 1];
      BlockedForGood(t, s, ops[..|ops| - 1], p, v);
      RemovedStaysRemoved(t, s, ops[..|ops| - 1], v);
      RunIsConsistent(t, s, ops[..|ops| - 1]);
      hide Step, Consistent;
      if Enabled(before, last) {
        StepKeepsBlocked(t, before, last, p, v);
      }
    }
  }

  ghost predicate FreesParent(t: Topology, s: State, d: Id)
    requires Fits(t, s) && d in s.devices
  {
    t.parent[d].Some? && SiblingsAvailable(t, s, d)
  }

  // Which devices `free` makes available.
  lemma FreedAt(t: Topology, s: State, d: Id, owner: Option<Uuid>, k: Id)
    requires Consistent(t, s) && Enabled(s, DoFree(d, owner)) && k in s.devices
    requires Free(t, s, d, owner).Done?
    ensures s.devices[k].status != AVAILABLE && Free(t, s, d, owner).state.devices[k].status == AVAILABLE
            <==> k == d || t.IsChild(k, d) || (t.IsChild(d, k) && FreesParent(t, s, d))
  {
    StepAt(t, s, DoFree(d, owner), k);
    if t.IsChild(k, d) {
      Roles(t, d, d, k);
      assert Pair(s, d, k);
    }
    if t.IsChild(d, k) {
      Roles(t, d, k, d);
      assert Pair(s, k, d);
    }
  }

  lemma FreedList(t: Topology, d: Id, up: seq<Id>)
    requires t.Valid() && t.Mutual() && d in t.children
    requires up == [] || (up == [up[0]] && t.IsChild(d, up[0]))
    ensures NoRepeats(t.children[d] + up + [d])
    ensures forall k :: k in t.children[d] + up + [d] <==> k == d || t.IsChild(k, d) || k in up
  {
    var kids := t.children[d];
    forall v | v in kids ensures v != d && v !in up {
      assert t.IsChild(v, d);
      Roles(t, d, d, v);
    }
    if up != [] {
      Roles(t, d, up[0], d);
    }
    var all := kids + up + [d];
    assert NoRepeats(kids);
    forall i, j | 0 <= i < j < |all| ensures all[i] != all[j] {
      assert i < |kids| ==> all[i] == kids[i] && kids[i] in kids;
      assert j < |kids| ==> all[j] == kids[j];
    }
  }

  // A device in use keeps its owner until it is freed, by its owner or by a caller that names none.
  lemma OwnerKept(t: Topology, s: State, op: Op, d: Id)
    requires Consistent(t, s) && Enabled(s, op) && d in s.devices && Busy(s.devices[d])
    ensures var r := Step(t, s, op).devices[d];
            if Busy(r) then r.containerUuid == s.devices[d].containerUuid
            else op.DoFree? && op.d == d && op.owner in {None, s.devices[d].containerUuid}
  {
    assert t.IsChild(d, op.d) ==> Pair(s, op.d, d);
    assert t.IsChild(op.d, d) ==> Pair(s, d, op.d);
    if !Attempt(t, s, op).Refused? {
      StepAt(t, s, op, d);
      if d != op.d {
        hide Claim, Allocate, Free, Remove, Shift;
        if t.IsChild(d, op.d) {
          StepPair(t, s, op, op.d, d);
        }
      }
    }
  }

  /******* What each operation answers *******/

  ghost predicate ChildRemoved(t: Topology, s: State, d: Id)
    requires Fits(t, s)
  {
    exists v :: t.IsChild(v, d) && s.devices[v].status == REMOVED
  }

  ghost predicate ParentRemoved(t: Topology, s: State, d: Id)
    requires Fits(t, s)
  {
    exists p :: t.IsChild(d, p) && s.devices[p].status == REMOVED
  }

  // The relatives of a device that is not blocked, in a consistent tree.
  lemma RelativesOf(t: Topology, s: State, d: Id)
    requires Consistent(t, s) && d in s.devices
    ensures forall v :: t.IsChild(v, d) ==>
              match s.devices[d].status
              case AVAILABLE => s.devices[v].status in {AVAILABLE, REMOVED}
              case CLAIMED => s.devices[v].status == UNCLAIMABLE
              case ALLOCATED => s.devices[v].status == UNAVAILABLE
              case _ => true
    ensures forall p :: t.IsChild(d, p) ==>
              match s.devices[d].status
              case AVAILABLE => s.devices[p].status in {AVAILABLE, UNCLAIMABLE, UNAVAILABLE, REMOVED}
              case CLAIMED => s.devices[p].status in {UNCLAIMABLE, UNAVAILABLE}
              case ALLOCATED => s.devices[p].status == UNAVAILABLE
              case _ => true
    ensures ChildRemoved(t, s, d) ==> !ParentRemoved(t, s, d)
  {
    forall v | t.IsChild(v, d) ensures Pair(s, d, v) && Single(t, s, v) {
      Roles(t, d, d, v);
    }
    forall p | t.IsChild(d, p) ensures Pair(s, p, d) && Single(t, s, p) {
      Roles(t, d, p, d);
    }
    hide Consistent;
  }

  // A claim answers, in a consistent tree: done exactly for an available device without a removed
  // relative, with the device owned and its relatives blocked; otherwise the refusal says why.
  lemma ClaimAnswer(t: Topology, s: State, d: Id, c: Uuid)
    requires Consistent(t, s) && d in s.devices
    ensures var dev, o := s.devices[d], Claim(t, s, d, c);
            && (o.Done? <==> dev.status == AVAILABLE && !ChildRemoved(t, s, d) && !ParentRemoved(t, s, d))
            && (o == Refused(InvalidStatus) <==> dev.status != AVAILABLE)
            && (o == Refused(VFInvalidStatus) <==> dev.status == AVAILABLE && ChildRemoved(t, s, d))
            && (o == Refused(PFInvalidStatus) <==> dev.status == AVAILABLE && ParentRemoved(t, s, d))
            && !o.NotListed?
            && (o.Done? ==>
                  && o.state.devices[d] == Device(CLAIMED, Some(c), dev.requestId)
                  && (forall v :: t.IsChild(v, d) ==> o.state.devices[v].status == UNCLAIMABLE)
                  && (forall p :: t.IsChild(d, p) ==> Blocked(o.state.devices[p]))
                  && o.state.lists == s.lists)
  {
    RelativesOf(t, s, d);
    if Claim(t, s, d, c).Done? {
      ClaimEffect(t, s, d, c);
    }
    hide Consistent, Shift;
  }

  lemma ClaimEffect(t: Topology, s: State, d: Id, c: Uuid)
    requires Consistent(t, s) && d in s.devices && Claim(t, s, d, c).Done?
    ensures var r := Claim(t, s, d, c).state;
            && r.devices[d] == Device(CLAIMED, Some(c), s.devices[d].requestId)
            && (forall v :: t.IsChild(v, d) ==> r.devices[v].status == UNCLAIMABLE)
            && (forall p :: t.IsChild(d, p) ==> Blocked(r.devices[p]))
  {
    var r := Claim(t, s, d, c).state;
    StepAt(t, s, DoClaim(d, c), d);
    assert Step(t, s, DoClaim(d, c)) == r;
    forall v | t.IsChild(v, d) ensures r.devices[v].status == UNCLAIMABLE {
      StepPair(t, s, DoClaim(d, c), d, v);
    }
    forall p | t.IsChild(d, p) ensures Blocked(r.devices[p]) {
      StepPair(t, s, DoClaim(d, c), p, d);
    }
  }

  // An allocation: done exactly for an available device without a removed relative, and for a device
  // that the same container has claimed.
  lemma AllocateAnswer(t: Topology, s: State, d: Id, c: Uuid)
    requires Consistent(t, s) && d in s.devices && c in s.lists
    ensures var dev, o := s.devices[d], Allocate(t, s, d, c);
            && (o.Done? <==>
                || (dev.status == AVAILABLE && !ChildRemoved(t, s, d) && !ParentRemoved(t, s, d))
                || (dev.status == CLAIMED && dev.containerUuid == Some(c)))
            && (o == Refused(InvalidStatus) <==> dev.status !in {AVAILABLE, CLAIMED})
            && (o == Refused(InvalidOwner) <==> dev.status == CLAIMED && dev.containerUuid != Some(c))
            && (o == Refused(VFInvalidStatus) <==> dev.status == AVAILABLE && ChildRemoved(t, s, d))
            && (o == Refused(PFInvalidStatus) <==> dev.status == AVAILABLE && ParentRemoved(t, s, d))
            && !o.NotListed?
            && (o.Done? ==>
                  && o.state.devices[d] == Device(ALLOCATED, Some(c), dev.requestId)
                  && (forall v :: t.IsChild(v, d) ==> o.state.devices[v].status == UNAVAILABLE)
                  && (forall p :: t.IsChild(d, p) ==> o.state.devices[p].status == UNAVAILABLE)
                  && o.state.lists == s.lists[c := s.lists[c] + [d]])
  {
    RelativesOf(t, s, d);
    if Allocate(t, s, d, c).Done? {
      AllocateEffect(t, s, d, c);
    }
    hide Consistent, Shift;
  }

  lemma AllocateEffect(t: Topology, s: State, d: Id, c: Uuid)
    requires Consistent(t, s) && d in s.devices && c in s.lists && Allocate(t, s, d, c).Done?
    ensures var r := Allocate(t, s, d, c).state;
            && r.devices[d] == Device(ALLOCATED, Some(c), s.devices[d].requestId)
            && (forall v :: t.IsChild(v, d) ==> r.devices[v].status == UNAVAILABLE)
            && (forall p :: t.IsChild(d, p) ==> r.devices[p].status == UNAVAILABLE)
  {
    var r := Allocate(t, s, d, c).state;
    StepAt(t, s, DoAllocate(d, c), d);
    assert Step(t, s, DoAllocate(d, c)) == r;
    forall v | t.IsChild(v, d) ensures r.devices[v].status == UNAVAILABLE {
      StepPair(t, s, DoAllocate(d, c), d, v);
    }
    forall p | t.IsChild(d, p) ensures r.devices[p].status == UNAVAILABLE {
      StepPair(t, s, DoAllocate(d, c), p, d);
    }
  }

  // A removal: done exactly for an available device, which loses owner and request.
  lemma RemoveAnswer(s: State, d: Id)
    requires d in s.devices
    ensures var o := Remove(s, d);
            && (o.Done? <==> s.devices[d].status == AVAILABLE)
            && (o.Refused? <==> o == Refused(InvalidStatus))
            && (o.Done? ==> o.state == State(s.devices[d := Device(REMOVED, None, None)], s.lists) && o.freed == [])
  {
  }

  // The list returned by `free` is the set of devices that became available, each once.
  lemma FreedIsExact(t: Topology, s: State, d: Id, owner: Option<Uuid>)
    requires Consistent(t, s) && t.Mutual() && Enabled(s, DoFree(d, owner))
    requires Free(t, s, d, owner).Done?
    ensures var o := Free(t, s, d, owner);
            && (forall k :: k in s.devices ==>
                  (k in o.freed <==> s.devices[k].status != AVAILABLE && o.state.devices[k].status == AVAILABLE))
            && NoRepeats(o.freed)
  {
    var o, kids := Free(t, s, d, owner), t.children[d];
    var up := if FreesParent(t, s, d) then [t.parent[d].value] else [];
    assert o.freed == kids + up + [d];
    FreedList(t, d, up);
    forall k | k in s.devices
      ensures k in o.freed <==> s.devices[k].status != AVAILABLE && o.state.devices[k].status == AVAILABLE
    {
      FreedAt(t, s, d, owner, k);
    }
  }

  // Freeing a virtual function frees its parent exactly when no other one is in use and none was
  // removed: with a removed one, the parent stays blocked although nothing below it is in use.
  lemma FreeFreesParentIff(t: Topology, s: State, d: Id, owner: Option<Uuid>, p: Id)
    requires Consistent(t, s) && Enabled(s, DoFree(d, owner)) && t.IsChild(d, p)
    requires Free(t, s, d, owner).Done?
    ensures var r := Free(t, s, d, owner).state;
            && (r.devices[p].status == AVAILABLE <==>
                forall v :: t.IsChild(v, p) && v != d ==> !Busy(s.devices[v]) && s.devices[v].status != REMOVED)
            && (r.devices[p].status != AVAILABLE ==> Blocked(r.devices[p]))
  {
    StepAt(t, s, DoFree(d, owner), p);
    Roles(t, d, p, d);
    assert Pair(s, p, d);
    forall v | t.IsChild(v, p) && v != d
      ensures s.devices[v].status == AVAILABLE <==> !Busy(s.devices[v]) && s.devices[v].status != REMOVED
    {
      if s.devices[v].status != AVAILABLE {
        BusySibling(t, s, p, d, v);
      }
    }
  }

  // A claim followed by a free restores every status, unless the device is the virtual function of
  // an available parent that has another virtual function removed: then the parent stays blocked.
  lemma ClaimThenFree(t: Topology, s: State, d: Id, c: Uuid, owner: Option<Uuid>, mid: State)
    requires Consistent(t, s) && d in s.devices && Claim(t, s, d, c) == Done(mid, [])
    requires owner in {None, Some(c)} && (owner.Some? ==> c in s.lists)
    ensures Fits(t, mid) && Free(t, mid, d, owner).Done?
    ensures (forall k :: k in s.devices ==> Free(t, mid, d, owner).state.devices[k].status == s.devices[k].status)
            <==> !(ParentIn(t, s, d, {AVAILABLE}) && !SiblingsAvailable(t, s, d))
  {
    ClaimKeeps(t, s, d, c);
    StepAt(t, s, DoClaim(d, c), d);
    assert Free(t, mid, d, owner).Done?;
    hide Claim, Free, Consistent, Shift, Step;
    forall k | k in s.devices && !t.IsChild(d, k)
      ensures Free(t, mid, d, owner).state.devices[k].status == s.devices[k].status
    {
      BackAt(t, s, d, c, owner, mid, k);
    }
    if t.parent[d].Some? {
      BackAtParent(t, s, d, c, owner, mid, t.parent[d].value);
    }
  }

  // With nothing removed, always.
  lemma ClaimThenFreeRestores(t: Topology, s: State, d: Id, c: Uuid, owner: Option<Uuid>, mid: State)
    requires Consistent(t, s) && NothingRemoved(s) && d in s.devices && Claim(t, s, d, c) == Done(mid, [])
    requires owner in {None, Some(c)} && (owner.Some? ==> c in s.lists)
    ensures Fits(t, mid) && Free(t, mid, d, owner).Done?
    ensures forall k :: k in s.devices ==> Free(t, mid, d, owner).state.devices[k].status == s.devices[k].status
  {
    assert Fits(t, s);
    hide Claim, Free, Consistent, ParentIn, SiblingsAvailable, NothingRemoved;
    ClaimThenFree(t, s, d, c, owner, mid);
    if ParentIn(t, s, d, {AVAILABLE}) {
      AvailableParent(t, s, d);
    }
  }

  // So over every run without removals a claim followed by a free restores every status.
  lemma ClaimThenFreeInRun(t: Topology, s: State, ops: seq<Op>, d: Id, c: Uuid, owner: Option<Uuid>, mid: State)
    requires Fresh(t, s) && forall i :: 0 <= i < |ops| ==> !ops[i].DoRemove?
    requires d in s.devices && Claim(t, Run(t, s, ops), d, c) == Done(mid, [])
    requires owner in {None, Some(c)} && (owner.Some? ==> c in s.lists)
    ensures Fits(t, mid) && Free(t, mid, d, owner).Done?
    ensures var r := Run(t, s, ops);
            forall k :: k in r.devices ==> Free(t, mid, d, owner).state.devices[k].status == r.devices[k].status
  {
    hide Run, Claim, Free, Consistent;
    FreshIsConsistent(t, s);
    RunIsConsistent(t, s, ops);
    RunRemovesNothing(t, s, ops);
    hide NothingRemoved;
    ClaimThenFreeRestores(t, Run(t, s, ops), d, c, owner, mid);
  }

  // Below an available physical function everything is available, unless removed.
  lemma AvailableParent(t: Topology, s: State, d: Id)
    requires Consistent(t, s) && NothingRemoved(s) && d in s.devices && ParentIn(t, s, d, {AVAILABLE})
    ensures SiblingsAvailable(t, s, d)
  {
    forall p, v | t.IsChild(d, p) && t.IsChild(v, p) ensures s.devices[v].status == AVAILABLE {
      assert Pair(s, p, v) && Single(t, s, v);
    }
  }

  lemma BackAt(t: Topology, s: State, d: Id, c: Uuid, owner: Option<Uuid>, mid: State, k: Id)
    requires Consistent(t, s) && d in s.devices && k in s.devices && Claim(t, s, d, c) == Done(mid, [])
    requires Consistent(t, mid) && Enabled(mid, DoFree(d, owner)) && Free(t, mid, d, owner).Done?
    requires !t.IsChild(d, k)
    ensures k in mid.devices && Free(t, mid, d, owner).state.devices[k].status == s.devices[k].status
  {
    assert s.devices[d].status == AVAILABLE && ChildrenIn(t, s, d, {AVAILABLE});
    hide Claim, Free, Consistent, Shift;
    assert Step(t, s, DoClaim(d, c)) == mid && Step(t, mid, DoFree(d, owner)) == Free(t, mid, d, owner).state;
    hide Step;
    StepAt(t, s, DoClaim(d, c), k);
    StepAt(t, mid, DoFree(d, owner), k);
    if t.IsChild(k, d) {
      FreedAt(t, mid, d, owner, k);
    }
  }

  lemma BackAtParent(t: Topology, s: State, d: Id, c: Uuid, owner: Option<Uuid>, mid: State, p: Id)
    requires Consistent(t, s) && d in s.devices && t.IsChild(d, p) && Claim(t, s, d, c) == Done(mid, [])
    requires Consistent(t, mid) && Enabled(mid, DoFree(d, owner)) && Free(t, mid, d, owner).Done?
    ensures p in mid.devices
    ensures Free(t, mid, d, owner).state.devices[p].status == s.devices[p].status
            <==> !(ParentIn(t, s, d, {AVAILABLE}) && !SiblingsAvailable(t, s, d))
  {
    Roles(t, d, p, d);
    assert Pair(s, p, d) && Reasoned(t, s, p) && s.devices[d].status == AVAILABLE;
    assert s.devices[p].status in PARENT_OK;
    hide Claim, Free, Consistent, Shift;
    StepAt(t, mid, DoFree(d, owner), p);
    SiblingsOfClaimed(t, s, d, c, p);
    ParentOfClaimed(t, s, d, c, p);
    BlockedHasSibling(t, s, d, p);
    hide SiblingsAvailable, ParentIn;
  }

  lemma BlockedHasSibling(t: Topology, s: State, d: Id, p: Id)
    requires Consistent(t, s) && t.IsChild(d, p) && s.devices[d].status == AVAILABLE
    ensures Blocked(s.devices[p]) ==> !SiblingsAvailable(t, s, d)
  {
    Roles(t, d, p, d);
    assert Reasoned(t, s, p);
  }

  lemma SiblingsOfClaimed(t: Topology, s: State, d: Id, c: Uuid, p: Id)
    requires Consistent(t, s) && d in s.devices && t.IsChild(d, p) && Claim(t, s, d, c).Done?
    ensures SiblingsAvailable(t, s, d) <==> SiblingsAvailable(t, Claim(t, s, d, c).state, d)
  {
    forall v | t.IsChild(v, p) && v != d ensures Claim(t, s, d, c).state.devices[v] == s.devices[v] {
      Roles(t, d, p, v);
      StepAt(t, s, DoClaim(d, c), v);
    }
  }

  lemma ClaimKeeps(t: Topology, s: State, d: Id, c: Uuid)
    requires Consistent(t, s) && d in s.devices && Claim(t, s, d, c).Done?
    ensures Consistent(t, Claim(t, s, d, c).state)
  {
    StepKeepsConsistent(t, s, DoClaim(d, c));
  }

  lemma ParentOfClaimed(t: Topology, s: State, d: Id, c: Uuid, p: Id)
    requires Consistent(t, s) && d in s.devices && Claim(t, s, d, c).Done? && t.IsChild(d, p)
    ensures Claim(t, s, d, c).state.devices[p].status ==
            if s.devices[p].status == AVAILABLE then UNCLAIMABLE else s.devices[p].status
    ensures s.devices[p].status == AVAILABLE <==> ParentIn(t, s, d, {AVAILABLE})
  {
    Roles(t, d, p, d);
  }
}

/** The device lists of the containers: what `allocate` appends and `free` takes out. */
module PciLists {
  import opened Options
  import opened PciStates
  import opened PciProofs

  ghost predicate AllocatedTo(s: State, d: Id, c: Uuid) {
    d in s.devices && s.devices[d].status == ALLOCATED && s.devices[d].containerUuid == Some(c)
  }

  // Every allocated device is in the list of its container.
  ghost predicate Listed(s: State) {
    forall d, c :: AllocatedTo(s, d, c) ==> c in s.lists && d in s.lists[c]
  }

  // Every list holds exactly the devices allocated to its container, each once.
  ghost predicate ExactLists(s: State) {
    && Listed(s)
    && forall c :: c in s.lists ==> NoRepeats(s.lists[c]) && forall d :: d in s.lists[c] ==> AllocatedTo(s, d, c)
  }

  lemma {:induction false} WithoutFirstLaw(list: seq<Id>, d: Id)
    ensures forall k :: k != d ==> (k in WithoutFirst(list, d) <==> k in list)
    ensures NoRepeats(list) ==> NoRepeats(WithoutFirst(list, d)) && d !in WithoutFirst(list, d)
  {
    if list == [] {
    } else if list[0] == d {
    } else {
      WithoutFirstLaw(list[1..], d);
      assert list == [list[0]] + list[1..];
      assert NoRepeats(list) ==> list[0] !in list[1..];
    }
  }

  // Exactly the first entry goes.
  lemma {:induction false} WithoutFirstAt(list: seq<Id>, i: nat)
    requires i < |list| && forall j :: 0 <= j < i ==> list[j] != list[i]
    ensures WithoutFirst(list, list[i]) == list[..i] + list[i + 1..]
  {
    if i > 0 {
      WithoutFirstAt(list[1..], i - 1);
      assert list[1..][..i - 1] == list[1..i] && list[..i] == [list[0]] + list[1..i];
    }
  }

  // An operation changes which devices are allocated only for its own device.
  lemma AllocationsOf(t: Topology, s: State, op: Op, k: Id, c: Uuid)
    requires Consistent(t, s) && Enabled(s, op) && !Attempt(t, s, op).Refused? && k in s.devices
    ensures k != op.d ==> (AllocatedTo(Step(t, s, op), k, c) <==> AllocatedTo(s, k, c))
    ensures k == op.d ==> (AllocatedTo(Step(t, s, op), k, c) <==> op.DoAllocate? && op.c == c)
  {
    StepAt(t, s, op, k);
    if t.IsChild(k, op.d) {
      assert Pair(s, op.d, k);
      StepPair(t, s, op, op.d, k);
    }
    if t.IsChild(op.d, k) {
      assert Pair(s, k, op.d);
    }
  }

  lemma StepKeepsListed(t: Topology, s: State, op: Op)
    requires Consistent(t, s) && Enabled(s, op) && Listed(s)
    ensures Listed(Step(t, s, op))
  {
    var s' := Step(t, s, op);
    if !Attempt(t, s, op).Refused? {
      forall k, c | AllocatedTo(s', k, c) ensures c in s'.lists && k in s'.lists[c] {
        AllocationsOf(t, s, op, k, c);
        if op.DoFree? && op.owner.Some? {
          WithoutFirstLaw(s.lists[op.owner.value], op.d);
        }
      }
    }
  }

  lemma {:induction false} RunKeepsListed(t: Topology, s: State, ops: seq<Op>)
    requires Consistent(t, s) && Listed(s)
    ensures Listed(Run(t, s, ops))
  {
    if ops != [] {
      var before, last := Run(t, s, ops[..|ops| - 1]), ops[|ops| - 1];
      RunKeepsListed(t, s, ops[..|ops| - 1]);
      RunIsConsistent(t, s, ops[..|ops| - 1]);
      hide Step, Consistent, Listed;
      if Enabled(before, last) {
        StepKeepsListed(t, before, last);
      }
    }
  }

  // Over every run, `free` finds the entry it has to remove.
  lemma FreeFindsItsEntry(t: Topology, s: State, ops: seq<Op>, d: Id, owner: Option<Uuid>)
    requires Consistent(t, s) && Listed(s)
    requires d in s.devices && (owner.Some? ==> owner.value in s.lists)
    ensures !Free(t, Run(t, s, ops), d, owner).NotListed?
  {
    RunKeepsListed(t, s, ops);
    var r := Run(t, s, ops);
    hide Consistent, Run, Shift;
    if owner.Some? {
      assert AllocatedTo(r, d, owner.value) ==> d in r.lists[owner.value];
    }
  }

  /******* Releases that name no container *******/

  // The release takes an allocated device from container c without naming it.
  ghost predicate Unnamed(s: State, op: Op, d: Id, c: Uuid) {
    op == DoFree(d, None) && AllocatedTo(s, d, c)
  }

  // How often that happened in a run.
  ghost function UnnamedCount(t: Topology, s: State, ops: seq<Op>, d: Id, c: Uuid): nat
    requires Fits(t, s)
  {
    if ops == [] then 0
    else
      var before, last := Run(t, s, ops[..|ops| - 1]), ops[|ops| - 1];
      UnnamedCount(t, s, ops[..|ops| - 1], d, c) + if Unnamed(before, last, d, c) then 1 else 0
  }

  ghost function Entries(s: State, d: Id, c: Uuid): nat
    requires c in s.lists
  {
    multiset(s.lists[c])[d]
  }

  lemma {:induction false} WithoutFirstCount(list: seq<Id>, d: Id)
    ensures multiset(WithoutFirst(list, d)) == multiset(list) - multiset{d}
  {
    if list != [] {
      assert list == [list[0]] + list[1..];
      if list[0] != d {
        WithoutFirstCount(list[1..], d);
      }
    }
  }

  // A release, in a consistent tree whose lists name the allocated devices: done exactly for a device
  // in use, named by its container or by nobody. The device and its virtual functions are available
  // again, and the container that released an allocated device has one entry less.
  lemma FreeAnswer(t: Topology, s: State, d: Id, owner: Option<Uuid>)
    requires Consistent(t, s) && Listed(s) && d in s.devices && (owner.Some? ==> owner.value in s.lists)
    ensures var dev, o := s.devices[d], Free(t, s, d, owner);
            && (o.Done? <==> dev.status in {CLAIMED, ALLOCATED} && (owner.None? || dev.containerUuid == owner))
            && (o == Refused(InvalidStatus) <==> dev.status !in {CLAIMED, ALLOCATED})
            && (o == Refused(InvalidOwner) <==>
                dev.status in {CLAIMED, ALLOCATED} && owner.Some? && dev.containerUuid != owner)
            && !o.NotListed?
            && (o.Done? ==>
                  && o.state.devices[d] == Device(AVAILABLE, None, None)
                  && (forall v :: t.IsChild(v, d) ==> o.state.devices[v].status == AVAILABLE)
                  && o.state.lists.Keys == s.lists.Keys
                  && forall c :: c in s.lists ==>
                       multiset(o.state.lists[c]) ==
                       if owner == Some(c) && dev.status == ALLOCATED then multiset(s.lists[c]) - multiset{d}
                       else multiset(s.lists[c]))
  {
    var dev, o := s.devices[d], Free(t, s, d, owner);
    if owner.Some? {
      assert AllocatedTo(s, d, owner.value) ==> d in s.lists[owner.value];
      WithoutFirstCount(s.lists[owner.value], d);
    }
    hide Listed;
    if o.Done? {
      FreeEffect(t, s, d, owner);
    }
    hide Consistent, Shift, SiblingsAvailable;
  }

  lemma FreeEffect(t: Topology, s: State, d: Id, owner: Option<Uuid>)
    requires Consistent(t, s) && Enabled(s, DoFree(d, owner)) && Free(t, s, d, owner).Done?
    ensures var r := Free(t, s, d, owner).state;
            && r.devices[d] == Device(AVAILABLE, None, None)
            && forall v :: t.IsChild(v, d) ==> r.devices[v].status == AVAILABLE
  {
    var r := Free(t, s, d, owner).state;
    StepAt(t, s, DoFree(d, owner), d);
    assert Step(t, s, DoFree(d, owner)) == r;
    forall v | t.IsChild(v, d) ensures r.devices[v].status == AVAILABLE {
      FreedAt(t, s, d, owner, v);
      RelativesOf(t, s, d);
    }
  }

  lemma StepCounts(t: Topology, s: State, op: Op, d: Id, c: Uuid)
    requires Consistent(t, s) && Enabled(s, op) && Listed(s) && c in s.lists
    ensures var a, a' := if AllocatedTo(s, d, c) then 1 else 0, if AllocatedTo(Step(t, s, op), d, c) then 1 else 0;
            Entries(Step(t, s, op), d, c) - a' == Entries(s, d, c) - a + if Unnamed(s, op, d, c) then 1 else 0
  {
    if !Attempt(t, s, op).Refused? {
      if d in s.devices {
        AllocationsOf(t, s, op, d, c);
      }
      StepEntries(t, s, op, d, c);
      hide Consistent, Shift, Step, Entries;
    }
  }

  lemma StepEntries(t: Topology, s: State, op: Op, d: Id, c: Uuid)
    requires Fits(t, s) && Enabled(s, op) && Listed(s) && c in s.lists && !Attempt(t, s, op).Refused?
    ensures Entries(Step(t, s, op), d, c) ==
            if op == DoAllocate(d, c) then Entries(s, d, c) + 1
            else if op == DoFree(d, Some(c)) && AllocatedTo(s, d, c) then Entries(s, d, c) - 1
            else Entries(s, d, c)
  {
    StepLists(t, s, op);
    hide Step, Attempt, Fits;
    if op.DoFree? && op.owner.Some? {
      WithoutFirstCount(s.lists[op.owner.value], op.d);
    }
  }

  lemma StepLists(t: Topology, s: State, op: Op)
    requires Fits(t, s) && Enabled(s, op) && Listed(s) && !Attempt(t, s, op).Refused?
    ensures Step(t, s, op).lists ==
            match op
            case DoAllocate(d, c) => s.lists[c := s.lists[c] + [d]]
            case DoFree(d, Some(c)) =>
              if AllocatedTo(s, d, c) then s.lists[c := WithoutFirst(s.lists[c], d)] else s.lists
            case _ => s.lists
  {
    hide Shift, ChildrenIn, ParentIn, SiblingsAvailable;
  }

  // Over every run a container's list holds a device once while it is allocated to the container,
  // and once more for every earlier release that did not name the container.
  lemma {:induction false} ListCounts(t: Topology, s: State, ops: seq<Op>, d: Id, c: Uuid)
    requires Fresh(t, s) && c in s.lists
    ensures var r := Run(t, s, ops);
            Entries(r, d, c) == (if AllocatedTo(r, d, c) then 1 else 0) + UnnamedCount(t, s, ops, d, c)
  {
    if ops != [] {
      var init, last := ops[..|ops| - 1], ops[|ops| - 1];
      ListCounts(t, s, init, d, c);
      RunIsConsistent(t, s, init);
      RunKeepsListed(t, s, init);
      hide Step, Consistent, Listed;
      if Enabled(Run(t, s, init), last) {
        StepCounts(t, Run(t, s, init), last, d, c);
      }
    }
  }

  // Step i of the run is such a release.
  ghost predicate UnnamedAt(t: Topology, s: State, ops: seq<Op>, i: int, d: Id, c: Uuid)
    requires Fits(t, s)
  {
    0 <= i < |ops| && Unnamed(Run(t, s, ops[..i]), ops[i], d, c)
  }

  lemma UnnamedAtInit(t: Topology, s: State, ops: seq<Op>, i: int, d: Id, c: Uuid)
    requires Fits(t, s) && 0 <= i < |ops| - 1
    ensures UnnamedAt(t, s, ops[..|ops| - 1], i, d, c) <==> UnnamedAt(t, s, ops, i, d, c)
  {
    assert ops[..|ops| - 1][..i] == ops[..i];
  }

  lemma {:induction false} CountIffHappened(t: Topology, s: State, ops: seq<Op>, d: Id, c: Uuid)
    requires Fits(t, s)
    ensures UnnamedCount(t, s, ops, d, c) > 0 <==> exists i :: UnnamedAt(t, s, ops, i, d, c)
  {
    if ops != [] {
      var n := |ops| - 1;
      var init := ops[..n];
      CountIffHappened(t, s, init, d, c);
      assert UnnamedAt(t, s, ops, n, d, c) <==> Unnamed(Run(t, s, init), ops[n], d, c);
      assert forall i :: UnnamedAt(t, s, ops, i, d, c) ==> 0 <= i <= n;
      assert forall i :: UnnamedAt(t, s, init, i, d, c) ==> 0 <= i < n;
      hide Run, Unnamed, UnnamedAt;
      forall i | 0 <= i < n ensures UnnamedAt(t, s, init, i, d, c) <==> UnnamedAt(t, s, ops, i, d, c) {
        UnnamedAtInit(t, s, ops, i, d, c);
      }
    }
  }

  lemma {:induction false} NoRepeatsIff(list: seq<Id>)
    ensures NoRepeats(list) <==> forall d :: multiset(list)[d] <= 1
  {
    if list != [] {
      var x, rest := list[0], list[1..];
      NoRepeatsIff(rest);
      assert list == [x] + rest;
      assert NoRepeats(list) ==> NoRepeats(rest) && x !in rest;
      if x !in rest && NoRepeats(rest) {
        forall i, j | 0 <= i < j < |list| ensures list[i] != list[j] {
          assert list[j] == rest[j - 1] && list[j] in rest;
        }
      }
      assert x in rest ==> multiset(list)[x] > 1;
      assert forall d :: multiset(rest)[d] <= multiset(list)[d];
    }
  }

  // Device d is in the list of c once if it is allocated to c, and otherwise not.
  ghost predicate ExactAt(s: State, d: Id, c: Uuid) {
    c in s.lists ==> Entries(s, d, c) == if AllocatedTo(s, d, c) then 1 else 0
  }

  lemma ExactIffCounts(s: State)
    requires Listed(s)
    ensures ExactLists(s) <==> forall d, c :: ExactAt(s, d, c)
  {
    forall c | c in s.lists ensures NoRepeats(s.lists[c]) <==> forall d :: multiset(s.lists[c])[d] <= 1 {
      NoRepeatsIff(s.lists[c]);
    }
    if forall d, c :: ExactAt(s, d, c) {
      forall c | c in s.lists ensures NoRepeats(s.lists[c]) && forall d :: d in s.lists[c] ==> AllocatedTo(s, d, c) {
        forall d ensures multiset(s.lists[c])[d] <= 1 && (d in s.lists[c] ==> AllocatedTo(s, d, c)) {
          assert ExactAt(s, d, c);
        }
      }
    }
    hide NoRepeats;
  }

  // Over every run from an all-available tree, the lists mirror the allocations if and only if every
  // release of an allocated device named its container.
  lemma ListsMirrorAllocations(t: Topology, s: State, ops: seq<Op>)
    requires Fresh(t, s)
    ensures ExactLists(Run(t, s, ops)) <==> forall i, d, c :: !UnnamedAt(t, s, ops, i, d, c)
  {
    var r := Run(t, s, ops);
    FreshIsConsistent(t, s);
    RunKeepsListed(t, s, ops);
    ExactIffCounts(r);
    hide Run, ExactLists, Listed, ExactAt, UnnamedAt, Consistent;
    if ExactLists(r) {
      forall i, d, c ensures !UnnamedAt(t, s, ops, i, d, c) {
        assert ExactAt(r, d, c);
        ExactIffNamed(t, s, ops, d, c);
      }
    } else {
      var d, c :| !ExactAt(r, d, c);
      ExactIffNamed(t, s, ops, d, c);
    }
  }

  lemma ExactIffNamed(t: Topology, s: State, ops: seq<Op>, d: Id, c: Uuid)
    requires Fresh(t, s)
    ensures ExactAt(Run(t, s, ops), d, c) <==> forall i :: !UnnamedAt(t, s, ops, i, d, c)
  {
    FreshIsConsistent(t, s);
    CountIffHappened(t, s, ops, d, c);
    if c in s.lists {
      ListCounts(t, s, ops, d, c);
      hide Run, Unnamed, UnnamedAt;
    } else {
      forall i ensures !UnnamedAt(t, s, ops, i, d, c) {
        if 0 <= i < |ops| {
          RunKeepsListed(t, s, ops[..i]);
        }
      }
    }
  }
}

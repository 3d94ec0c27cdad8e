/** Properties of every run of claims, aborts, updates, releases and audits on one compute node. */
module TrackingRuns {
  import opened Options
  import opened Claims
  import opened Tracking
  import opened TrackingProofs
  import opened TrackingPins
  import opened TrackingAudit

  /******* A dedicated claim on a current snapshot *******/

  // The limits describe a NUMA node of the host as it is now.
  ghost predicate CurrentSnapshot(cn: ComputeNode, limits: Option<Limits>) {
    && limits.Some? && limits.value.cpuset.Some?
    && exists i :: 0 <= i < |cn.numa| && limits.value.cpuset.value == Snapshot(cn.numa[i])
  }

  // A fresh container: shared ones hold no CPUs, dedicated ones come with a current snapshot.
  ghost predicate FreshClaim(s: Tracker, c: Container, limits: Option<Limits>, pick: set<nat>) {
    && c.uuid !in s.tracked
    && (if c.dedicated then c.Cpu() >= 0 && CurrentSnapshot(s.node, limits) else c.cpus == {})
    && Possible(c, RequestOf(c), limits, pick)
  }

  // CPUs sampled from a current snapshot are free CPUs of an existing node.
  lemma SampleIsPinnable(s: Tracker, c: Container, cpu: int, limits: Option<Limits>, pick: set<nat>)
    requires CurrentSnapshot(s.node, limits) && IsSample(Choices(limits).value, Trunc(cpu), pick)
    requires c.cpus == pick && c.node == limits.value.cpuset.value.node
    ensures Pinnable(s, c)
  {
    var i :| 0 <= i < |s.node.numa| && limits.value.cpuset.value == Snapshot(s.node.numa[i]);
    assert s.node.numa[i].id == c.node && c.cpus <= s.node.numa[i].FreeCpus();
  }

  // When the test passes, the choice of CPUs succeeds with the whole part of the request, all of
  // them free, and pinning them raises nothing.
  lemma DedicatedClaimSucceeds(
    s: Tracker, c: Container, pci: bool, limits: Option<Limits>, pick: set<nat>)
    requires DistinctIds(s.node.numa)
    requires c.dedicated && FreshClaim(s, c, limits, pick) && !NeedsNoClaim(c, pci)
    requires ClaimTest(s.node, RequestOf(c), Effective(limits)).Passed?
    ensures var r := ContainerClaim(s, c, pci, limits, pick);
            && r.Claimed? && r.step.error.None?
            && |r.container.cpus| == Trunc(c.Cpu())
            && Pinnable(s, r.container)
            && r.step.state.tracked == s.tracked[c.uuid := r.container]
  {
    var cs := limits.value.cpuset.value;
    PassedIff(s.node, RequestOf(c), Effective(limits));
    EnoughToSample(cs, c.Cpu());
    var c1 := c.(cpus := pick, node := cs.node);
    SampleIsPinnable(s, c1, c.Cpu(), limits, pick);
    ChargeRaisesNothing(s, c1);
  }

  // On any snapshot, also an outdated one, an admitted dedicated claim raises exactly when the node
  // it names is one of the host and the chosen CPUs are not all free there. The container is then
  // tracked and charged all the same, and nothing is pinned.
  lemma DedicatedClaimRaisesIff(s: Tracker, c: Container, pci: bool, limits: Option<Limits>, pick: set<nat>)
    requires DistinctIds(s.node.numa) && c.uuid !in s.tracked && c.dedicated
    requires ContainerClaim(s, c, pci, limits, pick).Claimed?
    ensures var r := ContainerClaim(s, c, pci, limits, pick);
            var nodes, after := s.node.numa, r.step.state.node.numa;
            && (r.step.error.Some? <==>
                exists i :: 0 <= i < |nodes| && nodes[i].id == r.container.node && !(pick <= nodes[i].FreeCpus()))
            && r.step.state.tracked == s.tracked[c.uuid := r.container]
            && Counters(r.step.state.node) == Counters(s.node).Plus(UsageOf(c))
            && |after| == |nodes|
            && (r.step.error.Some? ==> forall i :: 0 <= i < |nodes| ==> after[i].pinnedCpus == nodes[i].pinnedCpus)
  {
    var r := ContainerClaim(s, c, pci, limits, pick);
    var nodes, c1 := s.node.numa, r.container;
    assert c1.cpus == pick && UsageOf(c1) == UsageOf(c);
    CountersLaw(s.node, c1, 1);
    UpdateNumaLaw(nodes, c1, 1);
    var (after, e) := UpdateNuma(nodes, c1, 1);
    hide ContainerClaim, UpdateNuma;
    forall i | 0 <= i < |nodes| && nodes[i].id == c1.node
      ensures e.Some? <==> !(pick <= nodes[i].FreeCpus())
      ensures e.Some? ==> after[i].pinnedCpus == nodes[i].pinnedCpus
    {
      assert UpdatedAt(nodes[i], after[i], e, c1, 1);
      PinFailsIff(nodes[i].(memAvailable := nodes[i].memAvailable - c1.Mem() * 1), pick);
    }
  }

  lemma PinFailsIff(n: NumaNode, cpus: set<nat>)
    ensures n.PinCpus(cpus).PinFailed? <==> !(cpus <= n.FreeCpus())
  {
    if x :| x in cpus && x !in n.FreeCpus() {
      assert x in cpus - n.cpuset || x in n.pinnedCpus * cpus;
    } else {
      assert cpus - n.cpuset == {} && n.pinnedCpus * cpus == {};
    }
  }

  /******* Runs *******/

  datatype Event =
    | Claim(c: Container, pci: bool, limits: Option<Limits>, pick: set<nat>)
    | AbortClaim(clone: Container)
    | Update(new': Container, old': Container, limits: Option<Limits>, pick: set<nat>)
    | AbortUpdate(new': Container, old': Container)
    | Release(c: Container)
    | Audit(list: seq<Container>, base: seq<int>)

  function Apply(s: Tracker, e: Event): Tracker {
    match e
    case Claim(c, pci, limits, pick) => After(s, ContainerClaim(s, c, pci, limits, pick))
    case AbortClaim(clone) => TrackContainer(s, clone, true).state
    case Update(new', old', limits, pick) => After(s, ContainerUpdateClaim(s, new', old', limits, pick))
    case AbortUpdate(new', old') => TrackUpdate(s, old', new').state
    case Release(c) => TrackContainer(s, c, true).state
    case Audit(list, base) => if |base| == |s.node.numa| then Audited(s, base, list) else s
  }

  // Containers are claimed when fresh, updated and released as they are recorded. An abort passes
  // clones taken before CPUs were chosen: without CPUs or, for a shared container, with those it
  // still holds. The audit gets the tracked containers.
  ghost predicate Matching(s: Tracker, e: Event) {
    match e
    case Claim(c, _, limits, pick) => FreshClaim(s, c, limits, pick)
    case AbortClaim(clone) =>
      clone.cpus == {} && clone.uuid in s.tracked && UsageOf(s.tracked[clone.uuid]) == UsageOf(clone)
    case Update(new', old', limits, pick) =>
      && Recorded(s, old') && new'.uuid == old'.uuid
      && (if new'.dedicated
          then CurrentSnapshot(s.node, limits) && Possible(new', UpdateRequest(new', old'), limits, pick)
          else new'.cpus == {} || (new'.cpus == old'.cpus && new'.node == old'.node))
    case AbortUpdate(new', old') =>
      && new'.uuid == old'.uuid && SameCpus(new', old') && new'.uuid in s.tracked
      && (if new'.cpus == {} then UsageOf(s.tracked[new'.uuid]) == UsageOf(new') else Recorded(s, new'))
    case Release(c) => Recorded(s, c)
    case Audit(list, base) => |base| == |s.node.numa| && Lists(s.tracked, list)
  }

  ghost predicate Recorded(s: Tracker, c: Container) {
    c.uuid in s.tracked && s.tracked[c.uuid] == c
  }

  predicate SameCpus(a: Container, b: Container) {
    a.cpus == b.cpus && (a.cpus != {} ==> a.node == b.node)
  }

  ghost predicate IsRun(states: seq<Tracker>, events: seq<Event>) {
    && |states| == |events| + 1
    && forall i :: 0 <= i < |events| ==> Matching(states[i], events[i]) && states[i + 1] == Apply(states[i], events[i])
  }

  // The counters are the sums over the tracked containers, which hold disjoint sets of pinned CPUs.
  ghost predicate Books(s: Tracker) {
    Balanced(s) && PinsCovered(s)
  }

  // What an admitted claim tracks can be pinned.
  lemma AdmittedIsPinnable(s: Tracker, e: Event)
    requires e.Claim? && Matching(s, e)
    ensures var r := ContainerClaim(s, e.c, e.pci, e.limits, e.pick);
            r.Claimed? ==>
              r.container.uuid == e.c.uuid && UsageOf(r.container) == UsageOf(e.c) && Pinnable(s, r.container)
  {
    var r := ContainerClaim(s, e.c, e.pci, e.limits, e.pick);
    if r.Claimed? && e.c.dedicated {
      SampleIsPinnable(s, r.container, e.c.Cpu(), e.limits, e.pick);
    }
  }

  // What an admitted update tracks can be pinned once the recorded CPUs are unpinned.
  lemma UpdatedIsPinnable(s: Tracker, e: Event)
    requires e.Update? && PinsCovered(s) && Matching(s, e)
    ensures var r := ContainerUpdateClaim(s, e.new', e.old', e.limits, e.pick);
            r.Claimed? ==>
              && r.container.uuid == e.old'.uuid && UsageOf(r.container) == UsageOf(e.new')
              && Pinnable(TrackContainer(s, e.old', true).state, r.container)
  {
    var r := ContainerUpdateClaim(s, e.new', e.old', e.limits, e.pick);
    if r.Claimed? {
      if e.new'.dedicated {
        SampleIsPinnable(s, r.container, UpdateRequest(e.new', e.old').cpu, e.limits, e.pick);
      }
      FreeAfterRelease(s, e.old', r.container);
    }
  }

  // A release only frees CPUs, among them those of the released container.
  lemma FreeAfterRelease(s: Tracker, old': Container, c: Container)
    requires PinsCovered(s) && Recorded(s, old')
    requires Pinnable(s, c) || (c.cpus == old'.cpus && c.node == old'.node)
    ensures Pinnable(TrackContainer(s, old', true).state, c)
  {
    var nodes, after := s.node.numa, TrackContainer(s, old', true).state.node.numa;
    UpdateNumaLaw(nodes, old', -1);
    ReleaseKeepsCovered(s, old');
    if c.cpus != {} {
      if !Pinnable(s, c) {
        assert Homed(nodes, old');
      }
      var i :| 0 <= i < |nodes| && nodes[i].id == c.node && (c.cpus <= nodes[i].FreeCpus() || !Pinnable(s, c));
      assert SameHardware(after[i], nodes[i]) && NodeCovered(s.tracked, nodes[i]);
      if old'.cpus != {} && old'.node == nodes[i].id {
        PinnedByDrop(s.tracked, old'.uuid, nodes[i].id);
        assert UpdatedAt(nodes[i], after[i], None, old', -1);
      }
      assert after[i].id == c.node && c.cpus <= after[i].FreeCpus();
    }
  }

  lemma StepKeepsBooks(s: Tracker, e: Event)
    requires Books(s) && Matching(s, e)
    ensures Books(Apply(s, e))
  {
    hide Balanced, PinsCovered, Pinnable, PinsKept, Placed;
    match e
    case Claim(c, pci, limits, pick) =>
      AdmittedIsPinnable(s, e);
      var r := ContainerClaim(s, c, pci, limits, pick);
      if r.Claimed? {
        ChargeKeepsCovered(s, r.container);
        ChargeBalanced(s, r.container);
      }
    case AbortClaim(clone) =>
      AbortKeepsCovered(s, clone);
      ReleaseBalanced(s, clone);
    case Update(new', old', limits, pick) =>
      UpdatedIsPinnable(s, e);
      var r := ContainerUpdateClaim(s, new', old', limits, pick);
      if r.Claimed? {
        UpdateKeepsCovered(s, r.container, old');
        UpdateBalanced(s, r.container, old');
      }
    case AbortUpdate(new', old') =>
      if new'.cpus == {} {
        AbortUpdateKeepsCovered(s, new', old');
      } else {
        FreeAfterRelease(s, new', old');
        UpdateKeepsCovered(s, old', new');
      }
      UpdateBalanced(s, old', new');
    case Release(c) =>
      ReleaseKeepsCovered(s, c);
      ReleaseBalanced(s, c);
    case Audit(list, base) =>
      CoveredIsPlaced(s);
      AuditedAgrees(s, base, list);
      KeptIsCovered(Audited(s, base, list), base);
  }

  // The abort of a claim or an update leaves the CPUs pinned that it chose.
  ghost predicate Leaks(s: Tracker, e: Event) {
    match e
    case AbortClaim(clone) => clone.uuid in s.tracked && s.tracked[clone.uuid].cpus != {}
    case AbortUpdate(new', _) => new'.cpus == {} && new'.uuid in s.tracked && s.tracked[new'.uuid].cpus != {}
    case _ => false
  }

  // Every other step keeps the pinned CPUs and the memory of every NUMA node accounted for by the
  // tracked containers.
  lemma StepKeepsPins(s: Tracker, base: seq<int>, e: Event)
    requires Books(s) && PinsKept(s, base) && Matching(s, e) && !Leaks(s, e)
    requires e.Audit? ==> e.base == base
    ensures PinsKept(Apply(s, e), base)
  {
    hide Balanced, PinsCovered, Pinnable, PinsKept, Placed;
    match e
    case Claim(c, pci, limits, pick) =>
      AdmittedIsPinnable(s, e);
      var r := ContainerClaim(s, c, pci, limits, pick);
      if r.Claimed? {
        ChargeKeepsPins(s, base, r.container);
      }
    case AbortClaim(clone) =>
      AbortKeepsPinsIff(s, base, clone);
    case Update(new', old', limits, pick) =>
      UpdatedIsPinnable(s, e);
      var r := ContainerUpdateClaim(s, new', old', limits, pick);
      if r.Claimed? {
        UpdateKeepsPins(s, base, r.container, old');
      }
    case AbortUpdate(new', old') =>
      if new'.cpus == {} {
        AbortUpdateKeepsPinsIff(s, base, new', old');
      } else {
        FreeAfterRelease(s, new', old');
        UpdateKeepsPins(s, base, old', new');
      }
    case Release(c) =>
      ReleaseKeepsPins(s, base, c);
    case Audit(list, _) =>
      CoveredIsPlaced(s);
      AuditedAgrees(s, base, list);
  }

  // Over every matching run the counters are the sums over the tracked containers, and these hold
  // disjoint sets of CPUs, all pinned on their nodes; also after aborts that leave CPUs pinned.
  lemma {:induction false} RunKeepsBooks(states: seq<Tracker>, events: seq<Event>, i: nat)
    requires IsRun(states, events) && i < |states| && Books(states[0])
    ensures Books(states[i])
  {
    hide Books, Matching, Apply;
    if i > 0 {
      RunKeepsBooks(states, events, i - 1);
      StepKeepsBooks(states[i - 1], events[i - 1]);
    }
  }

  // As long as no abort leaks, nothing else is pinned and no memory is lost.
  lemma {:induction false} RunKeepsPins(states: seq<Tracker>, events: seq<Event>, base: seq<int>, j: nat, i: nat)
    requires IsRun(states, events) && j <= i < |states| && Books(states[0]) && PinsKept(states[j], base)
    requires forall k :: j <= k < i ==> !Leaks(states[k], events[k]) && (events[k].Audit? ==> events[k].base == base)
    ensures PinsKept(states[i], base)
    decreases i - j
  {
    hide Books, Matching, Apply, PinsKept, Leaks;
    if j < i {
      RunKeepsPins(states, events, base, j, i - 1);
      RunKeepsBooks(states, events, i - 1);
      StepKeepsPins(states[i - 1], base, events[i - 1]);
    }
  }

  // A run may start on a host without containers.
  lemma EmptyBooks(cn: ComputeNode, base: seq<int>)
    requires DistinctIds(cn.numa) && |base| == |cn.numa|
    ensures var s := Tracker(Cleared(cn.(numa := Unpinned(cn.numa, base))), map[]);
            Books(s) && PinsKept(s, base)
  {
    var s := Tracker(Cleared(cn.(numa := Unpinned(cn.numa, base))), map[]);
    forall i | 0 <= i < |base| ensures NodeKept(s.tracked, s.node.numa[i], base[i]) {
      assert OnNode(s.tracked, s.node.numa[i].id) == map[];
      assert PinnedBy(s.tracked, s.node.numa[i].id) == {};
    }
    KeptIsCovered(s, base);
  }

  // At every point of every run, whatever was aborted before, the audit raises nothing, finds the
  // tracked containers and counters that the steps kept, and repairs the NUMA nodes.
  lemma RunThenAudit(states: seq<Tracker>, events: seq<Event>, base: seq<int>, i: nat, list: seq<Container>)
    requires IsRun(states, events) && i < |states| && Books(states[0])
    requires |base| == |states[i].node.numa| && Lists(states[i].tracked, list)
    ensures var r := Recount(Reset(states[i], base), list);
            && r.error.None?
            && r.state.tracked == states[i].tracked
            && Counters(r.state.node) == Counters(states[i].node)
            && PinsKept(r.state, base)
            && (PinsKept(states[i], base) ==> r.state.node.numa == states[i].node.numa)
  {
    RunKeepsBooks(states, events, i);
    CoveredIsPlaced(states[i]);
    AuditAgrees(states[i], base, list);
  }

  /******* Limits *******/

  predicate Within(cn: ComputeNode, l: Limits) {
    && (l.memory.Some? ==> cn.memUsed <= l.memory.value)
    && (l.cpu.Some? ==> cn.cpuUsed <= l.cpu.value)
    && (l.disk.Some? ==> cn.diskUsed <= l.disk.value)
  }

  predicate NonNegative(c: Container) {
    c.Mem() >= 0 && c.Cpu() >= 0 && c.Disk() >= 0
  }

  // The same limits as l, apart from the NUMA node.
  predicate SameLimits(limits: Option<Limits>, l: Limits) {
    Effective(limits).(cpuset := None) == l.(cpuset := None)
  }

  // The update did not shrink any limited resource.
  predicate NotShrunk(new': Container, old': Container, l: Limits) {
    && (l.memory.Some? ==> old'.Mem() <= new'.Mem())
    && (l.cpu.Some? ==> old'.Cpu() <= new'.Cpu())
    && (l.disk.Some? ==> old'.Disk() <= new'.Disk())
  }

  // Claims and updates under the fixed limits, releases of tracked containers and aborts of updates
  // that did not shrink; what is passed for the container need not be what was recorded.
  ghost predicate UnderLimits(s: Tracker, e: Event, l: Limits) {
    match e
    case Claim(c, _, limits, _) => NonNegative(c) && SameLimits(limits, l)
    case AbortClaim(clone) => NonNegative(clone) && clone.uuid in s.tracked
    case Update(new', old', limits, _) => NonNegative(new') && NonNegative(old') && SameLimits(limits, l)
    case AbortUpdate(new', old') => NonNegative(new') && NotShrunk(new', old', l)
    case Release(c) => NonNegative(c) && c.uuid in s.tracked
    case Audit(list, base) => Books(s) && Matching(s, e)
  }

  lemma TrackWithin(s: Tracker, c: Container, isRemoved: bool, l: Limits)
    requires Within(s.node, l) && NonNegative(c) && (isRemoved ==> c.uuid in s.tracked)
    requires !isRemoved ==> Admits(l.memory, s.node.memUsed, c.Mem()) && Admits(l.cpu, s.node.cpuUsed, c.Cpu())
                            && Admits(l.disk, s.node.diskUsed, c.Disk())
    ensures Within(TrackContainer(s, c, isRemoved).state.node, l)
  {
    CountersLaw(s.node, c, 1);
    CountersLaw(s.node, c, -1);
    hide UpdateUsage;
  }

  lemma UpdateWithin(s: Tracker, new': Container, old': Container, l: Limits)
    requires Within(s.node, l) && NonNegative(old')
    requires Admits(l.memory, s.node.memUsed, new'.Mem() - old'.Mem())
    requires Admits(l.cpu, s.node.cpuUsed, new'.Cpu() - old'.Cpu())
    requires Admits(l.disk, s.node.diskUsed, new'.Disk() - old'.Disk())
    ensures Within(TrackUpdate(s, new', old').state.node, l)
  {
    CountersLaw(s.node, old', -1);
    CountersLaw(UpdateUsage(s.node, old', -1).0, new', 1);
    hide UpdateUsage;
  }

  lemma StepStaysWithin(s: Tracker, e: Event, l: Limits)
    requires Within(s.node, l) && UnderLimits(s, e, l)
    ensures Within(Apply(s, e).node, l)
  {
    hide TrackContainer, TrackUpdate, ClaimTest, Audited, Matching;
    match e
    case Claim(c, pci, limits, pick) =>
      var r := ContainerClaim(s, c, pci, limits, pick);
      if r.Claimed? {
        PassedIff(s.node, RequestOf(c), Effective(limits));
        TrackWithin(s, r.container, false, l);
      }
    case AbortClaim(clone) =>
      TrackWithin(s, clone, true, l);
    case Update(new', old', limits, pick) =>
      var r := ContainerUpdateClaim(s, new', old', limits, pick);
      if r.Claimed? {
        PassedIff(s.node, UpdateRequest(new', old'), Effective(limits));
        UpdateWithin(s, r.container, old', l);
      }
    case AbortUpdate(new', old') =>
      UpdateWithin(s, old', new', l);
    case Release(c) =>
      TrackWithin(s, c, true, l);
    case Audit(list, base) =>
      AuditWithin(s, list, base, l);
  }

  lemma AuditWithin(s: Tracker, list: seq<Container>, base: seq<int>, l: Limits)
    requires Within(s.node, l) && Books(s) && Matching(s, Audit(list, base))
    ensures Within(Audited(s, base, list).node, l)
  {
    CoveredIsPlaced(s);
    AuditedAgrees(s, base, list);
    hide Audited;
  }

  // With fixed limits no run ever exceeds them.
  lemma {:induction false} RunStaysWithin(states: seq<Tracker>, events: seq<Event>, l: Limits, i: nat)
    requires |states| == |events| + 1 && i < |states|
    requires forall k :: 0 <= k < |events| ==>
               UnderLimits(states[k], events[k], l) && states[k + 1] == Apply(states[k], events[k])
    requires Within(states[0].node, l)
    ensures Within(states[i].node, l)
  {
    hide Apply, UnderLimits, Within;
    if i > 0 {
      RunStaysWithin(states, events, l, i - 1);
      StepStaysWithin(states[i - 1], events[i - 1], l);
    }
  }

  // The abort of an update is not tested against the limits. It can be trusted to respect them, on
  // every host that does, exactly when the update had not shrunk a limited resource: otherwise
  // another container may have claimed what was given up.
  lemma AbortStaysWithinIff(new': Container, old': Container, l: Limits)
    requires NonNegative(new')
    ensures (forall s: Tracker :: Within(s.node, l) ==> Within(TrackUpdate(s, old', new').state.node, l))
            <==> NotShrunk(new', old', l)
  {
    if NotShrunk(new', old', l) {
      forall s: Tracker | Within(s.node, l) ensures Within(TrackUpdate(s, old', new').state.node, l) {
        UpdateWithin(s, old', new', l);
      }
    } else {
      var full := FullHost(l);
      CountersLaw(full.node, new', -1);
      CountersLaw(UpdateUsage(full.node, new', -1).0, old', 1);
      assert Within(full.node, l) && !Within(TrackUpdate(full, old', new').state.node, l);
    }
  }

  // A host without NUMA nodes whose limited resources are used up.
  function FullHost(l: Limits): Tracker {
    var Limits(memory, cpu, disk, _) := l;
    Tracker(ComputeNode(0, 0, if memory.Some? then memory.value else 0, if cpu.Some? then cpu.value else 0,
                        if disk.Some? then disk.value else 0, 0, []), map[])
  }

  // A release takes its container's usage off the counters exactly when the container is tracked;
  // otherwise it is charged a second time.
  lemma ReleaseLowersIffTracked(s: Tracker, c: Container)
    ensures Counters(TrackContainer(s, c, true).state.node).Plus(UsageOf(c)) == Counters(s.node)
            <==> c.uuid in s.tracked
  {
    CountersLaw(s.node, c, 1);
    CountersLaw(s.node, c, -1);
  }

  /******* Undo *******/

  // The abort of a claim passes the clone that was taken before CPUs were chosen. In every state it
  // restores the tracked containers and the counters.
  lemma AbortRestoresBooks(s: Tracker, c: Container, pci: bool, limits: Option<Limits>, pick: set<nat>)
    requires c.uuid !in s.tracked && ContainerClaim(s, c, pci, limits, pick).Claimed?
    ensures var back := TrackContainer(ContainerClaim(s, c, pci, limits, pick).step.state, c, true).state;
            back.tracked == s.tracked && Counters(back.node) == Counters(s.node)
  {
    var r := ContainerClaim(s, c, pci, limits, pick);
    var back := TrackContainer(r.step.state, c, true);
    CountersLaw(s.node, r.container, 1);
    CountersLaw(r.step.state.node, c, -1);
    assert UsageOf(r.container) == UsageOf(c);
    Cancel(Counters(back.state.node), Counters(s.node), UsageOf(c));
    PutThenDrop(s.tracked, c.uuid, r.container);
  }

  // The NUMA node that the limits name is one of the host.
  ghost predicate NamesNode(cn: ComputeNode, limits: Option<Limits>) {
    && limits.Some? && limits.value.cpuset.Some?
    && exists i :: 0 <= i < |cn.numa| && cn.numa[i].id == limits.value.cpuset.value.node
  }

  // It restores the NUMA nodes exactly when the claim had nothing to pin: the container is shared,
  // asks for less than one CPU, or the limits name no node of this host.
  lemma AbortRestoresNumaIff(s: Tracker, c: Container, pci: bool, limits: Option<Limits>, pick: set<nat>)
    requires DistinctIds(s.node.numa) && c.uuid !in s.tracked && c.cpus == {}
    requires Possible(c, RequestOf(c), limits, pick)
    requires ContainerClaim(s, c, pci, limits, pick).Claimed?
    requires ContainerClaim(s, c, pci, limits, pick).step.error.None?
    ensures var back := TrackContainer(ContainerClaim(s, c, pci, limits, pick).step.state, c, true);
            && back.error.None?
            && (back.state.node.numa == s.node.numa <==>
                !c.dedicated || Trunc(c.Cpu()) == 0 || !NamesNode(s.node, limits))
  {
    var r := ContainerClaim(s, c, pci, limits, pick);
    var nodes, after := s.node.numa, r.step.state.node.numa;
    assert c.dedicated ==> |r.container.cpus| == Trunc(c.Cpu());
    assert r.container.cpus != {} <==> c.dedicated && Trunc(c.Cpu()) != 0;
    if r.container.cpus != {} {
      UpdateNumaLaw(nodes, r.container, 1);
      if NamesNode(s.node, limits) {
        var i :| 0 <= i < |nodes| && nodes[i].id == r.container.node;
        assert UpdatedAt(nodes[i], after[i], None, r.container, 1);
        var x :| x in r.container.cpus;
        assert x !in nodes[i].pinnedCpus * r.container.cpus;
        assert x in after[i].pinnedCpus && x !in nodes[i].pinnedCpus;
      }
    }
  }

  // The abort of an update whose clones carry no CPUs raises nothing and restores, in every state,
  // the tracked containers and the counters. It does not touch the NUMA nodes.
  lemma AbortUndoesUpdate(s: Tracker, new': Container, old': Container, limits: Option<Limits>, pick: set<nat>)
    requires Recorded(s, old') && new'.uuid == old'.uuid && new'.cpus == old'.cpus == {}
    requires ContainerUpdateClaim(s, new', old', limits, pick).Claimed?
    ensures var r := ContainerUpdateClaim(s, new', old', limits, pick);
            var back := TrackUpdate(r.step.state, old', new');
            && back.error.None? && back.state.tracked == s.tracked
            && Counters(back.state.node) == Counters(s.node)
            && back.state.node.numa == r.step.state.node.numa
            && (!new'.dedicated ==> r.step.error.None? && back.state.node.numa == s.node.numa)
  {
    var r := ContainerUpdateClaim(s, new', old', limits, pick);
    var mid := UpdateCounters(s.node, old', -1);
    CountersLaw(mid, r.container, 1);
    assert UsageOf(r.container) == UsageOf(new');
    assert s.tracked[old'.uuid := r.container][old'.uuid := old'] == s.tracked;
  }

  /******* Updates of dedicated containers *******/

  // An update claim chooses CPUs for the increase only, and they replace the recorded ones. The
  // number is right exactly when the old amount fits into the fraction of the new one, or, for a
  // decrease, when less than one CPU is asked for.
  lemma DedicatedUpdatePinsIncrease(
    s: Tracker, new': Container, old': Container, limits: Option<Limits>, pick: set<nat>)
    requires new'.dedicated && Possible(new', UpdateRequest(new', old'), limits, pick)
    requires new'.Cpu() >= 0 && old'.Cpu() >= 0
    requires ContainerUpdateClaim(s, new', old', limits, pick).Claimed?
    ensures var r := ContainerUpdateClaim(s, new', old', limits, pick);
            && r.step.state.tracked == s.tracked[new'.uuid := r.container]
            && |r.container.cpus| == Trunc(new'.Cpu() - old'.Cpu())
            && (|r.container.cpus| == Trunc(new'.Cpu()) <==>
                if new'.Cpu() >= old'.Cpu() then old'.Cpu() <= new'.Cpu() % CPU_UNIT else new'.Cpu() < CPU_UNIT)
  {
  }

  // The abort of such an update passes a clone that still carries the recorded CPUs, which the
  // update has unpinned: it raises, and leaves the container tracked but not counted.
  lemma AbortOfDedicatedUpdateRaises(
    s: Tracker, new': Container, old': Container, limits: Option<Limits>, pick: set<nat>)
    requires PinsCovered(s) && Matching(s, Update(new', old', limits, pick)) && new'.dedicated
    requires new'.cpus == old'.cpus != {} && new'.node == old'.node
    requires ContainerUpdateClaim(s, new', old', limits, pick).Claimed?
    ensures var r := ContainerUpdateClaim(s, new', old', limits, pick);
            var back := TrackUpdate(r.step.state, old', new');
            && r.step.error.None? && back.error == Some(CPUUnpinningInvalid)
            && Counters(back.state.node).Plus(UsageOf(old')) == Counters(s.node)
            && back.state.tracked == s.tracked
            && back.state.node.numa != s.node.numa
  {
    var r := ContainerUpdateClaim(s, new', old', limits, pick);
    var c, s1 := r.container, r.step.state;
    UpdatedIsPinnable(s, Update(new', old', limits, pick));
    SampleIsPinnable(s, c, UpdateRequest(new', old').cpu, limits, pick);
    hide PinsCovered, Pinnable, UpdateUsage;
    UpdateKeepsCovered(s, c, old');
    UnpinAgainRaises(s, c, new', old');
    UpdateCounted(s, c, old');
    CountersLaw(s1.node, new', -1);
    assert s.tracked[old'.uuid := c][old'.uuid := old'] == s.tracked;
  }

  lemma UpdateCounted(s: Tracker, c: Container, old': Container)
    requires TrackUpdate(s, c, old').error.None?
    ensures Counters(TrackUpdate(s, c, old').state.node).Plus(UsageOf(old')) == Counters(s.node).Plus(UsageOf(c))
  {
    CountersLaw(s.node, old', -1);
    CountersLaw(UpdateUsage(s.node, old', -1).0, c, 1);
    hide UpdateUsage;
  }

  lemma UnpinAgainRaises(s: Tracker, c: Container, new': Container, old': Container)
    requires PinsCovered(s) && Recorded(s, old') && Pinnable(s, c)
    requires c.uuid == old'.uuid && TrackUpdate(s, c, old').error.None?
    requires new'.cpus == old'.cpus != {} && new'.node == old'.node
    ensures var (cn, e) := UpdateUsage(TrackUpdate(s, c, old').state.node, new', -1);
            e == Some(CPUUnpinningInvalid) && cn.numa != s.node.numa
  {
    assert Homed(s.node.numa, old');
    var i :| 0 <= i < |s.node.numa| && s.node.numa[i].id == old'.node;
    PinsAfterUpdate(s, c, old', i);
    var s1 := TrackUpdate(s, c, old').state;
    var n1 := s1.node.numa[i];
    UpdateNumaLaw(s1.node.numa, new', -1);
    var (numa, e) := UpdateNuma(s1.node.numa, new', -1);
    assert UpdatedAt(n1, numa[i], e, new', -1);
    assert NodeCovered(s.tracked, s.node.numa[i]);
    PinnedByDrop(s.tracked, old'.uuid, old'.node);
    var x :| x in old'.cpus;
    assert x in s.node.numa[i].pinnedCpus && x !in numa[i].pinnedCpus;
    hide TrackUpdate, UpdateNuma, PinsCovered, Pinnable;
  }

  // The recorded CPUs are not pinned any more, nor again.
  lemma PinsAfterUpdate(s: Tracker, c: Container, old': Container, i: nat)
    requires PinsCovered(s) && Recorded(s, old') && Pinnable(s, c) && TrackUpdate(s, c, old').error.None?
    requires i < |s.node.numa| && s.node.numa[i].id == old'.node && old'.cpus != {}
    ensures var after := TrackUpdate(s, c, old').state.node.numa;
            && DistinctIds(after) && i < |after| && after[i].id == old'.node
            && old'.cpus <= after[i].cpuset && old'.cpus !! after[i].pinnedCpus
  {
    var nodes, mid := s.node.numa, UpdateUsage(s.node, old', -1).0;
    UpdateNumaLaw(nodes, old', -1);
    assert UpdatedAt(nodes[i], mid.numa[i], None, old', -1);
    assert DistinctIds(mid.numa) by {
      assert forall j :: 0 <= j < |nodes| ==> SameHardware(mid.numa[j], nodes[j]);
    }
    assert NodeCovered(s.tracked, nodes[i]);
    PinnedByDrop(s.tracked, old'.uuid, old'.node);
    UpdateNumaLaw(mid.numa, c, 1);
    var after := TrackUpdate(s, c, old').state.node.numa;
    assert |after| == |nodes| && forall j :: 0 <= j < |nodes| ==> SameHardware(after[j], mid.numa[j]);
    hide UpdateNuma;
    if c.cpus != {} && c.node == old'.node {
      var j :| 0 <= j < |nodes| && nodes[j].id == c.node && c.cpus <= nodes[j].FreeCpus();
      assert j == i;
      assert UpdatedAt(mid.numa[i], after[i], None, c, 1);
    }
  }

  /******* Undo of an update: the exact condition *******/

  // On a current snapshot the update itself raises nothing. Its abort passes the clones, which both
  // carry the recorded CPUs. It raises nothing and restores the tracked containers and the counters
  // exactly when the container is shared or held no CPUs, and the NUMA nodes exactly when, besides,
  // the increase is less than one CPU.
  lemma AbortOfUpdateIff(s: Tracker, new': Container, old': Container, limits: Option<Limits>, pick: set<nat>)
    requires PinsCovered(s) && Matching(s, Update(new', old', limits, pick)) && UpdateClone(new', old')
    requires ContainerUpdateClaim(s, new', old', limits, pick).Claimed?
    ensures var r := ContainerUpdateClaim(s, new', old', limits, pick);
            var back := TrackUpdate(r.step.state, old', new');
            && r.step.error.None?
            && back.state.tracked == s.tracked
            && (back.error.None? && Counters(back.state.node) == Counters(s.node) <==>
                !new'.dedicated || old'.cpus == {})
            && (back.state.node.numa == s.node.numa <==>
                !new'.dedicated || (old'.cpus == {} && Trunc(new'.Cpu() - old'.Cpu()) == 0))
  {
    hide PinsCovered, TrackUpdate;
    if old'.cpus == {} {
      AbortUndoesUpdate(s, new', old', limits, pick);
      if new'.dedicated {
        IncreaseIsPinned(s, new', old', limits, pick);
      }
    } else if new'.dedicated {
      AbortOfDedicatedUpdateRaises(s, new', old', limits, pick);
    } else {
      UpdateAndBack(s, new', old');
    }
  }

  predicate UpdateClone(new': Container, old': Container) {
    new'.cpus == old'.cpus && new'.node == old'.node
  }

  lemma IncreaseIsPinned(s: Tracker, new': Container, old': Container, limits: Option<Limits>, pick: set<nat>)
    requires PinsCovered(s) && Matching(s, Update(new', old', limits, pick))
    requires new'.dedicated && old'.cpus == {}
    requires ContainerUpdateClaim(s, new', old', limits, pick).Claimed?
    ensures var r := ContainerUpdateClaim(s, new', old', limits, pick);
            && r.step.error.None?
            && (r.step.state.node.numa == s.node.numa <==> Trunc(new'.Cpu() - old'.Cpu()) == 0)
  {
    var r := ContainerUpdateClaim(s, new', old', limits, pick);
    var c := r.container;
    assert |c.cpus| == Trunc(new'.Cpu() - old'.Cpu());
    assert r.step.state.node.numa == if c.cpus == {} then s.node.numa else UpdateNuma(s.node.numa, c, 1).0;
    SampleIsPinnable(s, c, UpdateRequest(new', old').cpu, limits, pick);
    UpdatedIsPinnable(s, Update(new', old', limits, pick));
    UpdateKeepsCovered(s, c, old');
    if c.cpus != {} {
      PinningShows(s, c);
    }
    hide ContainerUpdateClaim, TrackUpdate, Matching;
  }

  lemma PinningShows(s: Tracker, c: Container)
    requires DistinctIds(s.node.numa) && Pinnable(s, c) && c.cpus != {}
    ensures UpdateNuma(s.node.numa, c, 1).0 != s.node.numa
  {
    var nodes := s.node.numa;
    var (after, e) := UpdateNuma(nodes, c, 1);
    UpdateNumaLaw(nodes, c, 1);
    hide UpdateNuma;
    var i :| 0 <= i < |nodes| && nodes[i].id == c.node && c.cpus <= nodes[i].FreeCpus();
    assert UpdatedAt(nodes[i], after[i], e, c, 1);
    PinFailsIff(nodes[i].(memAvailable := nodes[i].memAvailable - c.Mem() * 1), c.cpus);
    var x :| x in c.cpus;
    assert x in after[i].pinnedCpus && x !in nodes[i].pinnedCpus;
  }

  // A shared container that holds CPUs keeps them over the update and the abort.
  lemma UpdateAndBack(s: Tracker, new': Container, old': Container)
    requires PinsCovered(s) && Recorded(s, old') && new'.uuid == old'.uuid && UpdateClone(new', old') && old'.cpus != {}
    ensures var step := TrackUpdate(s, new', old');
            var back := TrackUpdate(step.state, old', new');
            && step.error.None? && back.error.None? && back.state.tracked == s.tracked
            && Counters(back.state.node) == Counters(s.node) && back.state.node.numa == s.node.numa
  {
    var s1 := TrackUpdate(s, new', old').state;
    FreeAfterRelease(s, old', new');
    UpdateKeepsCovered(s, new', old');
    FreeAfterRelease(s1, new', old');
    UpdateKeepsCovered(s1, old', new');
    UpdateCounted(s, new', old');
    UpdateCounted(s1, old', new');
    MemoryMoves(s, new', old');
    MemoryMoves(s1, old', new');
    assert s.tracked[old'.uuid := new'][old'.uuid := old'] == s.tracked;
    hide TrackUpdate, PinsCovered;
    assert Moved(s1.node.numa, old', new') == s.node.numa;
  }

  // The NUMA nodes when a container with the same CPUs replaces another.
  function Moved(nodes: seq<NumaNode>, new': Container, old': Container): seq<NumaNode> {
    seq(|nodes|, i requires 0 <= i < |nodes| =>
      if nodes[i].id != old'.node then nodes[i]
      else nodes[i].(memAvailable := nodes[i].memAvailable + old'.Mem() - new'.Mem()))
  }

  lemma MemoryMoves(s: Tracker, new': Container, old': Container)
    requires PinsCovered(s) && Recorded(s, old') && new'.uuid == old'.uuid && UpdateClone(new', old') && old'.cpus != {}
    requires TrackUpdate(s, new', old').error.None?
    ensures TrackUpdate(s, new', old').state.node.numa == Moved(s.node.numa, new', old')
  {
    var nodes, mid := s.node.numa, UpdateUsage(s.node, old', -1).0.numa;
    var after := TrackUpdate(s, new', old').state.node.numa;
    UpdateNumaLaw(nodes, old', -1);
    assert DistinctIds(mid) by {
      assert forall j :: 0 <= j < |nodes| ==> SameHardware(mid[j], nodes[j]);
    }
    UpdateNumaLaw(mid, new', 1);
    forall i | 0 <= i < |nodes| ensures after[i] == Moved(nodes, new', old')[i] {
      assert SameHardware(mid[i], nodes[i]) && NodeCovered(s.tracked, nodes[i]);
      if nodes[i].id == old'.node {
        PinnedByDrop(s.tracked, old'.uuid, old'.node);
        assert UpdatedAt(nodes[i], mid[i], None, old', -1) && UpdatedAt(mid[i], after[i], None, new', 1);
        assert nodes[i].pinnedCpus - old'.cpus + old'.cpus == nodes[i].pinnedCpus;
      }
    }
  }

  // The next audit of the tracked containers repairs the counters and the pins.
  lemma AuditRepairsAbort(
    s: Tracker, new': Container, old': Container, limits: Option<Limits>, pick: set<nat>,
    base: seq<int>, list: seq<Container>)
    requires Books(s) && Matching(s, Update(new', old', limits, pick)) && new'.dedicated
    requires new'.cpus == old'.cpus != {} && new'.node == old'.node
    requires ContainerUpdateClaim(s, new', old', limits, pick).Claimed?
    requires |base| == |s.node.numa| && Lists(s.tracked, list)
    ensures var back := TrackUpdate(ContainerUpdateClaim(s, new', old', limits, pick).step.state, old', new').state;
            && |back.node.numa| == |base|
            && var r := Recount(Reset(back, base), list);
            && r.error.None? && r.state.tracked == s.tracked
            && Counters(r.state.node) == Counters(s.node) && PinsKept(r.state, base)
  {
    AbortOfDedicatedUpdateRaises(s, new', old', limits, pick);
    var r := ContainerUpdateClaim(s, new', old', limits, pick);
    UpdateKeepsHardware(s, r.container, old');
    UpdateKeepsHardware(r.step.state, old', new');
    var back := TrackUpdate(r.step.state, old', new').state;
    CoveredIsPlaced(s);
    hide ContainerUpdateClaim, TrackUpdate, Recount, Reset, Matching, PinsCovered, PinsKept;
    StillPlaced(s, back);
    hide Placed;
    AuditAgrees(back, base, list);
  }

  ghost predicate KeepsHardware(s: Tracker, r: Tracker) {
    && |r.node.numa| == |s.node.numa|
    && forall i :: 0 <= i < |s.node.numa| ==> SameHardware(r.node.numa[i], s.node.numa[i])
  }

  lemma UpdateKeepsHardware(s: Tracker, new': Container, old': Container)
    requires DistinctIds(s.node.numa)
    ensures KeepsHardware(s, TrackUpdate(s, new', old').state)
    ensures DistinctIds(TrackUpdate(s, new', old').state.node.numa)
  {
    var (mid, _) := UpdateUsage(s.node, old', -1);
    UpdateNumaLaw(s.node.numa, old', -1);
    assert forall i :: 0 <= i < |mid.numa| ==> SameHardware(mid.numa[i], s.node.numa[i]);
    UpdateNumaLaw(mid.numa, new', 1);
    hide UpdateNuma;
  }

  lemma StillPlaced(s: Tracker, r: Tracker)
    requires Placed(s) && r.tracked == s.tracked && KeepsHardware(s, r)
    ensures Placed(r)
  {
    forall u | u in s.tracked && s.tracked[u].cpus != {} ensures Homed(r.node.numa, s.tracked[u]) {
      StillHomed(s.node.numa, r.node.numa, s.tracked[u]);
    }
    forall i | 0 <= i < |r.node.numa| ensures PinnedBy(r.tracked, r.node.numa[i].id) <= r.node.numa[i].cpuset {
      assert SameHardware(r.node.numa[i], s.node.numa[i]);
    }
  }
}

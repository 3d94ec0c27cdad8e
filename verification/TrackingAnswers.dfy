/** What a claim answers: the exact conditions, in terms of amounts and limits, under which it is
    unnecessary, refused and for which reasons, or granted. */
module TrackingAnswers {
  import opened Options
  import opened Claims
  import opened Tracking
  import opened TrackingProofs

  function Amount(x: Option<int>): int {
    match x
    case None => 0
    case Some(n) => n
  }

  // The node has less of this resource left, under the limits, than is requested.
  predicate Exceeded(cn: ComputeNode, mem: int, cpu: int, disk: int, l: Limits, x: Resource) {
    match x
    case MEMORY => l.memory.Some? && cn.memUsed + mem > l.memory.value
    case CPU => l.cpu.Some? && cn.cpuUsed + cpu > l.cpu.value
    case DISK => l.disk.Some? && cn.diskUsed + disk > l.disk.value
    case CPUSET_CPU => l.cpuset.Some? && |l.cpuset.value.pinned| * 1000 + cpu > |l.cpuset.value.cpus| * 1000
    case CPUSET_MEM => l.cpuset.Some? && mem > l.cpuset.value.mem
  }

  // The limits name a NUMA node by an index that the host does not have.
  predicate BadNode(cn: ComputeNode, l: Option<Limits>) {
    l.Some? && l.value.cpuset.Some? && l.value.cpuset.value.node >= |cn.numa|
  }

  predicate SomethingExceeded(cn: ComputeNode, mem: int, cpu: int, disk: int, l: Option<Limits>) {
    l.Some? && exists x :: Exceeded(cn, mem, cpu, disk, l.value, x)
  }

  // Nothing is exceeded, and a dedicated container comes with a NUMA node to choose CPUs from and
  // does not give up a whole CPU.
  predicate Granted(cn: ComputeNode, dedicated: bool, mem: int, cpu: int, disk: int, l: Option<Limits>) {
    && !BadNode(cn, l) && !SomethingExceeded(cn, mem, cpu, disk, l)
    && (dedicated ==> l.Some? && l.value.cpuset.Some? && cpu > -1000)
  }

  lemma TestAnswer(cn: ComputeNode, r: Request, l: Option<Limits>)
    ensures var t := ClaimTest(cn, r, Effective(l));
            && (t.NoSuchNumaNode? <==> BadNode(cn, l))
            && (t.ResourcesUnavailable? <==> !BadNode(cn, l) && SomethingExceeded(cn, r.mem, r.cpu, r.disk, l))
            && (t.ResourcesUnavailable? ==>
                  forall x :: x in t.reasons <==> Exceeded(cn, r.mem, r.cpu, r.disk, l.value, x))
  {
    if !BadNode(cn, l) {
      var lim := Effective(l);
      assert Exceeded(cn, r.mem, r.cpu, r.disk, lim, MEMORY) <==> !Admits(lim.memory, cn.memUsed, r.mem);
      assert Exceeded(cn, r.mem, r.cpu, r.disk, lim, CPU) <==> !Admits(lim.cpu, cn.cpuUsed, r.cpu);
      assert Exceeded(cn, r.mem, r.cpu, r.disk, lim, DISK) <==> !Admits(lim.disk, cn.diskUsed, r.disk);
      PassedIff(cn, r, lim);
      assert Exceeded(cn, r.mem, r.cpu, r.disk, lim, CPUSET_CPU) || Exceeded(cn, r.mem, r.cpu, r.disk, lim, CPUSET_MEM)
        || !SomethingExceeded(cn, r.mem, r.cpu, r.disk, l) || !ClaimTest(cn, r, lim).Passed?;
    }
  }

  // The constructor of a claim: every answer with its condition, and the container as it goes on.
  lemma MakeClaimAnswer(cn: ComputeNode, c: Container, r: Request, l: Option<Limits>, pick: set<nat>)
    ensures var a := MakeClaim(cn, c, r, l, pick);
            var exceeded := SomethingExceeded(cn, r.mem, r.cpu, r.disk, l);
            && (a.Admitted? <==> Granted(cn, c.dedicated, r.mem, r.cpu, r.disk, l))
            && (a.Admitted? ==>
                  a.container == if c.dedicated then c.(cpus := pick, node := l.value.cpuset.value.node) else c)
            && (a == Denied(BadNumaNode) <==> BadNode(cn, l))
            && (a.Denied? && a.denial.Unavailable? <==> !BadNode(cn, l) && exceeded)
            && (a.Denied? && a.denial.Unavailable? ==>
                  forall x :: x in a.denial.reasons <==> Exceeded(cn, r.mem, r.cpu, r.disk, l.value, x))
            && (a == Denied(NoCpusetLimits) <==>
                !BadNode(cn, l) && !exceeded && c.dedicated && (l.None? || l.value.cpuset.None?))
            && (a == Denied(CannotSample) <==>
                !BadNode(cn, l) && !exceeded && c.dedicated && l.Some? && l.value.cpuset.Some? && r.cpu <= -1000)
  {
    TestAnswer(cn, r, l);
    if l.Some? && l.value.cpuset.Some? && ClaimTest(cn, r, Effective(l)).Passed? {
      assert !Exceeded(cn, r.mem, r.cpu, r.disk, l.value, CPUSET_CPU);
      if r.cpu >= 0 {
        EnoughToSample(l.value.cpuset.value, r.cpu);
      }
    }
    hide ClaimTest, SomethingExceeded;
  }

  // A claim for a container: unnecessary when it asks for nothing; otherwise granted exactly when the
  // limits allow its amounts.
  lemma ContainerClaimAnswer(s: Tracker, c: Container, pci: bool, l: Option<Limits>, pick: set<nat>)
    ensures var r := ContainerClaim(s, c, pci, l, pick);
            var mem, cpu, disk := Amount(c.memory), Amount(c.cpu), Amount(c.disk);
            && (r.Nop? <==> c.memory.None? && cpu == 0 && disk == 0 && !pci)
            && (r.Claimed? <==> !r.Nop? && Granted(s.node, c.dedicated, mem, cpu, disk, l))
            && (r.Claimed? && !c.dedicated ==> r.container == c)
            && (r.Refused? ==> MakeClaim(s.node, c, Request(mem, cpu, disk), l, pick) == Denied(r.denial))
  {
    MakeClaimAnswer(s.node, c, RequestOf(c), l, pick);
    hide MakeClaim, Granted, TrackContainer;
  }

  // A granted shared container without CPUs is tracked as it is and charged; nothing raises.
  lemma SharedClaimIsTracked(s: Tracker, c: Container, pci: bool, l: Option<Limits>, pick: set<nat>)
    requires !c.dedicated && c.cpus == {} && c.uuid !in s.tracked
    requires !(c.memory.None? && Amount(c.cpu) == 0 && Amount(c.disk) == 0 && !pci)
    requires Granted(s.node, false, Amount(c.memory), Amount(c.cpu), Amount(c.disk), l)
    ensures var r := ContainerClaim(s, c, pci, l, pick);
            && r.Claimed? && r.step.error.None?
            && r.step.state.tracked == s.tracked[c.uuid := c]
            && Counters(r.step.state.node) ==
               Counters(s.node).Plus(Usage(Amount(c.memory), Amount(c.cpu), Amount(c.disk), 1))
            && r.step.state.node.numa == s.node.numa
  {
    ContainerClaimAnswer(s, c, pci, l, pick);
    CountersLaw(s.node, c, 1);
    hide Granted;
  }

  // A claim for an update: unnecessary when CPU and memory stay; otherwise it is granted exactly when
  // the limits allow the increase of both, and the whole disk once more.
  lemma UpdateClaimAnswer(s: Tracker, new': Container, old': Container, l: Option<Limits>, pick: set<nat>)
    ensures var r := ContainerUpdateClaim(s, new', old', l, pick);
            var mem := Amount(new'.memory) - Amount(old'.memory);
            var cpu, disk := Amount(new'.cpu) - Amount(old'.cpu), Amount(new'.disk);
            && (r.Nop? <==> new'.cpu == old'.cpu && new'.memory == old'.memory)
            && (r.Claimed? <==> !r.Nop? && Granted(s.node, new'.dedicated, mem, cpu, disk, l))
            && (r.Claimed? && !new'.dedicated ==> r.container == new')
            && (r.Refused? ==> MakeClaim(s.node, new', Request(mem, cpu, disk), l, pick) == Denied(r.denial))
  {
    MakeClaimAnswer(s.node, new', UpdateRequest(new', old'), l, pick);
    hide MakeClaim, Granted, TrackUpdate;
  }

  // A granted update of a shared container without CPUs moves its usage; nothing raises.
  lemma SharedUpdateIsTracked(s: Tracker, new': Container, old': Container, l: Option<Limits>, pick: set<nat>)
    requires !new'.dedicated && new'.cpus == old'.cpus == {} && new'.uuid == old'.uuid
    requires new'.cpu != old'.cpu || new'.memory != old'.memory
    requires Granted(s.node, false, Amount(new'.memory) - Amount(old'.memory), Amount(new'.cpu) - Amount(old'.cpu),
                     Amount(new'.disk), l)
    ensures var r := ContainerUpdateClaim(s, new', old', l, pick);
            && r.Claimed? && r.step.error.None?
            && r.step.state.tracked == s.tracked[new'.uuid := new']
            && var n := r.step.state.node;
            && n.memUsed == s.node.memUsed + Amount(new'.memory) - Amount(old'.memory)
            && n.cpuUsed == s.node.cpuUsed + Amount(new'.cpu) - Amount(old'.cpu)
            && n.diskUsed == s.node.diskUsed + Amount(new'.disk) - Amount(old'.disk)
            && n.running == s.node.running && n.numa == s.node.numa
  {
    UpdateClaimAnswer(s, new', old', l, pick);
    hide Granted;
  }
}

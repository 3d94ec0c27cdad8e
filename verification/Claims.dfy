/** Containers, NUMA nodes, limits, and the admission tests of a resource claim. */
module Claims {
  import opened Options

  type Uuid = string

  // CPU amounts are fixed-point: thousandths of a CPU. Limits are whole numbers of the same unit as
  // the amounts they bound; a fractional limit admits the same requests as its integer part.
  const CPU_UNIT := 1000

  // A NUMA node of the host.
  datatype NumaNode = NumaNode(
    id: nat, cpuset: set<nat>, pinnedCpus: set<nat>, memTotal: int, memAvailable: int)
  {
    function FreeCpus(): set<nat> {
      cpuset - pinnedCpus
    }

    // The source's two checks, then the update.
    function PinCpus(cpus: set<nat>): PinResult {
      if cpus - cpuset != {} then PinFailed(CPUPinningUnknown)
      else if pinnedCpus * cpus != {} then PinFailed(CPUPinningInvalid)
      else Pinned(this.(pinnedCpus := pinnedCpus + cpus))
    }

    function UnpinCpus(cpus: set<nat>): PinResult {
      if cpus - cpuset != {} then PinFailed(CPUUnpinningUnknown)
      else if pinnedCpus * cpus != cpus then PinFailed(CPUUnpinningInvalid)
      else Pinned(this.(pinnedCpus := pinnedCpus - cpus))
    }
  }

  // Pinning fails for a CPU that the node does not have, and for one that is pinned already.
  lemma PinAnswer(n: NumaNode, cpus: set<nat>)
    ensures var r := n.PinCpus(cpus);
            && (r == PinFailed(CPUPinningUnknown) <==> exists x :: x in cpus && x !in n.cpuset)
            && (r == PinFailed(CPUPinningInvalid) <==> cpus <= n.cpuset && exists x :: x in cpus && x in n.pinnedCpus)
            && (r.Pinned? <==> cpus <= n.cpuset && cpus !! n.pinnedCpus)
            && (r.Pinned? ==> r.node == n.(pinnedCpus := n.pinnedCpus + cpus))
  {
    assert cpus - n.cpuset == {} <==> cpus <= n.cpuset by {
      assert forall x :: x in cpus - n.cpuset <==> x in cpus && x !in n.cpuset;
    }
    assert forall x :: x in n.pinnedCpus * cpus <==> x in cpus && x in n.pinnedCpus;
  }

  // Unpinning fails for a CPU that the node does not have, and for one that is not pinned.
  lemma UnpinAnswer(n: NumaNode, cpus: set<nat>)
    ensures var r := n.UnpinCpus(cpus);
            && (r == PinFailed(CPUUnpinningUnknown) <==> exists x :: x in cpus && x !in n.cpuset)
            && (r == PinFailed(CPUUnpinningInvalid) <==>
                cpus <= n.cpuset && exists x :: x in cpus && x !in n.pinnedCpus)
            && (r.Pinned? <==> cpus <= n.cpuset && cpus <= n.pinnedCpus)
            && (r.Pinned? ==> r.node == n.(pinnedCpus := n.pinnedCpus - cpus))
  {
    assert cpus - n.cpuset == {} <==> cpus <= n.cpuset by {
      assert forall x :: x in cpus - n.cpuset <==> x in cpus && x !in n.cpuset;
    }
    assert n.pinnedCpus * cpus == cpus <==> cpus <= n.pinnedCpus by {
      assert forall x :: x in n.pinnedCpus * cpus <==> x in cpus && x in n.pinnedCpus;
    }
  }

  datatype PinError = CPUPinningUnknown | CPUPinningInvalid | CPUUnpinningUnknown | CPUUnpinningInvalid

  datatype PinResult = Pinned(node: NumaNode) | PinFailed(error: PinError)

  // The container fields that accounting uses. Without pinned CPUs `cpus` is empty.
  datatype Container = Container(
    uuid: Uuid, memory: Option<int>, cpu: Option<int>, disk: Option<int>,
    dedicated: bool, cpus: set<nat>, node: nat)
  {
    function Mem(): int { if memory.Some? then memory.value else 0 }
    function Cpu(): int { if cpu.Some? then cpu.value else 0 }
    function Disk(): int { if disk.Some? then disk.value else 0 }
  }

  datatype CpusetLimit = CpusetLimit(node: nat, cpus: set<nat>, pinned: set<nat>, mem: int)

  // A missing limit means unlimited.
  datatype Limits = Limits(
    memory: Option<int>, cpu: Option<int>, disk: Option<int>, cpuset: Option<CpusetLimit>)

  const NO_LIMITS := Limits(None, None, None, None)

  datatype ComputeNode = ComputeNode(
    memTotal: int, memFree: int, memUsed: int,
    cpuUsed: int, diskUsed: int, running: int, numa: seq<NumaNode>)

  // What a claim asks for: a container's resources, or the increase of an update.
  datatype Request = Request(mem: int, cpu: int, disk: int)

  datatype Resource = MEMORY | CPU | DISK | CPUSET_CPU | CPUSET_MEM

  datatype Test = Passed | ResourcesUnavailable(reasons: seq<Resource>) | NoSuchNumaNode

  // `_test`: no limit, or the request fits into what the limit leaves.
  predicate Admits(limit: Option<int>, used: int, requested: int) {
    limit.None? || requested <= limit.value - used
  }

  function Reason(resource: Resource, ok: bool): seq<Resource> {
    if ok then [] else [resource]
  }

  function ClaimTest(cn: ComputeNode, r: Request, limits: Limits): Test {
    if limits.cpuset.Some? && limits.cpuset.value.node >= |cn.numa| then NoSuchNumaNode
    else
      var cs := limits.cpuset;
      var reasons :=
        Reason(MEMORY, Admits(limits.memory, cn.memUsed, r.mem)) +
        Reason(CPU, Admits(limits.cpu, cn.cpuUsed, r.cpu)) +
        Reason(DISK, Admits(limits.disk, cn.diskUsed, r.disk)) +
        Reason(CPUSET_CPU, cs.None? || Admits(Some(|cs.value.cpus| * CPU_UNIT), |cs.value.pinned| * CPU_UNIT, r.cpu)) +
        Reason(CPUSET_MEM, cs.None? || Admits(Some(cs.value.mem), 0, r.mem));
      if reasons == [] then Passed else ResourcesUnavailable(reasons)
  }

  // A claim is admitted exactly when every tested resource is.
  lemma PassedIff(cn: ComputeNode, r: Request, limits: Limits)
    ensures ClaimTest(cn, r, limits).Passed? <==>
            && Admits(limits.memory, cn.memUsed, r.mem)
            && Admits(limits.cpu, cn.cpuUsed, r.cpu)
            && Admits(limits.disk, cn.diskUsed, r.disk)
            && (limits.cpuset.Some? ==>
                  var cs := limits.cpuset.value;
                  && cs.node < |cn.numa|
                  && r.cpu <= |cs.cpus| * CPU_UNIT - |cs.pinned| * CPU_UNIT
                  && r.mem <= cs.mem)
  {
  }

  // `int(x)`: truncation toward zero.
  function Trunc(x: int): int {
    if x >= 0 then x / CPU_UNIT else -(-x / CPU_UNIT)
  }

  // The part before the decimal point.
  lemma TruncLaw(x: int)
    ensures x >= 0 ==> 0 <= x - Trunc(x) * 1000 < 1000 && Trunc(x) >= 0
    ensures x <= 0 ==> -1000 < x - Trunc(x) * 1000 <= 0 && Trunc(x) <= 0
  {
  }

  // `random.sample` of k CPUs: any choice of k distinct ones.
  ghost predicate IsSample(available: set<nat>, k: int, pick: set<nat>) {
    pick <= available && |pick| == k
  }

  method Sample(available: set<nat>, k: nat) returns (pick: set<nat>)
    requires k <= |available|
    ensures IsSample(available, k, pick)
  {
    pick := {};
    var rest := available;
    while |pick| < k
      invariant pick <= available && rest == available - pick && |pick| <= k
      decreases k - |pick|
    {
      assert |available| == |pick| + |rest| by { assert available == pick + rest; }
      assert rest != {};
      var c :| c in rest;
      pick, rest := pick + {c}, rest - {c};
    }
  }

  /******* The choice of a NUMA node *******/

  predicate NumaFits(n: NumaNode, c: Container) {
    |n.cpuset| * CPU_UNIT - |n.pinnedCpus| * CPU_UNIT >= c.Cpu() && n.memAvailable >= c.Mem()
  }

  function Snapshot(n: NumaNode): CpusetLimit {
    CpusetLimit(n.id, n.cpuset, n.pinnedCpus, n.memAvailable)
  }

  // Too few CPUs are unpinned, or too little memory is available.
  predicate TooSmall(n: NumaNode, c: Container) {
    |n.cpuset| * 1000 < |n.pinnedCpus| * 1000 + c.Cpu() || n.memAvailable < c.Mem()
  }

  // First fit; fails exactly if every node is too small.
  method GetCpusetLimits(cn: ComputeNode, c: Container) returns (r: Option<CpusetLimit>)
    ensures r.None? <==> forall i :: 0 <= i < |cn.numa| ==> TooSmall(cn.numa[i], c)
    ensures r.Some? ==>
              exists i :: 0 <= i < |cn.numa| && FirstFit(cn.numa, c, i) && r.value == Snapshot(cn.numa[i])
    ensures r.Some? ==>
              exists i :: 0 <= i < |cn.numa| && !TooSmall(cn.numa[i], c)
                          && (forall j :: 0 <= j < i ==> TooSmall(cn.numa[j], c))
                          && var CpusetLimit(node, cpus, pinned, mem) := r.value;
                          && node == cn.numa[i].id && cpus == cn.numa[i].cpuset
                          && pinned == cn.numa[i].pinnedCpus && mem == cn.numa[i].memAvailable
  {
    for i := 0 to |cn.numa|
      invariant forall j :: 0 <= j < i ==> !NumaFits(cn.numa[j], c)
    {
      if NumaFits(cn.numa[i], c) {
        assert FirstFit(cn.numa, c, i);
        return Some(Snapshot(cn.numa[i]));
      }
    }
    r := None;
  }

  ghost predicate FirstFit(nodes: seq<NumaNode>, c: Container, i: nat)
    requires i < |nodes|
  {
    NumaFits(nodes[i], c) && forall j :: 0 <= j < i ==> !NumaFits(nodes[j], c)
  }

  // The chosen node passes both cpuset tests of the claim that follows.
  lemma FirstFitIsAdmitted(cn: ComputeNode, c: Container, i: nat, limits: Limits)
    requires i < |cn.numa| && NumaFits(cn.numa[i], c) && cn.numa[i].id < |cn.numa|
    requires limits.cpuset == Some(Snapshot(cn.numa[i]))
    ensures var t := ClaimTest(cn, Request(c.Mem(), c.Cpu(), c.Disk()), limits);
            t.ResourcesUnavailable? ==> CPUSET_CPU !in t.reasons && CPUSET_MEM !in t.reasons
  {
  }

  // An admitted request never asks for more CPUs than the node has free, even if the pinned CPUs
  // reported with the limit are not all CPUs of the node.
  lemma EnoughToSample(cs: CpusetLimit, cpu: int)
    requires 0 <= cpu <= |cs.cpus| * CPU_UNIT - |cs.pinned| * CPU_UNIT
    ensures 0 <= Trunc(cpu) <= |cs.cpus - cs.pinned|
  {
    var common := cs.cpus * cs.pinned;
    assert cs.cpus == (cs.cpus - cs.pinned) + common;
    assert |common| <= |cs.pinned| by {
      assert cs.pinned == common + (cs.pinned - common);
    }
  }
}

/** What the compute node tracker does to the usage counters, the NUMA nodes and the table of
    tracked containers. Every synchronized method is one step. */
module Tracking {
  import opened Options
  import opened Claims

  datatype Tracker = Tracker(node: ComputeNode, tracked: map<Uuid, Container>)

  // A step may raise a pinning error after it changed the counters.
  datatype Step = Step(state: Tracker, error: Option<PinError>)

  // The loop over the NUMA nodes in `_update_usage`, from node i on.
  function UpdateNumaFrom(nodes: seq<NumaNode>, i: nat, c: Container, sign: int): (seq<NumaNode>, Option<PinError>)
    requires i <= |nodes|
    decreases |nodes| - i
  {
    if i == |nodes| then (nodes, None)
    else if nodes[i].id != c.node then UpdateNumaFrom(nodes, i + 1, c, sign)
    else
      var n := nodes[i].(memAvailable := nodes[i].memAvailable - c.Mem() * sign);
      match if sign > 0 then n.PinCpus(c.cpus) else n.UnpinCpus(c.cpus)
      case PinFailed(e) => (nodes[i := n], Some(e))
      case Pinned(n2) => UpdateNumaFrom(nodes[i := n2], i + 1, c, sign)
  }

  function UpdateNuma(nodes: seq<NumaNode>, c: Container, sign: int): (seq<NumaNode>, Option<PinError>) {
    UpdateNumaFrom(nodes, 0, c, sign)
  }

  function UpdateCounters(cn: ComputeNode, c: Container, sign: int): ComputeNode {
    var memUsed := cn.memUsed + sign * c.Mem();
    cn.(memUsed := memUsed,
        cpuUsed := cn.cpuUsed + sign * c.Cpu(),
        diskUsed := cn.diskUsed + sign * c.Disk(),
        memFree := cn.memTotal - memUsed,
        running := cn.running + sign)
  }

  function UpdateUsage(cn: ComputeNode, c: Container, sign: int): (ComputeNode, Option<PinError>) {
    var cn1 := UpdateCounters(cn, c, sign);
    if c.cpus == {} then (cn1, None)
    else
      var (numa, e) := UpdateNuma(cn.numa, c, sign);
      (cn1.(numa := numa), e)
  }

  // `_update_usage_from_container`: an unknown container is charged, even when it is to be removed.
  function TrackContainer(s: Tracker, c: Container, isRemoved: bool): Step {
    if c.uuid !in s.tracked then
      var (cn, e) := UpdateUsage(s.node, c, 1);
      Step(Tracker(cn, s.tracked[c.uuid := c]), e)
    else if isRemoved then
      var (cn, e) := UpdateUsage(s.node, c, -1);
      Step(Tracker(cn, s.tracked - {c.uuid}), e)
    else Step(s, None)
  }

  function TrackUpdate(s: Tracker, new': Container, old': Container): Step {
    var tracked := s.tracked[new'.uuid := new'];
    var (cn1, e1) := UpdateUsage(s.node, old', -1);
    if e1.Some? then Step(Tracker(cn1, tracked), e1)
    else
      var (cn2, e2) := UpdateUsage(cn1, new', 1);
      Step(Tracker(cn2, tracked), e2)
  }

  /******* Claims *******/

  datatype Denial = Unavailable(reasons: seq<Resource>) | BadNumaNode | NoCpusetLimits | CannotSample

  // What a claim answers, with the container as it goes on to be tracked.
  datatype Answer = Admitted(container: Container) | Denied(denial: Denial)

  function Effective(limits: Option<Limits>): Limits {
    if limits.Some? then limits.value else NO_LIMITS
  }

  // The CPUs a dedicated claim may choose from, if it gets that far.
  function Choices(limits: Option<Limits>): Option<set<nat>> {
    if limits.Some? && limits.value.cpuset.Some? then
      Some(limits.value.cpuset.value.cpus - limits.value.cpuset.value.pinned)
    else None
  }

  predicate CanSample(limits: Option<Limits>, cpu: int) {
    Choices(limits).Some? && 0 <= Trunc(cpu) <= |Choices(limits).value|
  }

  // `pick` is what the random choice returned, if it was reached.
  function MakeClaim(cn: ComputeNode, c: Container, r: Request, limits: Option<Limits>, pick: set<nat>): Answer {
    match ClaimTest(cn, r, Effective(limits))
    case NoSuchNumaNode => Denied(BadNumaNode)
    case ResourcesUnavailable(reasons) => Denied(Unavailable(reasons))
    case Passed =>
      if !c.dedicated then Admitted(c)
      else if Choices(limits).None? then Denied(NoCpusetLimits)
      else if !CanSample(limits, r.cpu) then Denied(CannotSample)
      else Admitted(c.(cpus := pick, node := limits.value.cpuset.value.node))
  }

  ghost predicate Possible(c: Container, r: Request, limits: Option<Limits>, pick: set<nat>) {
    c.dedicated && CanSample(limits, r.cpu) ==> IsSample(Choices(limits).value, Trunc(r.cpu), pick)
  }

  function RequestOf(c: Container): Request {
    Request(c.Mem(), c.Cpu(), c.Disk())
  }

  // An update asks for the increase of memory and CPU, but for the whole disk.
  function UpdateRequest(new': Container, old': Container): Request {
    Request(new'.Mem() - old'.Mem(), new'.Cpu() - old'.Cpu(), new'.Disk())
  }

  predicate NeedsNoClaim(c: Container, pciRequested: bool) {
    c.memory.None? && c.Cpu() == 0 && !pciRequested && c.Disk() == 0
  }

  datatype Reply =
    | Nop                                  // nothing to claim
    | Refused(denial: Denial)
    | Claimed(step: Step, container: Container)

  function ContainerClaim(s: Tracker, c: Container, pciRequested: bool, limits: Option<Limits>, pick: set<nat>): Reply {
    if NeedsNoClaim(c, pciRequested) then Nop
    else
      match MakeClaim(s.node, c, RequestOf(c), limits, pick)
      case Denied(d) => Refused(d)
      case Admitted(c1) => Claimed(TrackContainer(s, c1, false), c1)
  }

  function ContainerUpdateClaim(
    s: Tracker, new': Container, old': Container, limits: Option<Limits>, pick: set<nat>): Reply
  {
    if new'.cpu == old'.cpu && new'.memory == old'.memory then Nop
    else
      match MakeClaim(s.node, new', UpdateRequest(new', old'), limits, pick)
      case Denied(d) => Refused(d)
      case Admitted(c1) => Claimed(TrackUpdate(s, c1, old'), c1)
  }

  // The state a claim leaves.
  function After(s: Tracker, r: Reply): Tracker {
    if r.Claimed? then r.step.state else s
  }

  /******* The audit *******/

  function Cleared(cn: ComputeNode): ComputeNode {
    cn.(cpuUsed := 0, memFree := cn.memTotal, memUsed := 0, running := 0, diskUsed := 0)
  }

  function Clamped(cn: ComputeNode): ComputeNode {
    cn.(memFree := if cn.memFree < 0 then 0 else cn.memFree)
  }

  // The loop of `_update_usage_from_containers`, from the last container back.
  function Recount(s: Tracker, containers: seq<Container>): Step {
    if containers == [] then Step(s, None)
    else
      var before := Recount(s, containers[..|containers| - 1]);
      if before.error.Some? then before
      else TrackContainer(before.state, containers[|containers| - 1], false)
  }
}

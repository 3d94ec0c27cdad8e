/** The compute node tracker. Each public method holds the resource semaphore, so it is one step;
    it starts from the last saved node and saves the node at its end. */
module ComputeNodeTracker {
  import opened Options
  import opened Claims
  import opened Tracking
  import opened TrackingProofs
  import opened TrackingPins
  import opened TrackingAudit

  // What the caller of a claim gets: nothing to hold, a claim with the clone that an abort passes
  // and the container with its CPUs, or an exception.
  datatype Ticket =
    | NopClaim
    | Held(clone: Container, container: Container)
    | Denial(denial: Tracking.Denial)
    | PinRaised(container: Container, error: PinError)

  ghost predicate Gives(r: Reply, clone: Container, ticket: Ticket) {
    match r
    case Nop => ticket == NopClaim
    case Refused(d) => ticket == Denial(d)
    case Claimed(step, c) => ticket == if step.error.Some? then PinRaised(c, step.error.value) else Held(clone, c)
  }

  // The CPUs that were drawn, if any.
  function Drawn(ticket: Ticket): set<nat> {
    match ticket
    case Held(_, c) => c.cpus
    case PinRaised(c, _) => c.cpus
    case _ => {}
  }

  class ComputeNodeTracker {
    var node: ComputeNode
    var trackedContainers: map<Uuid, Container>

    constructor (node: ComputeNode)
      ensures View() == Tracker(node, map[])
    {
      this.node := node;
      trackedContainers := map[];
    }

    ghost function View(): Tracker
      reads this
    {
      Tracker(node, trackedContainers)
    }

    // The loop over the NUMA nodes.
    method UpdateNumaNodes(c: Container, sign: int) returns (error: Option<PinError>)
      modifies this`node
      ensures (node.numa, error) == UpdateNuma(old(node.numa), c, sign)
      ensures node == old(node).(numa := node.numa)
    {
      var i := 0;
      while i < |node.numa|
        invariant 0 <= i <= |node.numa|
        invariant node == old(node).(numa := node.numa)
        invariant UpdateNuma(old(node.numa), c, sign) == UpdateNumaFrom(node.numa, i, c, sign)
      {
        if node.numa[i].id == c.node {
          var n := node.numa[i].(memAvailable := node.numa[i].memAvailable - c.Mem() * sign);
          var pinned := if sign > 0 then n.PinCpus(c.cpus) else n.UnpinCpus(c.cpus);
          if pinned.PinFailed? {
            node := node.(numa := node.numa[i := n]);
            return Some(pinned.error);
          }
          node := node.(numa := node.numa[i := pinned.node]);
        }
        i := i + 1;
      }
      error := None;
    }

    method UpdateUsage(c: Container, sign: int) returns (error: Option<PinError>)
      modifies this`node
      ensures (node, error) == Tracking.UpdateUsage(old(node), c, sign)
    {
      node := node.(memUsed := node.memUsed + sign * c.Mem());
      node := node.(cpuUsed := node.cpuUsed + sign * c.Cpu());
      node := node.(diskUsed := node.diskUsed + sign * c.Disk());
      node := node.(memFree := node.memTotal - node.memUsed);
      node := node.(running := node.running + sign);
      error := None;
      if c.cpus != {} {
        error := UpdateNumaNodes(c, sign);
      }
    }

    method UpdateUsageFromContainer(c: Container, isRemoved: bool) returns (error: Option<PinError>)
      modifies this
      ensures Step(View(), error) == TrackContainer(old(View()), c, isRemoved)
    {
      var isNew := c.uuid !in trackedContainers;
      var isRemovedContainer := !isNew && isRemoved;
      var sign := 0;
      if isNew {
        trackedContainers := trackedContainers[c.uuid := c];
        sign := 1;
      }
      if isRemovedContainer {
        trackedContainers := trackedContainers - {c.uuid};
        sign := -1;
      }
      error := None;
      if isNew || isRemovedContainer {
        error := UpdateUsage(c, sign);
      }
    }

    method UpdateUsageFromContainerUpdate(new': Container, old': Container) returns (error: Option<PinError>)
      modifies this
      ensures Step(View(), error) == TrackUpdate(old(View()), new', old')
    {
      trackedContainers := trackedContainers[new'.uuid := new'];
      error := UpdateUsage(old', -1);
      if error.None? {
        error := UpdateUsage(new', 1);
      }
    }

    // The constructor of a claim: the test, then the choice of CPUs.
    method TryClaim(c: Container, r: Request, limits: Option<Limits>) returns (answer: Answer)
      ensures answer == MakeClaim(node, c, r, limits, if answer.Admitted? then answer.container.cpus else {})
      ensures answer.Admitted? ==> Possible(c, r, limits, answer.container.cpus)
    {
      var test := ClaimTest(node, r, Effective(limits));
      if test.NoSuchNumaNode? {
        return Denied(BadNumaNode);
      }
      if test.ResourcesUnavailable? {
        return Denied(Unavailable(test.reasons));
      }
      if !c.dedicated {
        return Admitted(c);
      }
      if Choices(limits).None? {
        return Denied(NoCpusetLimits);
      }
      if !CanSample(limits, r.cpu) {
        return Denied(CannotSample);
      }
      var cpus := Sample(Choices(limits).value, Trunc(r.cpu));
      answer := Admitted(c.(cpus := cpus, node := limits.value.cpuset.value.node));
    }

    method ContainerClaim(c: Container, pciRequested: bool, limits: Option<Limits>) returns (ticket: Ticket)
      modifies this
      ensures var r := Tracking.ContainerClaim(old(View()), c, pciRequested, limits, Drawn(ticket));
              && View() == After(old(View()), r) && Gives(r, c, ticket)
              && (r.Claimed? ==> Possible(c, RequestOf(c), limits, Drawn(ticket)))
      // The clone that an abort passes is the container as it came, without the chosen CPUs.
      ensures ticket.Held? ==> ticket.clone == c
      ensures ticket.NopClaim? || ticket.Denial? ==> View() == old(View())
    {
      if NeedsNoClaim(c, pciRequested) {
        return NopClaim;
      }
      var answer := TryClaim(c, RequestOf(c), limits);
      if answer.Denied? {
        return Denial(answer.denial);
      }
      var error := UpdateUsageFromContainer(answer.container, false);
      if error.Some? {
        return PinRaised(answer.container, error.value);
      }
      ticket := Held(c, answer.container);
    }

    method ContainerUpdateClaim(new': Container, old': Container, limits: Option<Limits>) returns (ticket: Ticket)
      modifies this
      ensures var r := Tracking.ContainerUpdateClaim(old(View()), new', old', limits, Drawn(ticket));
              && View() == After(old(View()), r) && Gives(r, new', ticket)
              && (r.Claimed? ==> Possible(new', UpdateRequest(new', old'), limits, Drawn(ticket)))
      ensures ticket.Held? ==> ticket.clone == new'
      ensures ticket.NopClaim? || ticket.Denial? ==> View() == old(View())
    {
      if new'.cpu == old'.cpu && new'.memory == old'.memory {
        return NopClaim;
      }
      var answer := TryClaim(new', UpdateRequest(new', old'), limits);
      if answer.Denied? {
        return Denial(answer.denial);
      }
      var error := UpdateUsageFromContainerUpdate(answer.container, old');
      if error.Some? {
        return PinRaised(answer.container, error.value);
      }
      ticket := Held(new', answer.container);
    }

    method AbortContainerClaim(clone: Container) returns (error: Option<PinError>)
      modifies this
      ensures Step(View(), error) == TrackContainer(old(View()), clone, true)
    {
      error := UpdateUsageFromContainer(clone, true);
    }

    method AbortContainerUpdateClaim(new': Container, old': Container) returns (error: Option<PinError>)
      modifies this
      ensures Step(View(), error) == TrackUpdate(old(View()), old', new')
    {
      error := UpdateUsageFromContainerUpdate(old', new');
    }

    method RemoveUsageFromContainer(c: Container) returns (error: Option<PinError>)
      modifies this
      ensures Step(View(), error) == TrackContainer(old(View()), c, true)
    {
      error := UpdateUsageFromContainer(c, true);
    }

    // The audit. With the NUMA nodes reported unpinned by the driver, a list of the tracked
    // containers gives the audited books.
    method UpdateUsageFromContainers(containers: seq<Container>, ghost s: Tracker, ghost base: seq<int>)
      returns (error: Option<PinError>)
      modifies this
      ensures var r := Recount(Tracker(Cleared(old(node)), map[]), containers);
              && error == r.error && trackedContainers == r.state.tracked
              && node == if error.Some? then r.state.node else Clamped(r.state.node)
      // Without an error the free memory is what the containers leave of the whole, or zero if they
      // use more.
      ensures node.memTotal == old(node).memTotal
      ensures error.None? ==>
                && trackedContainers.Keys == UuidsOf(containers) && FirstCounts(trackedContainers, containers)
                && Counters(node) == Total(trackedContainers)
                && var used := Total(trackedContainers).mem;
                && node.memFree == if used <= node.memTotal then node.memTotal - used else 0
      ensures AuditOf(s, base, containers, old(node)) ==>
                && error.None? && View() == Audited(s, base, containers)
                && trackedContainers == s.tracked && Balanced(View()) && PinsKept(View(), base)
    {
      trackedContainers := map[];
      node := node.(cpuUsed := 0);
      node := node.(memFree := node.memTotal);
      node := node.(memUsed := 0);
      node := node.(running := 0);
      node := node.(diskUsed := 0);
      ghost var start := View();
      RecountCounts(start, containers);
      if Recount(start, containers).error.None? {
        RecountTakesFirst(start, containers);
      }
      if AuditOf(s, base, containers, old(node)) {
        AuditAgrees(s, base, containers);
        AuditedAgrees(s, base, containers);
        assert Reset(s, base) == start;
      }
      hide AuditOf, PinsKept, Placed, Balanced, Counters, Total, UuidsOf, FirstCounts;
      assert containers[..|containers|] == containers;
      for i := 0 to |containers|
        invariant Step(View(), None) == Recount(start, containers[..i])
      {
        assert containers[..i + 1][..i] == containers[..i];
        error := UpdateUsageFromContainer(containers[i], false);
        if error.Some? {
          RaisedStaysRaised(start, containers, i + 1);
          return;
        }
      }
      node := node.(memFree := if node.memFree < 0 then 0 else node.memFree);
      error := None;
    }
  }

  // The node is s as the driver reports it anew, and the list names what s tracks.
  ghost predicate AuditOf(s: Tracker, base: seq<int>, list: seq<Container>, cn: ComputeNode) {
    && Placed(s) && |base| == |s.node.numa| && Lists(s.tracked, list)
    && cn.numa == Unpinned(s.node.numa, base) && cn.memTotal == s.node.memTotal
  }

  lemma {:induction false} RaisedStaysRaised(s: Tracker, list: seq<Container>, k: nat)
    requires k <= |list| && Recount(s, list[..k]).error.Some?
    ensures Recount(s, list) == Recount(s, list[..k])
    decreases |list|
  {
    if k == |list| {
      assert list[..k] == list;
    } else {
      var init := list[..|list| - 1];
      assert init[..k] == list[..k];
      RaisedStaysRaised(s, init, k);
    }
  }
}

/** CPU pinning: the pinned CPUs of every NUMA node are exactly those of the tracked containers. */
module TrackingPins {
  import opened Options
  import opened Claims
  import opened Tracking
  import opened TrackingProofs

  // The containers that hold pinned CPUs of this node.
  ghost function OnNode(m: map<Uuid, Container>, id: nat): map<Uuid, Container> {
    map u | u in m && m[u].cpus != {} && m[u].node == id :: m[u]
  }

  ghost function PinnedBy(m: map<Uuid, Container>, id: nat): set<nat> {
    set u, x | u in m && m[u].node == id && x in m[u].cpus :: x
  }

  ghost predicate Disjoint(m: map<Uuid, Container>) {
    forall u, v :: u in m && v in m && u != v && m[u].node == m[v].node ==> m[u].cpus !! m[v].cpus
  }

  // `base` is the memory of the node when nothing is pinned.
  ghost predicate NodeKept(m: map<Uuid, Container>, n: NumaNode, base: int) {
    && n.pinnedCpus == PinnedBy(m, n.id)
    && n.pinnedCpus <= n.cpuset
    && n.memAvailable + Total(OnNode(m, n.id)).mem == base
  }

  ghost predicate Homed(nodes: seq<NumaNode>, c: Container) {
    exists i :: 0 <= i < |nodes| && nodes[i].id == c.node
  }

  lemma StillHomed(nodes: seq<NumaNode>, after: seq<NumaNode>, c: Container)
    requires |after| == |nodes| && forall i :: 0 <= i < |nodes| ==> SameHardware(after[i], nodes[i])
    requires Homed(nodes, c)
    ensures Homed(after, c)
  {
    var i :| 0 <= i < |nodes| && nodes[i].id == c.node;
    assert SameHardware(after[i], nodes[i]);
  }

  ghost predicate PinsKept(s: Tracker, base: seq<int>) {
    && |base| == |s.node.numa|
    && DistinctIds(s.node.numa)
    && Disjoint(s.tracked)
    && (forall u :: u in s.tracked && s.tracked[u].cpus != {} ==> Homed(s.node.numa, s.tracked[u]))
    && forall i :: 0 <= i < |base| ==> NodeKept(s.tracked, s.node.numa[i], base[i])
  }

  /******* One NUMA node *******/

  lemma OnNodePut(m: map<Uuid, Container>, c: Container, id: nat)
    requires c.uuid !in m || m[c.uuid].cpus == {}
    ensures OnNode(m[c.uuid := c], id) ==
            if c.cpus != {} && c.node == id then OnNode(m, id)[c.uuid := c] else OnNode(m, id)
    ensures c.uuid !in OnNode(m, id)
  {
  }

  lemma OnNodeDrop(m: map<Uuid, Container>, u: Uuid, id: nat)
    ensures OnNode(m - {u}, id) == OnNode(m, id) - {u}
    ensures u !in OnNode(m, id) ==> OnNode(m - {u}, id) == OnNode(m, id)
    ensures u in m && m[u].cpus != {} && m[u].node == id ==> u in OnNode(m, id) && OnNode(m, id)[u] == m[u]
  {
  }

  lemma PinnedByPut(m: map<Uuid, Container>, c: Container, id: nat)
    requires c.uuid !in m || m[c.uuid].cpus == {}
    ensures PinnedBy(m[c.uuid := c], id) == PinnedBy(m, id) + if c.node == id then c.cpus else {}
  {
    var n := m[c.uuid := c];
    forall x | x in PinnedBy(m, id) ensures x in PinnedBy(n, id) {
      var u :| u in m && m[u].node == id && x in m[u].cpus;
      assert n[u] == m[u];
    }
    forall x | c.node == id && x in c.cpus ensures x in PinnedBy(n, id) {
      assert n[c.uuid] == c;
    }
  }

  lemma PinnedByDrop(m: map<Uuid, Container>, u: Uuid, id: nat)
    requires Disjoint(m) && u in m
    ensures PinnedBy(m - {u}, id) == PinnedBy(m, id) - if m[u].node == id then m[u].cpus else {}
    ensures m[u].node == id ==> m[u].cpus <= PinnedBy(m, id)
  {
    var n := m - {u};
    forall x | x in PinnedBy(m, id) && !(m[u].node == id && x in m[u].cpus) ensures x in PinnedBy(n, id) {
      var v :| v in m && m[v].node == id && x in m[v].cpus;
      assert n[v] == m[v];
    }
  }

  lemma NodeCharged(m: map<Uuid, Container>, n: NumaNode, base: int, c: Container)
    requires NodeKept(m, n, base) && c.uuid !in m
    requires c.node == n.id && c.cpus != {} && c.cpus <= n.FreeCpus()
    ensures var n1 := n.(memAvailable := n.memAvailable - c.Mem() * 1);
            n1.PinCpus(c.cpus).Pinned? && NodeKept(m[c.uuid := c], n1.PinCpus(c.cpus).node, base)
  {
    hide Total, OnNode, PinnedBy;
    OnNodePut(m, c, n.id);
    PinnedByPut(m, c, n.id);
    TotalPut(OnNode(m, n.id), c);
  }

  lemma NodeReleased(m: map<Uuid, Container>, n: NumaNode, base: int, c: Container)
    requires NodeKept(m, n, base) && Disjoint(m) && c.uuid in m && m[c.uuid] == c
    requires c.node == n.id && c.cpus != {}
    ensures var n1 := n.(memAvailable := n.memAvailable - c.Mem() * -1);
            n1.UnpinCpus(c.cpus).Pinned? && NodeKept(m - {c.uuid}, n1.UnpinCpus(c.cpus).node, base)
  {
    hide Total, OnNode, PinnedBy;
    OnNodeDrop(m, c.uuid, n.id);
    PinnedByDrop(m, c.uuid, n.id);
    TotalWithout(OnNode(m, n.id), c.uuid);
    assert n.pinnedCpus * c.cpus == c.cpus;
  }

  // A change that holds no CPU of this node leaves it alone.
  lemma NodeUntouched(m: map<Uuid, Container>, n: NumaNode, base: int, c: Container)
    requires NodeKept(m, n, base)
    requires c.cpus == {} || c.node != n.id
    requires c.uuid !in m || m[c.uuid].cpus == {}
    ensures NodeKept(m[c.uuid := c], n, base)
  {
    OnNodePut(m, c, n.id);
    PinnedByPut(m, c, n.id);
  }

  lemma NodeUnreleased(m: map<Uuid, Container>, n: NumaNode, base: int, u: Uuid)
    requires NodeKept(m, n, base) && Disjoint(m) && u in m && (m[u].cpus == {} || m[u].node != n.id)
    ensures NodeKept(m - {u}, n, base)
  {
    OnNodeDrop(m, u, n.id);
    PinnedByDrop(m, u, n.id);
  }

  /******* Steps *******/

  // A container that is charged either holds no CPUs, or free ones of an existing node.
  ghost predicate Pinnable(s: Tracker, c: Container) {
    c.cpus == {} ||
    exists i :: 0 <= i < |s.node.numa| && s.node.numa[i].id == c.node && c.cpus <= s.node.numa[i].FreeCpus()
  }

  lemma ChargeKeepsPins(s: Tracker, base: seq<int>, c: Container)
    requires PinsKept(s, base) && c.uuid !in s.tracked && Pinnable(s, c)
    ensures TrackContainer(s, c, false).error.None?
    ensures PinsKept(TrackContainer(s, c, false).state, base)
  {
    hide NodeKept, Disjoint;
    var r, nodes := TrackContainer(s, c, false), s.node.numa;
    UpdateNumaLaw(nodes, c, 1);
    assert forall i :: 0 <= i < |nodes| ==> SameHardware(r.state.node.numa[i], nodes[i]);
    forall u | u in r.state.tracked && r.state.tracked[u].cpus != {}
      ensures Homed(r.state.node.numa, r.state.tracked[u])
    {
      StillHomed(nodes, r.state.node.numa, r.state.tracked[u]);
    }
    forall i | 0 <= i < |base| ensures NodeKept(r.state.tracked, r.state.node.numa[i], base[i]) {
      if c.cpus == {} || nodes[i].id != c.node {
        NodeUntouched(s.tracked, nodes[i], base[i], c);
      } else {
        NodeCharged(s.tracked, nodes[i], base[i], c);
      }
    }
    if c.cpus == {} {
      StillDisjoint(s.tracked, c);
    } else {
      var i :| 0 <= i < |nodes| && nodes[i].id == c.node && c.cpus <= nodes[i].FreeCpus();
      NodeCharged(s.tracked, nodes[i], base[i], c);
      ChargeKeepsDisjoint(s.tracked, nodes[i], base[i], c);
    }
  }

  lemma StillDisjoint(m: map<Uuid, Container>, c: Container)
    requires Disjoint(m)
    ensures c.cpus == {} ==> Disjoint(m[c.uuid := c])
    ensures Disjoint(m - {c.uuid})
  {
  }

  lemma ChargeKeepsDisjoint(m: map<Uuid, Container>, n: NumaNode, base: int, c: Container)
    requires Disjoint(m) && c.uuid !in m && c.node == n.id && c.cpus <= n.FreeCpus()
    requires NodeKept(m, n, base)
    ensures Disjoint(m[c.uuid := c])
  {
    forall v | v in m && m[v].node == c.node ensures m[v].cpus !! c.cpus {
      forall x | x in m[v].cpus ensures x in PinnedBy(m, n.id) {}
    }
  }

  lemma ReleaseKeepsPins(s: Tracker, base: seq<int>, c: Container)
    requires PinsKept(s, base) && c.uuid in s.tracked && s.tracked[c.uuid] == c
    ensures TrackContainer(s, c, true).error.None?
    ensures PinsKept(TrackContainer(s, c, true).state, base)
  {
    hide NodeKept, Disjoint;
    var r, nodes := TrackContainer(s, c, true), s.node.numa;
    UpdateNumaLaw(nodes, c, -1);
    assert forall i :: 0 <= i < |nodes| ==> SameHardware(r.state.node.numa[i], nodes[i]);
    forall u | u in r.state.tracked && r.state.tracked[u].cpus != {}
      ensures Homed(r.state.node.numa, r.state.tracked[u])
    {
      StillHomed(nodes, r.state.node.numa, r.state.tracked[u]);
    }
    forall i | 0 <= i < |base| ensures NodeKept(r.state.tracked, r.state.node.numa[i], base[i]) {
      if c.cpus == {} || nodes[i].id != c.node {
        NodeUnreleased(s.tracked, nodes[i], base[i], c.uuid);
      } else {
        NodeReleased(s.tracked, nodes[i], base[i], c);
      }
    }
    StillDisjoint(s.tracked, c);
    if i :| 0 <= i < |nodes| && c.cpus != {} && nodes[i].id == c.node {
      NodeReleased(s.tracked, nodes[i], base[i], c);
    }
  }

  // An update of a recorded container is its release followed by a charge.
  lemma UpdateIsReleaseThenCharge(s: Tracker, new': Container, old': Container)
    requires new'.uuid == old'.uuid && old'.uuid in s.tracked
    requires TrackContainer(s, old', true).error.None?
    ensures TrackUpdate(s, new', old') == TrackContainer(TrackContainer(s, old', true).state, new', false)
  {
    assert (s.tracked - {old'.uuid})[new'.uuid := new'] == s.tracked[new'.uuid := new'];
  }

  lemma UpdateKeepsPins(s: Tracker, base: seq<int>, new': Container, old': Container)
    requires PinsKept(s, base) && new'.uuid == old'.uuid && old'.uuid in s.tracked && s.tracked[old'.uuid] == old'
    requires Pinnable(TrackContainer(s, old', true).state, new')
    ensures TrackUpdate(s, new', old').error.None?
    ensures PinsKept(TrackUpdate(s, new', old').state, base)
  {
    hide PinsKept, Pinnable;
    ReleaseKeepsPins(s, base, old');
    ChargeKeepsPins(TrackContainer(s, old', true).state, base, new');
    UpdateIsReleaseThenCharge(s, new', old');
  }

  /******* Pins that nobody holds any more *******/

  // The tracked containers hold their CPUs, but CPUs of aborted claims may be pinned as well.
  ghost predicate NodeCovered(m: map<Uuid, Container>, n: NumaNode) {
    PinnedBy(m, n.id) <= n.pinnedCpus <= n.cpuset
  }

  ghost predicate PinsCovered(s: Tracker) {
    && DistinctIds(s.node.numa)
    && Disjoint(s.tracked)
    && (forall u :: u in s.tracked && s.tracked[u].cpus != {} ==> Homed(s.node.numa, s.tracked[u]))
    && forall i :: 0 <= i < |s.node.numa| ==> NodeCovered(s.tracked, s.node.numa[i])
  }

  lemma KeptIsCovered(s: Tracker, base: seq<int>)
    requires PinsKept(s, base)
    ensures PinsCovered(s)
  {
    forall i | 0 <= i < |s.node.numa| ensures NodeCovered(s.tracked, s.node.numa[i]) {
      assert NodeKept(s.tracked, s.node.numa[i], base[i]);
    }
  }

  // Pinning free CPUs of a host raises nothing.
  lemma ChargeRaisesNothing(s: Tracker, c: Container)
    requires DistinctIds(s.node.numa) && Pinnable(s, c)
    ensures TrackContainer(s, c, false).error.None?
  {
    UpdateNumaLaw(s.node.numa, c, 1);
    if c.cpus != {} {
      var i :| 0 <= i < |s.node.numa| && s.node.numa[i].id == c.node && c.cpus <= s.node.numa[i].FreeCpus();
      assert UpdatedAt(s.node.numa[i], UpdateNuma(s.node.numa, c, 1).0[i], UpdateNuma(s.node.numa, c, 1).1, c, 1);
    }
  }

  lemma ChargeKeepsCovered(s: Tracker, c: Container)
    requires PinsCovered(s) && c.uuid !in s.tracked && Pinnable(s, c)
    ensures TrackContainer(s, c, false).error.None?
    ensures PinsCovered(TrackContainer(s, c, false).state)
  {
    ChargeRaisesNothing(s, c);
    hide NodeCovered, Disjoint;
    var r, nodes := TrackContainer(s, c, false), s.node.numa;
    UpdateNumaLaw(nodes, c, 1);
    assert forall i :: 0 <= i < |nodes| ==> SameHardware(r.state.node.numa[i], nodes[i]);
    forall u | u in r.state.tracked && r.state.tracked[u].cpus != {}
      ensures Homed(r.state.node.numa, r.state.tracked[u])
    {
      StillHomed(nodes, r.state.node.numa, r.state.tracked[u]);
    }
    forall i | 0 <= i < |nodes| ensures NodeCovered(r.state.tracked, r.state.node.numa[i]) {
      NodeCoveredAfterCharge(s.tracked, nodes[i], r.state.node.numa[i], c);
    }
    if c.cpus == {} {
      StillDisjoint(s.tracked, c);
    } else {
      var i :| 0 <= i < |nodes| && nodes[i].id == c.node && c.cpus <= nodes[i].FreeCpus();
      CoveredKeepsDisjoint(s.tracked, nodes[i], c);
    }
  }

  lemma NodeCoveredAfterCharge(m: map<Uuid, Container>, n: NumaNode, after: NumaNode, c: Container)
    requires NodeCovered(m, n) && c.uuid !in m
    requires if c.cpus == {} || n.id != c.node then after == n else UpdatedAt(n, after, None, c, 1)
    ensures NodeCovered(m[c.uuid := c], after)
  {
    PinnedByPut(m, c, n.id);
    if c.cpus != {} && n.id == c.node {
      assert c.cpus - n.cpuset == {};
      forall x | x in c.cpus ensures x in n.cpuset {
        assert x !in c.cpus - n.cpuset;
      }
    }
  }

  lemma CoveredKeepsDisjoint(m: map<Uuid, Container>, n: NumaNode, c: Container)
    requires Disjoint(m) && c.uuid !in m && c.node == n.id && c.cpus <= n.FreeCpus()
    requires NodeCovered(m, n)
    ensures Disjoint(m[c.uuid := c])
  {
    forall v | v in m && m[v].node == c.node ensures m[v].cpus !! c.cpus {
      forall x | x in m[v].cpus ensures x in PinnedBy(m, n.id) {}
    }
  }

  lemma ReleaseKeepsCovered(s: Tracker, c: Container)
    requires PinsCovered(s) && c.uuid in s.tracked && s.tracked[c.uuid] == c
    ensures TrackContainer(s, c, true).error.None?
    ensures PinsCovered(TrackContainer(s, c, true).state)
  {
    hide NodeCovered, Disjoint;
    var r, nodes := TrackContainer(s, c, true), s.node.numa;
    UpdateNumaLaw(nodes, c, -1);
    assert forall i :: 0 <= i < |nodes| ==> SameHardware(r.state.node.numa[i], nodes[i]);
    forall u | u in r.state.tracked && r.state.tracked[u].cpus != {}
      ensures Homed(r.state.node.numa, r.state.tracked[u])
    {
      StillHomed(nodes, r.state.node.numa, r.state.tracked[u]);
    }
    forall i | 0 <= i < |nodes|
      ensures NodeCovered(r.state.tracked, r.state.node.numa[i])
      ensures c.cpus != {} && nodes[i].id == c.node ==> r.error.None?
    {
      NodeCoveredAfterRelease(s.tracked, nodes[i], r.state.node.numa[i], r.error, c);
    }
    StillDisjoint(s.tracked, c);
    if i :| 0 <= i < |nodes| && c.cpus != {} && nodes[i].id == c.node {
      NodeCoveredAfterRelease(s.tracked, nodes[i], r.state.node.numa[i], r.error, c);
    }
  }

  lemma NodeCoveredAfterRelease(
    m: map<Uuid, Container>, n: NumaNode, after: NumaNode, e: Option<PinError>, c: Container)
    requires NodeCovered(m, n) && Disjoint(m) && c.uuid in m && m[c.uuid] == c
    requires if c.cpus == {} || n.id != c.node then after == n else UpdatedAt(n, after, e, c, -1)
    ensures NodeCovered(m - {c.uuid}, after)
    ensures c.cpus != {} && n.id == c.node ==> e.None?
  {
    PinnedByDrop(m, c.uuid, n.id);
    if c.cpus != {} && n.id == c.node {
      assert n.pinnedCpus * c.cpus == c.cpus;
    }
  }

  lemma UpdateKeepsCovered(s: Tracker, new': Container, old': Container)
    requires PinsCovered(s) && new'.uuid == old'.uuid && old'.uuid in s.tracked && s.tracked[old'.uuid] == old'
    requires Pinnable(TrackContainer(s, old', true).state, new')
    ensures TrackUpdate(s, new', old').error.None?
    ensures PinsCovered(TrackUpdate(s, new', old').state)
  {
    hide PinsCovered, Pinnable;
    ReleaseKeepsCovered(s, old');
    ChargeKeepsCovered(TrackContainer(s, old', true).state, new');
    UpdateIsReleaseThenCharge(s, new', old');
  }

  // The abort of a claim passes a container without CPUs. It raises nothing and leaves the pins.
  lemma AbortKeepsCovered(s: Tracker, clone: Container)
    requires PinsCovered(s) && clone.uuid in s.tracked && clone.cpus == {}
    ensures TrackContainer(s, clone, true).error.None?
    ensures TrackContainer(s, clone, true).state.node.numa == s.node.numa
    ensures PinsCovered(TrackContainer(s, clone, true).state)
  {
    var m, nodes := s.tracked, s.node.numa;
    StillDisjoint(m, clone);
    forall i | 0 <= i < |nodes| ensures NodeCovered(m - {clone.uuid}, nodes[i]) {
      PinnedByDrop(m, clone.uuid, nodes[i].id);
    }
  }

  // So it keeps the books of the NUMA nodes exactly when the recorded container holds no CPUs.
  lemma AbortKeepsPinsIff(s: Tracker, base: seq<int>, clone: Container)
    requires PinsKept(s, base) && clone.uuid in s.tracked && clone.cpus == {}
    ensures PinsKept(TrackContainer(s, clone, true).state, base) <==> s.tracked[clone.uuid].cpus == {}
  {
    var m, nodes, u := s.tracked, s.node.numa, clone.uuid;
    var r := TrackContainer(s, clone, true).state;
    assert r.node.numa == nodes && r.tracked == m - {u};
    StillDisjoint(m, clone);
    if m[u].cpus == {} {
      hide NodeKept;
      forall i | 0 <= i < |base| ensures NodeKept(m - {u}, nodes[i], base[i]) {
        NodeUnreleased(m, nodes[i], base[i], u);
      }
    } else {
      assert Homed(nodes, m[u]);
      var i :| 0 <= i < |nodes| && nodes[i].id == m[u].node;
      PinnedByDrop(m, u, nodes[i].id);
      assert NodeKept(m, nodes[i], base[i]);
      var x :| x in m[u].cpus;
      assert x in nodes[i].pinnedCpus && x !in PinnedBy(m - {u}, nodes[i].id);
      assert !NodeKept(r.tracked, r.node.numa[i], base[i]);
    }
  }

  // The same for the abort of an update whose clones carry no CPUs.
  lemma AbortUpdateKeepsCovered(s: Tracker, new': Container, old': Container)
    requires PinsCovered(s) && new'.uuid == old'.uuid && old'.uuid in s.tracked && new'.cpus == old'.cpus == {}
    ensures TrackUpdate(s, old', new').error.None?
    ensures TrackUpdate(s, old', new').state.node.numa == s.node.numa
    ensures PinsCovered(TrackUpdate(s, old', new').state)
  {
    var m, nodes := s.tracked, s.node.numa;
    StillDisjoint(m, old');
    forall i | 0 <= i < |nodes| ensures NodeCovered(m[old'.uuid := old'], nodes[i]) {
      PinnedByDrop(m, old'.uuid, nodes[i].id);
      PinnedByReplaced(m, old', nodes[i].id);
    }
  }

  lemma PinnedByReplaced(m: map<Uuid, Container>, c: Container, id: nat)
    requires c.cpus == {}
    ensures PinnedBy(m[c.uuid := c], id) == PinnedBy(m - {c.uuid}, id)
  {
    var n := m - {c.uuid};
    PinnedByPut(n, c, id);
    assert n[c.uuid := c] == m[c.uuid := c];
  }

  lemma AbortUpdateKeepsPinsIff(s: Tracker, base: seq<int>, new': Container, old': Container)
    requires PinsKept(s, base) && new'.uuid == old'.uuid && old'.uuid in s.tracked && new'.cpus == old'.cpus == {}
    ensures PinsKept(TrackUpdate(s, old', new').state, base) <==> s.tracked[old'.uuid].cpus == {}
  {
    var m, nodes, u := s.tracked, s.node.numa, old'.uuid;
    var r := TrackUpdate(s, old', new').state;
    assert r.node.numa == nodes && r.tracked == m[u := old'];
    StillDisjoint(m, old');
    if m[u].cpus == {} {
      hide NodeKept;
      forall i | 0 <= i < |base| ensures NodeKept(r.tracked, nodes[i], base[i]) {
        NodeUntouched(m, nodes[i], base[i], old');
      }
    } else {
      assert Homed(nodes, m[u]);
      var i :| 0 <= i < |nodes| && nodes[i].id == m[u].node;
      PinnedByDrop(m, u, nodes[i].id);
      PinnedByReplaced(m, old', nodes[i].id);
      assert NodeKept(m, nodes[i], base[i]);
      var x :| x in m[u].cpus;
      assert x in nodes[i].pinnedCpus && x !in PinnedBy(r.tracked, nodes[i].id);
      assert !NodeKept(r.tracked, r.node.numa[i], base[i]);
    }
  }
}

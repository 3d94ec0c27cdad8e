/** The audit: recounting from zero over a list of the tracked containers gives back exactly what
    the incremental steps kept, in any order of the list and with any repetitions, and repairs what
    they did not keep. */
module TrackingAudit {
  import opened Options
  import opened Claims
  import opened Tracking
  import opened TrackingProofs
  import opened TrackingPins

  // The list names every tracked container, as recorded, at least once.
  ghost predicate Lists(m: map<Uuid, Container>, list: seq<Container>) {
    && (forall c :: c in list ==> c.uuid in m && m[c.uuid] == c)
    && (forall u :: u in m ==> exists c :: c in list && c.uuid == u)
  }

  // The tracked containers can be pinned: they hold disjoint sets of CPUs of existing nodes.
  ghost predicate Placed(s: Tracker) {
    && DistinctIds(s.node.numa)
    && Disjoint(s.tracked)
    && (forall u :: u in s.tracked && s.tracked[u].cpus != {} ==> Homed(s.node.numa, s.tracked[u]))
    && forall i :: 0 <= i < |s.node.numa| ==> PinnedBy(s.tracked, s.node.numa[i].id) <= s.node.numa[i].cpuset
  }

  lemma CoveredIsPlaced(s: Tracker)
    requires PinsCovered(s)
    ensures Placed(s)
  {
    forall i | 0 <= i < |s.node.numa| ensures PinnedBy(s.tracked, s.node.numa[i].id) <= s.node.numa[i].cpuset {
      assert NodeCovered(s.tracked, s.node.numa[i]);
    }
  }

  // The host as the driver reports it anew: nothing pinned.
  function Unpinned(nodes: seq<NumaNode>, base: seq<int>): (r: seq<NumaNode>)
    requires |base| == |nodes|
  {
    seq(|nodes|, i requires 0 <= i < |nodes| => nodes[i].(pinnedCpus := {}, memAvailable := base[i]))
  }

  function Reset(s: Tracker, base: seq<int>): Tracker
    requires |base| == |s.node.numa|
  {
    Tracker(Cleared(s.node.(numa := Unpinned(s.node.numa, base))), map[])
  }

  // A part of what s tracks, on the same host.
  ghost predicate PartOf(r: Tracker, s: Tracker, base: seq<int>) {
    && Balanced(r) && PinsKept(r, base)
    && (forall u :: u in r.tracked ==> u in s.tracked && r.tracked[u] == s.tracked[u])
    && |r.node.numa| == |s.node.numa|
    && (forall i :: 0 <= i < |s.node.numa| ==> SameHardware(r.node.numa[i], s.node.numa[i]))
  }

  lemma ResetIsPart(s: Tracker, base: seq<int>)
    requires DistinctIds(s.node.numa) && |base| == |s.node.numa|
    ensures PartOf(Reset(s, base), s, base)
  {
    var r := Reset(s, base);
    assert Total(r.tracked) == NONE;
    forall i | 0 <= i < |base| ensures NodeKept(r.tracked, r.node.numa[i], base[i]) {
      assert OnNode(r.tracked, r.node.numa[i].id) == map[];
      assert PinnedBy(r.tracked, r.node.numa[i].id) == {};
    }
  }

  // A container of s that is not counted yet can be pinned where s has it pinned.
  lemma StillPinnable(r: Tracker, s: Tracker, base: seq<int>, u: Uuid)
    requires Placed(s) && PartOf(r, s, base) && u in s.tracked && u !in r.tracked
    ensures Pinnable(r, s.tracked[u])
  {
    var c := s.tracked[u];
    if c.cpus != {} {
      assert Homed(s.node.numa, c);
      var i :| 0 <= i < |s.node.numa| && s.node.numa[i].id == c.node;
      assert SameHardware(r.node.numa[i], s.node.numa[i]);
      assert NodeKept(r.tracked, r.node.numa[i], base[i]);
      FreeForLater(r.tracked, s.tracked, u, r.node.numa[i], s.node.numa[i]);
    }
  }

  lemma FreeForLater(part: map<Uuid, Container>, m: map<Uuid, Container>, u: Uuid, n: NumaNode, full: NumaNode)
    requires Disjoint(m) && u in m && u !in part && m[u].node == n.id == full.id && n.cpuset == full.cpuset
    requires forall v :: v in part ==> v in m && part[v] == m[v]
    requires n.pinnedCpus == PinnedBy(part, n.id) && PinnedBy(m, n.id) <= full.cpuset
    ensures m[u].cpus <= n.FreeCpus()
  {
    forall x | x in m[u].cpus ensures x in n.cpuset && x !in n.pinnedCpus {
      assert x in PinnedBy(m, n.id);
      forall v | v in part && part[v].node == n.id ensures x !in part[v].cpus {
        assert m[u].cpus !! m[v].cpus;
      }
    }
  }

  lemma CountOneMore(r: Tracker, s: Tracker, base: seq<int>, c: Container)
    requires Placed(s) && PartOf(r, s, base) && c.uuid in s.tracked && s.tracked[c.uuid] == c
    ensures var next := TrackContainer(r, c, false);
            next.error.None? && PartOf(next.state, s, base) && next.state.tracked.Keys == r.tracked.Keys + {c.uuid}
  {
    hide Balanced, PinsKept, Placed;
    if c.uuid !in r.tracked {
      StillPinnable(r, s, base, c.uuid);
      ChargeKeepsPins(r, base, c);
      ChargeBalanced(r, c);
      assert DistinctIds(r.node.numa) by { PinsHaveIds(r, base); }
      UpdateNumaLaw(r.node.numa, c, 1);
    }
  }

  lemma PinsHaveIds(s: Tracker, base: seq<int>)
    requires PinsKept(s, base)
    ensures DistinctIds(s.node.numa)
  {
  }

  ghost function UuidsOf(list: seq<Container>): set<Uuid> {
    set c | c in list :: c.uuid
  }

  lemma UuidsOfSnoc(list: seq<Container>)
    requires list != []
    ensures UuidsOf(list) == UuidsOf(list[..|list| - 1]) + {list[|list| - 1].uuid}
    ensures forall c :: c in list[..|list| - 1] ==> c in list
  {
    assert list == list[..|list| - 1] + [list[|list| - 1]];
  }

  lemma {:induction false} RecountPrefix(s: Tracker, base: seq<int>, list: seq<Container>)
    requires Placed(s) && |base| == |s.node.numa|
    requires forall c :: c in list ==> c.uuid in s.tracked && s.tracked[c.uuid] == c
    ensures var r := Recount(Reset(s, base), list);
            r.error.None? && PartOf(r.state, s, base) && r.state.tracked.Keys == UuidsOf(list)
  {
    assert DistinctIds(s.node.numa);
    hide PartOf, Placed, Reset, TrackContainer, UuidsOf;
    if list == [] {
      ResetIsPart(s, base);
      ResetTracksNothing(s, base);
      assert UuidsOf(list) == {} by { NoUuids(); }
    } else {
      UuidsOfSnoc(list);
      RecountPrefix(s, base, list[..|list| - 1]);
      CountOneMore(Recount(Reset(s, base), list[..|list| - 1]).state, s, base, list[|list| - 1]);
    }
  }

  lemma NoUuids()
    ensures UuidsOf([]) == {}
  {
  }

  lemma ResetTracksNothing(s: Tracker, base: seq<int>)
    requires |base| == |s.node.numa|
    ensures Reset(s, base).tracked == map[]
  {
  }

  // Of several records of one container the first in the list counts.
  ghost predicate FirstCounts(m: map<Uuid, Container>, list: seq<Container>) {
    forall i :: 0 <= i < |list| && (forall j :: 0 <= j < i ==> list[j].uuid != list[i].uuid) ==>
      list[i].uuid in m && m[list[i].uuid] == list[i]
  }

  lemma FirstCountsSnoc(m: map<Uuid, Container>, list: seq<Container>)
    requires list != [] && FirstCounts(m, list[..|list| - 1]) && m.Keys == UuidsOf(list[..|list| - 1])
    ensures var c := list[|list| - 1];
            FirstCounts(if c.uuid in m then m else m[c.uuid := c], list)
  {
    var init, c := list[..|list| - 1], list[|list| - 1];
    assert forall i :: 0 <= i < |init| ==> init[i] == list[i] && init[i].uuid in m;
    if c.uuid in m {
      var k :| k in init && k.uuid == c.uuid;
      var i :| 0 <= i < |init| && init[i] == k;
      assert list[i].uuid == c.uuid;
    }
  }

  lemma {:induction false} RecountTakesFirst(s: Tracker, list: seq<Container>)
    requires s.tracked == map[] && Recount(s, list).error.None?
    ensures Recount(s, list).state.tracked.Keys == UuidsOf(list) && FirstCounts(Recount(s, list).state.tracked, list)
  {
    if list == [] {
      NoUuids();
    } else {
      var before := Recount(s, list[..|list| - 1]);
      RecountTakesFirst(s, list[..|list| - 1]);
      UuidsOfSnoc(list);
      FirstCountsSnoc(before.state.tracked, list);
      hide UuidsOf, FirstCounts;
    }
  }

  // Counting from zero, whatever the list: an error aside, exactly its containers are tracked and
  // counted, and the free memory is what they leave.
  lemma {:induction false} RecountCounts(s: Tracker, list: seq<Container>)
    requires s.tracked == map[] && Counters(s.node) == NONE && s.node.memFree == s.node.memTotal
    ensures var r := Recount(s, list);
            && r.state.node.memTotal == s.node.memTotal
            && (r.error.None? ==>
                  && r.state.tracked.Keys == UuidsOf(list) && Counters(r.state.node) == Total(r.state.tracked)
                  && r.state.node.memFree == r.state.node.memTotal - Total(r.state.tracked).mem)
  {
    if list == [] {
      assert Total(s.tracked) == NONE;
      NoUuids();
    } else {
      var c, before := list[|list| - 1], Recount(s, list[..|list| - 1]);
      RecountCounts(s, list[..|list| - 1]);
      UuidsOfSnoc(list);
      hide UuidsOf, Total;
      if before.error.None? {
        CountersLaw(before.state.node, c, 1);
        if c.uuid !in before.state.tracked {
          ChargeBalanced(before.state, c);
        }
      }
    }
  }

  // The audit: recount, then clamp the free memory.
  function Audited(s: Tracker, base: seq<int>, list: seq<Container>): Tracker
    requires |base| == |s.node.numa|
  {
    var r := Recount(Reset(s, base), list).state;
    r.(node := Clamped(r.node))
  }

  // Whatever the counters and the pins are, the recount raises nothing, gives back the tracked
  // containers, counts them, and pins exactly their CPUs. Where the books were right it agrees with
  // them: the same counters if they were balanced, the same NUMA nodes if the pins were kept.
  lemma AuditAgrees(s: Tracker, base: seq<int>, list: seq<Container>)
    requires Placed(s) && |base| == |s.node.numa| && Lists(s.tracked, list)
    ensures var r := Recount(Reset(s, base), list);
            && r.error.None?
            && r.state.tracked == s.tracked
            && Balanced(r.state) && PinsKept(r.state, base)
            && (Balanced(s) ==> Counters(r.state.node) == Counters(s.node))
            && (PinsKept(s, base) ==> r.state.node.numa == s.node.numa)
  {
    RecountPrefix(s, base, list);
    var r := Recount(Reset(s, base), list).state;
    assert r.tracked == s.tracked by {
      assert forall u :: u in s.tracked ==> u in r.tracked;
    }
    hide Recount, Reset, PinsKept, Placed, Lists, NodeKept, Total;
    if PinsKept(s, base) {
      SameNuma(r, s, base);
    }
  }

  lemma SameNuma(r: Tracker, s: Tracker, base: seq<int>)
    requires PinsKept(s, base) && PartOf(r, s, base) && r.tracked == s.tracked
    ensures r.node.numa == s.node.numa
  {
    forall i | 0 <= i < |base| ensures r.node.numa[i] == s.node.numa[i] {
      assert NodeKept(s.tracked, s.node.numa[i], base[i]) && NodeKept(r.tracked, r.node.numa[i], base[i]);
      assert SameHardware(r.node.numa[i], s.node.numa[i]);
    }
    hide Total, OnNode, PinnedBy;
  }

  lemma AuditedAgrees(s: Tracker, base: seq<int>, list: seq<Container>)
    requires Placed(s) && |base| == |s.node.numa| && Lists(s.tracked, list)
    ensures var r := Audited(s, base, list);
            && r.tracked == s.tracked
            && Balanced(r) && PinsKept(r, base)
            && (Balanced(s) ==> Counters(r.node) == Counters(s.node))
            && (PinsKept(s, base) ==> r.node.numa == s.node.numa)
            && r.node.memTotal == s.node.memTotal
            && var used := Total(s.tracked).mem;
            && r.node.memFree == if used <= r.node.memTotal then r.node.memTotal - used else 0
  {
    AuditAgrees(s, base, list);
    RecountCounts(Reset(s, base), list);
    hide Recount, Reset, NodeKept, Total;
  }
}

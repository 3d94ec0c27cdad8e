/** Runs that reach the failing side of the conditions on aborts and on updates of dedicated
    containers. */
module TrackingCounterexamples {
  import opened Options
  import opened Claims
  import opened Tracking
  import opened TrackingProofs
  import opened TrackingPins
  import opened TrackingAudit
  import opened TrackingRuns

  /******* The abort of a dedicated claim *******/

  const LONE := NumaNode(0, {7}, {}, 100, 100)

  function LoneHost(node: NumaNode): Tracker {
    Tracker(ComputeNode(100, 100, 0, 0, 0, 0, [node]), map[])
  }

  const DEDICATED := Container("a", Some(10), Some(CPU_UNIT), None, true, {}, 0)
  const PINNED := DEDICATED.(cpus := {7})
  const SNAPSHOT := Some(NO_LIMITS.(cpuset := Some(Snapshot(LONE))))

  lemma PinningOnOneNode(n: NumaNode, after: NumaNode, c: Container)
    requires c.node == n.id && n.(memAvailable := n.memAvailable - c.Mem()).PinCpus(c.cpus) == Pinned(after)
    ensures UpdateNuma([n], c, 1) == ([after], None)
  {
    assert [n][0 := after] == [after];
    NumaLoopIdle([after], 1, c, 1);
  }

  lemma PinningTheLoneCpu()
    ensures var s := LoneHost(LONE);
            && FreshClaim(s, DEDICATED, SNAPSHOT, {7})
            && var r := ContainerClaim(s, DEDICATED, false, SNAPSHOT, {7});
            && r.Claimed? && r.step.error.None? && r.container == PINNED
            && r.step.state.tracked == map["a" := PINNED]
            && r.step.state.node.numa == [LONE.(pinnedCpus := {7}, memAvailable := 90)]
            && Counters(r.step.state.node) == UsageOf(DEDICATED)
  {
    var s := LoneHost(LONE);
    assert LONE.FreeCpus() == {7};
    assert |{7}| == 1 && |LONE.pinnedCpus| == 0;
    assert s.node.numa[0] == LONE;
    assert Choices(SNAPSHOT) == Some({7});
    assert {7} - LONE.cpuset == {} && LONE.pinnedCpus * {7} == {} && LONE.pinnedCpus + {7} == {7};
    assert LONE.(memAvailable := 90).PinCpus({7}) == Pinned(LONE.(pinnedCpus := {7}, memAvailable := 90));
    PinningOnOneNode(LONE, LONE.(pinnedCpus := {7}, memAvailable := 90), PINNED);
  }

  // The only CPU of the host stays pinned, nobody holds it, and the same container does not fit any
  // more.
  lemma AbortLeaksCpu()
    ensures var s := LoneHost(LONE);
            && FreshClaim(s, DEDICATED, SNAPSHOT, {7}) && PinsKept(s, [100])
            && var r := ContainerClaim(s, DEDICATED, false, SNAPSHOT, {7});
            && r.Claimed? && r.step.error.None?
            && var back := TrackContainer(r.step.state, DEDICATED, true).state;
            && back.tracked == map[] && back.node.numa == [LONE.(pinnedCpus := {7}, memAvailable := 90)]
            && !NumaFits(back.node.numa[0], DEDICATED)
            && !PinsKept(back, [100])
  {
    PinningTheLoneCpu();
    LoneHostIsKept();
    hide ContainerClaim, FreshClaim, PinsKept;
    var r := ContainerClaim(LoneHost(LONE), DEDICATED, false, SNAPSHOT, {7});
    NobodyHolds(TrackContainer(r.step.state, DEDICATED, true).state);
  }

  lemma LoneHostIsKept()
    ensures PinsKept(LoneHost(LONE), [100])
  {
    var s := LoneHost(LONE);
    assert Unpinned([LONE], [100]) == [LONE];
    EmptyBooks(s.node, [100]);
    hide PinsKept;
  }

  lemma NobodyHolds(s: Tracker)
    requires s.tracked == map[] && s.node.numa == [LONE.(pinnedCpus := {7}, memAvailable := 90)]
    ensures !NumaFits(s.node.numa[0], DEDICATED) && !PinsKept(s, [100])
  {
    assert |{7}| == 1;
    assert 7 in s.node.numa[0].pinnedCpus && 7 !in PinnedBy(s.tracked, 0);
    assert !NodeKept(s.tracked, s.node.numa[0], [100][0]);
  }

  /******* The abort of an update that shrank *******/

  const BIG := Container("a", Some(10), None, None, false, {}, 0)
  const SMALL := BIG.(memory := Some(4))
  const OTHER := Container("b", Some(6), None, None, false, {}, 0)
  const TEN := NO_LIMITS.(memory := Some(10))

  // A host without NUMA nodes that runs n containers.
  function PlainHost(mem: int, n: int, tracked: map<Uuid, Container>): Tracker {
    Tracker(ComputeNode(100, 100 - mem, mem, 0, 0, n, []), tracked)
  }

  // Shrink one container, give what it frees to another, abort the update.
  const SHRINK := [
    Claim(BIG, false, Some(TEN), {}), Update(SMALL, BIG, Some(TEN), {}), Claim(OTHER, false, Some(TEN), {}),
    AbortUpdate(SMALL, BIG)]

  const SHRINK_STATES := [
    PlainHost(0, 0, map[]), PlainHost(10, 1, map["a" := BIG]), PlainHost(4, 1, map["a" := SMALL]),
    PlainHost(10, 2, map["a" := SMALL, "b" := OTHER]), PlainHost(16, 2, map["a" := BIG, "b" := OTHER])]

  // Containers that use memory only.
  predicate Plain(c: Container) {
    c.memory.Some? && c.memory.value >= 0 && c.cpu.None? && c.disk.None? && !c.dedicated && c.cpus == {}
  }

  lemma PlainClaim(mem: int, n: int, tracked: map<Uuid, Container>, c: Container)
    requires Plain(c) && c.uuid !in tracked && 0 <= mem && mem + c.Mem() <= 10
    ensures var s, e := PlainHost(mem, n, tracked), Claim(c, false, Some(TEN), {});
            && Matching(s, e) && UnderLimits(s, e, TEN)
            && Apply(s, e) == PlainHost(mem + c.Mem(), n + 1, tracked[c.uuid := c])
  {
  }

  lemma PlainUpdate(mem: int, n: int, tracked: map<Uuid, Container>, new': Container, old': Container)
    requires Plain(new') && Plain(old') && new'.uuid == old'.uuid && new'.memory != old'.memory
    requires old'.uuid in tracked && tracked[old'.uuid] == old'
    ensures var s, e := PlainHost(mem, n, tracked), Update(new', old', Some(TEN), {});
            mem - old'.Mem() + new'.Mem() <= 10 ==>
              && Matching(s, e) && UnderLimits(s, e, TEN)
              && Apply(s, e) == PlainHost(mem - old'.Mem() + new'.Mem(), n, tracked[new'.uuid := new'])
    ensures var s, e := PlainHost(mem, n, tracked), AbortUpdate(old', new');
            && Matching(s, e)
            && Apply(s, e) == PlainHost(mem - old'.Mem() + new'.Mem(), n, tracked[new'.uuid := new'])
  {
  }

  // Every step but the last is tested against the limit of 10, and the run ends at 16.
  lemma AbortExceedsLimit()
    ensures IsRun(SHRINK_STATES, SHRINK)
    ensures forall i :: 0 <= i < 3 ==> UnderLimits(SHRINK_STATES[i], SHRINK[i], TEN)
    ensures forall i :: 0 <= i < 4 ==> Within(SHRINK_STATES[i].node, TEN)
    ensures !Within(SHRINK_STATES[4].node, TEN)
  {
    hide Matching, Apply, UnderLimits;
    PlainClaim(0, 0, map[], BIG);
    PlainUpdate(10, 1, map["a" := BIG], SMALL, BIG);
    PlainClaim(4, 1, map["a" := SMALL], OTHER);
    PlainUpdate(10, 2, map["a" := SMALL, "b" := OTHER], BIG, SMALL);
    assert map[]["a" := BIG] == map["a" := BIG] && map["a" := BIG]["a" := SMALL] == map["a" := SMALL];
    assert map["a" := SMALL]["b" := OTHER] == map["a" := SMALL, "b" := OTHER];
    assert map["a" := SMALL, "b" := OTHER]["a" := BIG] == map["a" := BIG, "b" := OTHER];
  }

  /******* The update of a dedicated container *******/

  const QUAD := NumaNode(0, {0, 1, 2, 3}, {}, 100, 100)
  const QUAD_USED := QUAD.(pinnedCpus := {0, 1}, memAvailable := 90)
  const TWO := Container("a", Some(10), Some(2 * CPU_UNIT), None, true, {}, 0)
  const TWO_PINNED := TWO.(cpus := {0, 1})

  function On(n: NumaNode): Option<Limits> {
    Some(NO_LIMITS.(cpuset := Some(Snapshot(n))))
  }

  const QUAD_HOST := Tracker(ComputeNode(100, 100, 0, 0, 0, 0, [QUAD]), map[])
  const QUAD_HOST_USED := Tracker(ComputeNode(100, 90, 10, 2 * CPU_UNIT, 0, 1, [QUAD_USED]), map["a" := TWO_PINNED])

  lemma QuadChoices()
    ensures Choices(On(QUAD)) == Some({0, 1, 2, 3}) && Choices(On(QUAD_USED)) == Some({2, 3})
    ensures |{0, 1, 2, 3}| == 4 && |{0, 1}| == 2 && |{2, 3}| == 2
    ensures CurrentSnapshot(QUAD_HOST.node, On(QUAD)) && CurrentSnapshot(QUAD_HOST_USED.node, On(QUAD_USED))
  {
    assert QUAD.FreeCpus() == {0, 1, 2, 3} && QUAD_USED.FreeCpus() == {2, 3};
    assert QUAD_HOST.node.numa[0] == QUAD && QUAD_HOST_USED.node.numa[0] == QUAD_USED;
    assert |{0, 1}| == 2 && |{0, 1, 2}| == 3 && |{0, 1, 2, 3}| == 4;
  }

  lemma PinningTwo()
    ensures TrackContainer(QUAD_HOST, TWO_PINNED, false) == Step(QUAD_HOST_USED, None)
  {
    var n := QUAD.(memAvailable := 90);
    assert {0, 1} - n.cpuset == {} && n.pinnedCpus * {0, 1} == {} && n.pinnedCpus + {0, 1} == {0, 1};
    assert n.PinCpus({0, 1}) == Pinned(QUAD_USED);
    PinningOnOneNode(QUAD, QUAD_USED, TWO_PINNED);
  }

  lemma ClaimOfTwo()
    ensures FreshClaim(QUAD_HOST, TWO, On(QUAD), {0, 1})
    ensures Apply(QUAD_HOST, Claim(TWO, false, On(QUAD), {0, 1})) == QUAD_HOST_USED
  {
    QuadChoices();
    PinningTwo();
    hide TrackContainer, CurrentSnapshot;
  }

  lemma UpdateOfTwo(cpu: int, pick: set<nat>)
    requires (cpu == 3 * CPU_UNIT && pick == {2}) || (cpu == 1500 && pick == {})
    ensures var new' := TWO_PINNED.(cpu := Some(cpu));
            && Matching(QUAD_HOST_USED, Update(new', TWO_PINNED, On(QUAD_USED), pick))
            && var r := ContainerUpdateClaim(QUAD_HOST_USED, new', TWO_PINNED, On(QUAD_USED), pick);
            && r.Claimed? && r.container.cpus == pick
  {
    QuadChoices();
    hide TrackUpdate, CurrentSnapshot;
  }

  // A container claims two CPUs. An update to 3 leaves it one, an update to 1.5 none.
  lemma UpdateLosesCpus()
    ensures var s := Apply(QUAD_HOST, Claim(TWO, false, On(QUAD), {0, 1}));
            && Matching(QUAD_HOST, Claim(TWO, false, On(QUAD), {0, 1})) && s.tracked == map["a" := TWO_PINNED]
            && var more, less := TWO_PINNED.(cpu := Some(3 * CPU_UNIT)), TWO_PINNED.(cpu := Some(1500));
            && Matching(s, Update(more, TWO_PINNED, On(QUAD_USED), {2}))
            && Matching(s, Update(less, TWO_PINNED, On(QUAD_USED), {}))
            && var r, r' := ContainerUpdateClaim(s, more, TWO_PINNED, On(QUAD_USED), {2}),
                            ContainerUpdateClaim(s, less, TWO_PINNED, On(QUAD_USED), {});
            && r.Claimed? && |r.container.cpus| == 1
            && r'.Claimed? && r'.container.cpus == {}
  {
    ClaimOfTwo();
    UpdateOfTwo(3 * CPU_UNIT, {2});
    UpdateOfTwo(1500, {});
    hide ContainerUpdateClaim, Apply, FreshClaim;
  }

  /******* The abort of a dedicated update *******/

  const HALF := Container("a", Some(10), Some(500), None, true, {}, 0)
  const MORE := HALF.(cpu := Some(2500))
  const HALF_HOST := Tracker(ComputeNode(100, 90, 10, 500, 0, 1, [QUAD]), map["a" := HALF])
  const MORE_HOST := Tracker(ComputeNode(100, 90, 10, 2500, 0, 1, [QUAD_USED]), map["a" := MORE.(cpus := {0, 1})])

  lemma ClaimOfHalf()
    ensures FreshClaim(QUAD_HOST, HALF, On(QUAD), {})
    ensures Apply(QUAD_HOST, Claim(HALF, false, On(QUAD), {})) == HALF_HOST
    ensures CurrentSnapshot(HALF_HOST.node, On(QUAD))
  {
    QuadChoices();
    assert HALF_HOST.node.numa == QUAD_HOST.node.numa;
  }

  lemma PinningMore()
    ensures TrackUpdate(HALF_HOST, MORE.(cpus := {0, 1}), HALF) == Step(MORE_HOST, None)
  {
    var n := QUAD.(memAvailable := 90);
    assert {0, 1} - n.cpuset == {} && n.pinnedCpus * {0, 1} == {} && n.pinnedCpus + {0, 1} == {0, 1};
    assert n.PinCpus({0, 1}) == Pinned(QUAD_USED);
    PinningOnOneNode(QUAD, QUAD_USED, MORE.(cpus := {0, 1}));
    assert map["a" := HALF]["a" := MORE.(cpus := {0, 1})] == map["a" := MORE.(cpus := {0, 1})];
    hide UpdateNuma;
  }

  lemma UpdateOfHalf()
    ensures Matching(HALF_HOST, Update(MORE, HALF, On(QUAD), {0, 1}))
    ensures Apply(HALF_HOST, Update(MORE, HALF, On(QUAD), {0, 1})) == MORE_HOST
  {
    QuadChoices();
    ClaimOfHalf();
    PinningMore();
    hide TrackUpdate, CurrentSnapshot, FreshClaim;
  }

  // A container claims half a CPU, an update to 2.5 pins two CPUs and is aborted: nothing raises,
  // the container is back as recorded, without CPUs, and the two stay pinned.
  lemma AbortOfUpdateLeaks()
    ensures var end := HALF_HOST.(node := HALF_HOST.node.(numa := [QUAD_USED]));
            IsRun([QUAD_HOST, HALF_HOST, MORE_HOST, end],
                  [Claim(HALF, false, On(QUAD), {}), Update(MORE, HALF, On(QUAD), {0, 1}), AbortUpdate(MORE, HALF)])
  {
    ClaimOfHalf();
    UpdateOfHalf();
    var back := HALF_HOST.(node := HALF_HOST.node.(numa := [QUAD_USED]));
    assert Apply(MORE_HOST, AbortUpdate(MORE, HALF)) == back by {
      assert map["a" := MORE.(cpus := {0, 1})]["a" := HALF] == map["a" := HALF];
    }
    assert Matching(MORE_HOST, AbortUpdate(MORE, HALF));
    hide FreshClaim, CurrentSnapshot, Apply;
  }
}

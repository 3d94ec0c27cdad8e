/** A run in which a removed virtual function keeps its physical function blocked. */
module PciCounterexamples {
  import opened Options
  import opened PciStates
  import opened PciProofs

  // Physical function 0 with virtual functions 1 and 2.
  const CARD := Topology(
    map[0 := SRIOV_PF, 1 := SRIOV_VF, 2 := SRIOV_VF],
    map[0 := None, 1 := Some(0), 2 := Some(0)],
    map[0 := [1, 2], 1 := [], 2 := []])

  const FREE := Device(AVAILABLE, None, None)
  const GONE := Device(REMOVED, None, None)

  function CardState(pf: Status, vf1: Device, vf2: Device): (s: State)
    ensures s.devices.Keys == CARD.devType.Keys
  {
    State(map[0 := FREE.(status := pf), 1 := vf1, 2 := vf2], map[])
  }

  lemma CardIsValid()
    ensures CARD.Valid()
    ensures forall v, p :: CARD.IsChild(v, p) <==> p == 0 && v in {1, 2}
  {
  }

  lemma {:induction false} RunSnoc(t: Topology, s: State, ops: seq<Op>, op: Op)
    requires Fits(t, s)
    ensures var before := Run(t, s, ops);
            Run(t, s, ops + [op]) == if Enabled(before, op) then Step(t, before, op) else before
  {
    assert (ops + [op])[..|ops|] == ops;
  }

  lemma AfterRemove()
    ensures Fresh(CARD, CardState(AVAILABLE, FREE, FREE))
    ensures Run(CARD, CardState(AVAILABLE, FREE, FREE), [DoRemove(1)]) == CardState(AVAILABLE, GONE, FREE)
  {
    CardIsValid();
    var s := CardState(AVAILABLE, FREE, FREE);
    RunSnoc(CARD, s, [], DoRemove(1));
    assert [] + [DoRemove(1)] == [DoRemove(1)];
    assert Remove(s, 1).state.devices == CardState(AVAILABLE, GONE, FREE).devices;
  }

  lemma ClaimSecond()
    ensures Fits(CARD, CardState(AVAILABLE, GONE, FREE))
    ensures Step(CARD, CardState(AVAILABLE, GONE, FREE), DoClaim(2, "c"))
         == CardState(UNCLAIMABLE, GONE, Device(CLAIMED, Some("c"), None))
  {
    CardIsValid();
    var s, s' := CardState(AVAILABLE, GONE, FREE), CardState(UNCLAIMABLE, GONE, Device(CLAIMED, Some("c"), None));
    assert Claim(CARD, s, 2, "c").Done?;
    assert Claim(CARD, s, 2, "c").state.devices == s'.devices;
  }

  lemma FreeSecond()
    ensures Fits(CARD, CardState(UNCLAIMABLE, GONE, Device(CLAIMED, Some("c"), None)))
    ensures Step(CARD, CardState(UNCLAIMABLE, GONE, Device(CLAIMED, Some("c"), None)), DoFree(2, None))
         == CardState(UNCLAIMABLE, GONE, FREE)
  {
    CardIsValid();
    var s, s' := CardState(UNCLAIMABLE, GONE, Device(CLAIMED, Some("c"), None)), CardState(UNCLAIMABLE, GONE, FREE);
    assert CARD.IsChild(2, 0) && CARD.IsChild(1, 0) && s.devices[1].status != AVAILABLE;
    assert !SiblingsAvailable(CARD, s, 2);
    assert Free(CARD, s, 2, None).state.devices == s'.devices;
  }

  const FRESH := CardState(AVAILABLE, FREE, FREE)
  const BLOCKED := CardState(UNCLAIMABLE, GONE, FREE)

  lemma AfterClaimAndFree()
    ensures Fits(CARD, FRESH)
    ensures Run(CARD, FRESH, [DoRemove(1), DoClaim(2, "c"), DoFree(2, None)]) == BLOCKED
  {
    var remove, claim, free := DoRemove(1), DoClaim(2, "c"), DoFree(2, None);
    AfterRemove();
    ClaimSecond();
    FreeSecond();
    hide Step, Run, Fresh;
    assert [remove] + [claim] == [remove, claim] && [remove, claim] + [free] == [remove, claim, free];
    RunSnoc(CARD, FRESH, [remove], claim);
    RunSnoc(CARD, FRESH, [remove, claim], free);
  }

  // The failing side of `FreeFreesParentIff` and `ClaimThenFree` is reached from a fresh tree: after
  // one removal the physical function is available, and a claim and a free later it is blocked, with
  // nothing in use; by `BlockedForGood`, for ever.
  lemma RemovalBlocksParent()
    ensures Fresh(CARD, FRESH)
    ensures Run(CARD, FRESH, [DoRemove(1)]).devices[0].status == AVAILABLE
    ensures var r := Run(CARD, FRESH, [DoRemove(1), DoClaim(2, "c"), DoFree(2, None)]);
            r.devices[0].status == UNCLAIMABLE && forall d :: d in r.devices ==> !Busy(r.devices[d])
  {
    AfterRemove();
    AfterClaimAndFree();
    hide Run, Fresh;
  }
}

/** When the bulk routine can succeed at all: some order of picks succeeds exactly when no entries
    wait for each other in a circle. */
module ProviderSchedule {
  import opened Options
  import opened ProviderForest
  import opened ProviderForestProofs
  import opened ProviderSteps
  import opened ProviderPopulate
  import opened ProviderOutcome
  import opened ProviderOrder

  // Some order of the remaining picks places every entry.
  ghost predicate CanSucceed(input: map<Id, Provider>, left: set<Id>, f: Forest)
    requires left <= input.Keys
    decreases left
  {
    left == {} || exists u :: Pickable(input, left, u) && SucceedsFrom(input, left, f, u)
  }

  ghost predicate SucceedsFrom(input: map<Id, Provider>, left: set<Id>, f: Forest, u: Id)
    requires left <= input.Keys && Pickable(input, left, u)
    decreases left, 0
  {
    var next := AddOrReplace(f, input[u]);
    next.Some? && CanSucceed(input, left - {u}, next.value)
  }

  // The entry x hangs on one whose stated parent goes when y is placed.
  ghost predicate LosesTo(f0: Forest, input: map<Id, Provider>, x: Id, y: Id) {
    exists v :: Hangs(input, x, v) && Doomed(f0, input, v, y)
  }

  // The entry y can be placed only after x.
  ghost predicate Waits(f0: Forest, input: map<Id, Provider>, y: Id, x: Id) {
    x in input && y in input && (input[y].parent == Some(x) || LosesTo(f0, input, x, y))
  }

  ghost predicate IsDeadlock(f0: Forest, input: map<Id, Provider>, c: seq<Id>) {
    && c != []
    && forall i :: 0 <= i < |c| ==> Waits(f0, input, c[i], c[if i + 1 == |c| then 0 else i + 1])
  }

  ghost predicate HasDeadlock(f0: Forest, input: map<Id, Provider>) {
    exists c :: IsDeadlock(f0, input, c)
  }

  /******* A deadlock fails every order *******/

  // With y placed before x, no order of the rest succeeds.
  lemma {:induction false} TooLate(f0: Forest, input: map<Id, Provider>, left: set<Id>, f: Forest, y: Id, x: Id)
    requires Between(f0, input, left, f) && Waits(f0, input, y, x) && x in left && y !in left
    ensures !CanSucceed(input, left, f)
    decreases left
  {
    assert StrayAt(f0, input, left, f, y);
    var v :| Hangs(input, x, v) && Doomed(f0, input, v, y);
    forall u | Pickable(input, left, u) ensures !SucceedsFrom(input, left, f, u) {
      if u == x {
        LateRaises(f0, input, left, f, x, v, y);
      } else if AddOrReplace(f, input[u]).Some? {
        NextBetween(f0, input, left, f, u);
        TooLate(f0, input, left - {u}, AddOrReplace(f, input[u]).value, y, x);
      }
    }
  }

  // Nor does any order that starts with y.
  lemma TooEarly(f0: Forest, input: map<Id, Provider>, left: set<Id>, f: Forest, y: Id, x: Id)
    requires Between(f0, input, left, f) && Waits(f0, input, y, x) && x in left && Pickable(input, left, y)
    ensures !SucceedsFrom(input, left, f, y)
  {
    var v :| Hangs(input, x, v) && Doomed(f0, input, v, y);
    if x == y {
      LateRaises(f0, input, left, f, x, v, y);
    } else if AddOrReplace(f, input[y]).Some? {
      NextBetween(f0, input, left, f, y);
      TooLate(f0, input, left - {y}, AddOrReplace(f, input[y]).value, y, x);
    }
  }

  lemma {:induction false} DeadlockFails(
    f0: Forest, input: map<Id, Provider>, left: set<Id>, f: Forest, c: seq<Id>)
    requires Between(f0, input, left, f) && IsDeadlock(f0, input, c) && forall i :: 0 <= i < |c| ==> c[i] in left
    ensures !CanSucceed(input, left, f)
    decreases left
  {
    hide Waits;
    assert c[0] in left;
    forall u | Pickable(input, left, u) ensures !SucceedsFrom(input, left, f, u) {
      if i :| 0 <= i < |c| && c[i] == u {
        TooEarly(f0, input, left, f, u, c[if i + 1 == |c| then 0 else i + 1]);
      } else if AddOrReplace(f, input[u]).Some? {
        NextBetween(f0, input, left, f, u);
        DeadlockFails(f0, input, left - {u}, AddOrReplace(f, input[u]).value, c);
      }
    }
  }

  /******* Without a deadlock some order succeeds *******/

  // What the remaining entries hang on is there.
  ghost predicate Supports(input: map<Id, Provider>, left: set<Id>, f: Forest, x: Id, k: Id) {
    x in left && Hangs(input, x, k) && k in input ==>
      && (k !in left ==> k in Ids(f))
      && (input[k].parent.Some? && input[k].parent.value !in input ==> input[k].parent.value in Ids(f))
  }

  ghost predicate Supported(input: map<Id, Provider>, left: set<Id>, f: Forest) {
    forall x, k :: Supports(input, left, f, x, k)
  }

  lemma HangsFar(input: map<Id, Provider>, x: Id, k: Id, v: Id)
    requires Hangs(input, x, k) && Hangs(input, k, v)
    ensures Hangs(input, x, v)
  {
    var a, b :| Chain(input, a, x, k) && Chain(input, b, k, v);
    var all := a + b[1..];
    forall i | 0 <= i < |all| ensures all[i] in input {
      assert i >= |a| ==> all[i] == b[i - |a| + 1];
    }
    forall i | 0 <= i < |all| - 1 ensures input[all[i]].parent == Some(all[i + 1]) {
      if i >= |a| - 1 {
        assert all[i] == b[i - |a| + 1] && all[i + 1] == b[i - |a| + 2];
      }
    }
    assert Chain(input, all, x, v);
  }

  // What the round for u deletes: unplaced providers below u in the old forest, and placed entries
  // that hang on an entry below one of them.
  lemma Deleted(f0: Forest, input: map<Id, Provider>, left: set<Id>, f: Forest, u: Id, k: Id)
    requires Between(f0, input, left, f) && u in left && u in Ids(f) && k in SubtreeIds(f, u)
    ensures k in Ids(f) && u in Ids(f0)
    ensures if k in input && k !in left then LosesTo(f0, input, k, u) else k in SubtreeIds(f0, u)
  {
    assert OldAt(f0, input, left, f, u);
    var lost := set j | j in Ids(f) &&
                        if j in input && j !in left then LosesTo(f0, input, j, u) else j in SubtreeIds(f0, u);
    forall j | j in Ids(f) && j !in lost
      ensures Get(f, j).node.parent.None? || Get(f, j).node.parent.value !in lost
    {
      if Get(f, j).node.parent.Some? && Get(f, j).node.parent.value in lost {
        LostBelow(f0, input, left, f, u, j);
      }
    }
    assert UpwardClosed(f, lost);
    SubtreeIsLeft(f, u, lost);
  }

  lemma LostBelow(f0: Forest, input: map<Id, Provider>, left: set<Id>, f: Forest, u: Id, j: Id)
    requires Between(f0, input, left, f) && u in left && u in Ids(f0) && j in Ids(f)
    requires var up := Get(f, j).node.parent;
             && up.Some?
             && if up.value in input && up.value !in left then LosesTo(f0, input, up.value, u)
                else up.value in SubtreeIds(f0, u)
    ensures if j in input && j !in left then LosesTo(f0, input, j, u) else j in SubtreeIds(f0, u)
  {
    var up := Get(f, j).node.parent.value;
    assert StrayAt(f0, input, left, f, j) && OldAt(f0, input, left, f, j);
    if j in input && j !in left {
      if up in input {
        var v :| Hangs(input, up, v) && Doomed(f0, input, v, u);
        HangsToo(input, j, v);
      } else {
        assert Chain(input, [j], j, j);
        assert Doomed(f0, input, j, u);
      }
    } else {
      ParentIsAbove(f0, None, j);
      BelowIsBelow(f0, u, up, j);
    }
  }

  // An entry that waits for none of the remaining ones.
  ghost predicate Free(f0: Forest, input: map<Id, Provider>, left: set<Id>, u: Id) {
    u in left && forall x :: x in left ==> !Waits(f0, input, u, x)
  }

  lemma FindFree(f0: Forest, input: map<Id, Provider>, left: set<Id>) returns (u: Id)
    requires left <= input.Keys && left != {} && !HasDeadlock(f0, input)
    ensures Free(f0, input, left, u)
  {
    hide Waits;
    if forall y :: y in left ==> !Free(f0, input, left, y) {
      AllWait(f0, input, left);
    }
    u :| u in left && Free(f0, input, left, u);
  }

  lemma AllWait(f0: Forest, input: map<Id, Provider>, left: set<Id>)
    requires left <= input.Keys && left != {} && forall y :: y in left ==> !Free(f0, input, left, y)
    ensures HasDeadlock(f0, input)
  {
    hide Free, Waits;
    var waits := map y | y in left :: input[y].(parent := Some(Awaited(f0, input, left, y)));
    StuckHasCycle(waits, left);
    var c :| IsCycle(waits, c);
    forall i | 0 <= i < |c| ensures Waits(f0, input, c[i], c[if i + 1 == |c| then 0 else i + 1]) {
      assert waits[c[i]].parent == Some(Awaited(f0, input, left, c[i]));
    }
    assert IsDeadlock(f0, input, c);
  }

  ghost function Awaited(f0: Forest, input: map<Id, Provider>, left: set<Id>, y: Id): (x: Id)
    requires y in left && !Free(f0, input, left, y)
    ensures x in left && Waits(f0, input, y, x)
  {
    var x :| x in left && Waits(f0, input, y, x); x
  }

  // The round for a free entry deletes nothing that a remaining one hangs on.
  lemma FreeSpares(f0: Forest, input: map<Id, Provider>, left: set<Id>, f: Forest, u: Id, x: Id, k: Id)
    requires Between(f0, input, left, f) && Supported(input, left, f) && Free(f0, input, left, u)
    requires x in left && Hangs(input, x, k) && k in input
    ensures u in Ids(f) && k !in left ==> k !in SubtreeIds(f, u)
    ensures var up := input[k].parent;
            up.Some? && up.value !in input && u in Ids(f) ==> up.value !in SubtreeIds(f, u)
  {
    assert !Waits(f0, input, u, x);
    if u in Ids(f) && k !in left && k in SubtreeIds(f, u) {
      Deleted(f0, input, left, f, u, k);
      var v :| Hangs(input, k, v) && Doomed(f0, input, v, u);
      HangsFar(input, x, k, v);
    }
    var up := input[k].parent;
    if up.Some? && up.value !in input && u in Ids(f) && up.value in SubtreeIds(f, u) {
      Deleted(f0, input, left, f, u, up.value);
      assert Doomed(f0, input, k, u);
    }
  }

  // The round for a free entry succeeds, and what the others hang on stays.
  lemma FreeRound(f0: Forest, input: map<Id, Provider>, left: set<Id>, f: Forest, u: Id)
    requires Between(f0, input, left, f) && Supported(input, left, f) && Free(f0, input, left, u)
    ensures Pickable(input, left, u) && AddOrReplace(f, input[u]).Some?
    ensures Supported(input, left - {u}, AddOrReplace(f, input[u]).value)
  {
    var up := input[u].parent;
    if up.Some? && up.value in left {
      assert Waits(f0, input, u, up.value);
    }
    assert Chain(input, [u], u, u);
    var g := RoundRaisesIff(f0, input, left, f, u);
    assert Supports(input, left, f, u, u);
    FreeSpares(f0, input, left, f, u, u, u);
    if up.Some? && up.value in input {
      assert Chain(input, [u, up.value], u, up.value);
      assert Supports(input, left, f, u, up.value);
      FreeSpares(f0, input, left, f, u, u, up.value);
    }
    var h := AddOrReplace(f, input[u]).value;
    forall x, k ensures Supports(input, left - {u}, h, x, k) {
      assert Supports(input, left, f, x, k);
      assert forall j :: j in Ids(h) <==> j in Table(h);
      assert forall j :: j in Ids(g) <==> j in Table(g);
      if x in left && Hangs(input, x, k) && k in input {
        FreeSpares(f0, input, left, f, u, x, k);
      }
    }
  }

  lemma {:induction false} FreeOrderSucceeds(f0: Forest, input: map<Id, Provider>, left: set<Id>, f: Forest)
    requires Between(f0, input, left, f) && Supported(input, left, f) && !HasDeadlock(f0, input)
    ensures CanSucceed(input, left, f)
    decreases left
  {
    hide Supported, HasDeadlock;
    if left != {} {
      var u := FindFree(f0, input, left);
      FreeRound(f0, input, left, f, u);
      NextBetween(f0, input, left, f, u);
      FreeOrderSucceeds(f0, input, left - {u}, AddOrReplace(f, input[u]).value);
      assert SucceedsFrom(input, left, f, u);
    }
  }

  /******* The condition *******/

  lemma StartSupported(f0: Forest, input: map<Id, Provider>)
    requires !HasOrphan(f0, input)
    ensures Supported(input, input.Keys, f0)
  {
    forall k | k in input ensures ParentKnown(f0, input, input[k]) {}
  }

  // For every input without orphans: some order of picks succeeds exactly when no entries wait for
  // each other in a circle, an entry waiting for its stated parent and for all that hangs below
  // what it is going to delete.
  lemma CanSucceedIff(f0: Forest, input: map<Id, Provider>)
    requires Names(f0, input) && !HasOrphan(f0, input)
    ensures CanSucceed(input, input.Keys, f0) <==> !HasDeadlock(f0, input)
  {
    StartBetween(f0, input);
    if HasDeadlock(f0, input) {
      var c :| IsDeadlock(f0, input, c);
      forall i | 0 <= i < |c| ensures c[i] in input {
        assert Waits(f0, input, c[i], c[if i + 1 == |c| then 0 else i + 1]);
      }
      DeadlockFails(f0, input, input.Keys, f0, c);
    } else {
      StartSupported(f0, input);
      FreeOrderSucceeds(f0, input, input.Keys, f0);
    }
  }
}

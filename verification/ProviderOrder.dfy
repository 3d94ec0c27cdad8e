/** The order in which the bulk routine picks entries: every order succeeds exactly when every entry
    is grounded. */
module ProviderOrder {
  import opened Options
  import opened ProviderForest
  import opened ProviderForestProofs
  import opened ProviderSteps
  import opened ProviderPopulate
  import opened ProviderOutcome

  // An entry that may be picked while `left` is still to be placed.
  ghost predicate Pickable(input: map<Id, Provider>, left: set<Id>, u: Id)
    requires left <= input.Keys
  {
    u in left && (input[u].parent.Some? ==> input[u].parent.value !in left)
  }

  // Some order of the remaining picks ends in an error.
  ghost predicate CanFail(input: map<Id, Provider>, left: set<Id>, f: Forest)
    requires left <= input.Keys
    decreases left
  {
    || (left != {} && forall u :: u in left ==> !Pickable(input, left, u))
    || exists u :: Pickable(input, left, u) && FailsFrom(input, left, f, u)
  }

  // The round for u raises, or some continuation does.
  ghost predicate FailsFrom(input: map<Id, Provider>, left: set<Id>, f: Forest, u: Id)
    requires left <= input.Keys && Pickable(input, left, u)
    decreases left, 0
  {
    var next := AddOrReplace(f, input[u]);
    next.None? || CanFail(input, left - {u}, next.value)
  }

  // A provider that no round has placed has its old record, and so has its parent.
  ghost predicate OldAt(f0: Forest, input: map<Id, Provider>, left: set<Id>, f: Forest, k: Id) {
    k in Ids(f) && (k in input ==> k in left) ==>
      && k in Ids(f0) && Get(f, k).node == Get(f0, k).node
      && var up := Get(f, k).node.parent;
      && (up.Some? && up.value in input ==> up.value in left)
  }

  // What holds between two rounds of every order.
  ghost predicate Between(f0: Forest, input: map<Id, Provider>, left: set<Id>, f: Forest) {
    && Names(f0, input) && !HasOrphan(f0, input)
    && Sane(f0, input, f) && Strays(f0, input, left, f) && left <= input.Keys
    && forall k :: OldAt(f0, input, left, f, k)
  }

  lemma StartBetween(f0: Forest, input: map<Id, Provider>)
    requires Names(f0, input) && !HasOrphan(f0, input)
    ensures Between(f0, input, input.Keys, f0)
  {
    StartOfStrays(f0, input);
  }

  ghost predicate PartOf(g: Forest, f: Forest) {
    WellFormed(g, None) && forall k :: k in Ids(g) ==> k in Ids(f) && Get(g, k).node == Get(f, k).node
  }

  // The round for u first deletes the subtree of u, and then raises exactly when the stated parent
  // is gone.
  lemma RoundRaisesIff(f0: Forest, input: map<Id, Provider>, left: set<Id>, f: Forest, u: Id) returns (g: Forest)
    requires Between(f0, input, left, f) && Pickable(input, left, u)
    ensures PartOf(g, f) && u !in Ids(g)
    ensures forall k :: k in Ids(f) && !(u in Ids(f) && k in SubtreeIds(f, u)) ==> k in Ids(g)
    ensures var next := AddOrReplace(f, input[u]);
            && (next.None? <==> input[u].parent.Some? && input[u].parent.value !in Ids(g))
            && (next.Some? ==> Table(next.value) == Table(g)[u := input[u]])
  {
    g := RemoveUuid(f0, input, f, u);
    assert u !in Table(g);
    assert ParentKnown(f0, input, input[u]);
    AttachUuid(f0, input, g, u);
    forall k
      ensures k in Ids(g) ==> k in Ids(f) && Get(g, k).node == Get(f, k).node
      ensures k in Ids(f) && !(u in Ids(f) && k in SubtreeIds(f, u)) ==> k in Ids(g)
    {
      assert k in Ids(g) <==> k in Table(g);
      assert k in Ids(f) <==> k in Table(f);
      assert k in Table(g) ==> Table(g)[k] == Table(f)[k];
    }
  }

  lemma NextBetween(f0: Forest, input: map<Id, Provider>, left: set<Id>, f: Forest, u: Id)
    requires Between(f0, input, left, f) && Pickable(input, left, u) && AddOrReplace(f, input[u]).Some?
    ensures Between(f0, input, left - {u}, AddOrReplace(f, input[u]).value)
  {
    assert ParentKnown(f0, input, input[u]);
    RoundKeepsSane(f0, input, f, u);
    RoundKeepsStrays(f0, input, left, f, u);
    var g := RoundRaisesIff(f0, input, left, f, u);
    var h := AddOrReplace(f, input[u]).value;
    hide Strays, Names, Sane, HasOrphan;
    forall k ensures OldAt(f0, input, left - {u}, h, k) {
      assert OldAt(f0, input, left, f, k);
      assert k in Ids(h) <==> k in Table(h);
      assert k in Ids(g) <==> k in Table(g);
      if k in Ids(h) && k != u {
        assert Get(h, k).node == Table(h)[k] == Table(g)[k] == Get(g, k).node;
        TopIffParent(g, None, k);
      }
    }
  }

  /******* With every entry grounded no order fails *******/

  lemma {:induction false} GroundedNeverFails(f0: Forest, input: map<Id, Provider>, left: set<Id>, f: Forest)
    requires Between(f0, input, left, f) && AllGrounded(f0, input)
    ensures !CanFail(input, left, f)
    decreases left
  {
    hide Strays, Names, Sane;
    AllGroundedHasNoCycle(f0, input);
    if left != {} && forall u :: u in left ==> !Pickable(input, left, u) {
      StuckHasCycle(input, left);
    }
    forall u | Pickable(input, left, u) ensures !FailsFrom(input, left, f, u) {
      assert ParentKnown(f0, input, input[u]) && Grounded(f0, input, u);
      RoundKeepsStrays(f0, input, left, f, u);
      NextBetween(f0, input, left, f, u);
      hide Grounded;
      GroundedNeverFails(f0, input, left - {u}, AddOrReplace(f, input[u]).value);
    }
  }

  /******* A cycle fails every order *******/

  lemma {:induction false} CycleFails(input: map<Id, Provider>, c: seq<Id>, left: set<Id>, f: Forest)
    requires IsCycle(input, c) && left <= input.Keys && forall i :: 0 <= i < |c| ==> c[i] in left
    ensures CanFail(input, left, f)
    decreases left
  {
    assert c[0] in left;
    if u :| Pickable(input, left, u) {
      CycleStaysLeft(input, c, left, u);
      if AddOrReplace(f, input[u]).Some? {
        CycleFails(input, c, left - {u}, AddOrReplace(f, input[u]).value);
      }
      assert FailsFrom(input, left, f, u);
    }
  }

  /******* An entry below a provider that does not survive *******/

  // While p is there, unplaced, so are its ancestors in the old forest.
  lemma OldAbove(f0: Forest, input: map<Id, Provider>, left: set<Id>, f: Forest, g: Forest, p: Id, a: Id)
    requires Between(f0, input, left, f) && PartOf(g, f) && p in Ids(g) && p !in input
    requires a in Ids(f0) && p in SubtreeIds(f0, a)
    ensures a in Ids(g) && (a in input ==> a in left)
  {
    var placed := set k | k in Ids(f0) && (k !in Ids(g) || (k in input && k !in left));
    forall k | k in Ids(f0) && k !in placed
      ensures Get(f0, k).node.parent.None? || Get(f0, k).node.parent.value !in placed
    {
      assert OldAt(f0, input, left, f, k);
      TopIffParent(g, None, k);
    }
    assert UpwardClosed(f0, placed);
    if a in placed {
      SubtreeIsLeft(f0, a, placed);
    }
  }

  // Entries, each the stated child of the next, from k to v.
  ghost predicate Chain(input: map<Id, Provider>, path: seq<Id>, k: Id, v: Id) {
    && path != [] && path[0] == k && path[|path| - 1] == v
    && (forall i :: 0 <= i < |path| ==> path[i] in input)
    && forall i :: 0 <= i < |path| - 1 ==> input[path[i]].parent == Some(path[i + 1])
  }

  ghost predicate Hangs(input: map<Id, Provider>, k: Id, v: Id) {
    exists path :: Chain(input, path, k, v)
  }

  lemma HangsToo(input: map<Id, Provider>, k: Id, v: Id)
    requires k in input && input[k].parent.Some? && Hangs(input, input[k].parent.value, v)
    ensures Hangs(input, k, v)
  {
    var path :| Chain(input, path, input[k].parent.value, v);
    var longer := [k] + path;
    forall i | 0 <= i < |longer| - 1 ensures input[longer[i]].parent == Some(longer[i + 1]) {
      assert i > 0 ==> longer[i] == path[i - 1];
      assert longer[i + 1] == path[i];
    }
    assert longer[|longer| - 1] == path[|path| - 1];
    assert Chain(input, longer, k, v);
  }

  // A placed entry is there only together with what it hangs on and the parent of that.
  lemma {:induction false} ChainThere(
    f0: Forest, input: map<Id, Provider>, left: set<Id>, f: Forest, g: Forest, path: seq<Id>, k: Id, v: Id, p: Id)
    requires Strays(f0, input, left, f) && PartOf(g, f) && Chain(input, path, k, v)
    requires k in Ids(g) && k !in left && input[v].parent == Some(p)
    ensures p in Ids(g)
    decreases |path|
  {
    assert StrayAt(f0, input, left, f, k);
    TopIffParent(g, None, k);
    if |path| > 1 {
      var rest := path[1..];
      assert forall i :: 0 <= i < |rest| ==> rest[i] == path[i + 1];
      ChainThere(f0, input, left, f, g, rest, path[1], v, p);
    }
  }

  // An entry v whose stated parent is outside the input and lies below a, which the input replaces.
  ghost predicate Doomed(f0: Forest, input: map<Id, Provider>, v: Id, a: Id) {
    && v in input && input[v].parent.Some? && input[v].parent.value !in input
    && a in input && a in Ids(f0) && input[v].parent.value in SubtreeIds(f0, a)
  }

  // Without a cycle, an entry that is not grounded hangs on such an entry.
  lemma FindDoomed(f0: Forest, input: map<Id, Provider>) returns (v: Id, a: Id)
    requires WellFormed(f0, None) && !HasOrphan(f0, input) && !HasCycle(input) && !AllGrounded(f0, input)
    ensures Doomed(f0, input, v, a)
  {
    hide Grounded;
    var loose := set u | u in input && !Grounded(f0, input, u);
    if forall u :: u in loose ==> input[u].parent.Some? && input[u].parent.value in loose {
      StuckHasCycle(input, loose);
    }
    v :| v in loose && (input[v].parent.None? || input[v].parent.value !in loose);
    if input[v].parent.None? || Stays(f0, input, input[v].parent.value) {
      GroundedChild(f0, input, v);
    }
    var p := input[v].parent.value;
    assert ParentKnown(f0, input, input[v]);
    a :| a in input.Keys && a in Ids(f0) && p in SubtreeIds(f0, a);
  }

  // Whatever hangs on v must be placed before a: its round raises once a is placed, or when it is the
  // round for a, which deletes the stated parent of a together with a.
  lemma LateRaises(f0: Forest, input: map<Id, Provider>, left: set<Id>, f: Forest, x: Id, v: Id, a: Id)
    requires Between(f0, input, left, f) && Doomed(f0, input, v, a) && Hangs(input, x, v)
    requires Pickable(input, left, x) && (a !in left || a == x)
    ensures AddOrReplace(f, input[x]).None?
  {
    var g := RoundRaisesIff(f0, input, left, f, x);
    var chain :| Chain(input, chain, x, v);
    assert input[x].parent == if |chain| == 1 then input[v].parent else Some(chain[1]);
    var up := input[x].parent.value;
    if up in Ids(g) {
      if |chain| > 1 {
        var rest := chain[1..];
        assert forall i :: 0 <= i < |rest| ==> rest[i] == chain[i + 1];
        ChainThere(f0, input, left, f, g, rest, up, v, input[v].parent.value);
      }
      OldAbove(f0, input, left, f, g, input[v].parent.value, a);
    }
  }

  // If a itself hangs on v, every order fails.
  lemma {:induction false} LoopFails(f0: Forest, input: map<Id, Provider>, left: set<Id>, f: Forest, v: Id, a: Id)
    requires Between(f0, input, left, f) && Doomed(f0, input, v, a) && Hangs(input, a, v) && a in left
    ensures CanFail(input, left, f)
    decreases left
  {
    if u :| Pickable(input, left, u) {
      if u == a {
        LateRaises(f0, input, left, f, a, v, a);
      } else if AddOrReplace(f, input[u]).Some? {
        NextBetween(f0, input, left, f, u);
        LoopFails(f0, input, left - {u}, AddOrReplace(f, input[u]).value, v, a);
      }
      assert FailsFrom(input, left, f, u);
    }
  }

  // If a does not hang on v, entries that do not are picked until a is placed.
  lemma {:induction false} DelayFails(f0: Forest, input: map<Id, Provider>, left: set<Id>, f: Forest, v: Id, a: Id)
    requires Between(f0, input, left, f) && Doomed(f0, input, v, a) && !Hangs(input, a, v) && v in left
    requires !HasCycle(input)
    ensures CanFail(input, left, f)
    decreases left
  {
    assert Chain(input, [v], v, v);
    if a !in left {
      LateRaises(f0, input, left, f, v, v, a);
      assert FailsFrom(input, left, f, v);
    } else {
      var u := PickOther(input, left, v, a);
      if AddOrReplace(f, input[u]).Some? {
        NextBetween(f0, input, left, f, u);
        DelayFails(f0, input, left - {u}, AddOrReplace(f, input[u]).value, v, a);
      }
      assert FailsFrom(input, left, f, u);
    }
  }

  lemma PickOther(input: map<Id, Provider>, left: set<Id>, v: Id, a: Id) returns (u: Id)
    requires left <= input.Keys && !HasCycle(input) && v in left && a in left && !Hangs(input, a, v)
    ensures Pickable(input, left, u) && u != v
  {
    var free := set k | k in left && !Hangs(input, k, v);
    if forall k :: k in free ==> input[k].parent.Some? && input[k].parent.value in free {
      StuckHasCycle(input, free);
    }
    u :| u in free && (input[u].parent.None? || input[u].parent.value !in free);
    if input[u].parent.Some? && Hangs(input, input[u].parent.value, v) {
      HangsToo(input, u, v);
    }
    assert Chain(input, [v], v, v);
  }

  /******* The condition *******/

  // For every input without orphans: every order of picks succeeds exactly when every entry is
  // grounded, that is, hangs on a root or on a provider without named ancestors.
  lemma CanFailIff(f0: Forest, input: map<Id, Provider>)
    requires Names(f0, input) && !HasOrphan(f0, input)
    ensures CanFail(input, input.Keys, f0) <==> !AllGrounded(f0, input)
  {
    StartBetween(f0, input);
    if AllGrounded(f0, input) {
      GroundedNeverFails(f0, input, input.Keys, f0);
    } else if HasCycle(input) {
      var c :| IsCycle(input, c);
      CycleFails(input, c, input.Keys, f0);
    } else {
      var v, a := FindDoomed(f0, input);
      if Hangs(input, a, v) {
        LoopFails(f0, input, input.Keys, f0, v, a);
      } else {
        DelayFails(f0, input, input.Keys, f0, v, a);
      }
    }
  }

  // Only the success depends on the order, not the table that a success leaves. Here the input
  // replaces the root "x" and adds "e" below its child "d", which it does not name: "x" first ends
  // in "no such provider", "e" first succeeds and loses "e".
  lemma ClosureIsNeeded()
    ensures var x, d, e := Provider("x", "nx", None, None, NO_EXTRAS),
                           Provider("d", "nd", None, Some("x"), NO_EXTRAS),
                           Provider("e", "ne", None, Some("d"), NO_EXTRAS);
            var f := Cons("x", x, Cons("d", d, Nil, Nil), Nil);
            && !Closed(f, {"x", "e"})
            && AddOrReplace(f, x).Some? && AddOrReplace(AddOrReplace(f, x).value, e).None?
            && AddOrReplace(f, e).Some? && AddOrReplace(AddOrReplace(f, e).value, x) == Some(Cons("x", x, Nil, Nil))
  {
    var x, d, e := Provider("x", "nx", None, None, NO_EXTRAS),
                   Provider("d", "nd", None, Some("x"), NO_EXTRAS),
                   Provider("e", "ne", None, Some("d"), NO_EXTRAS);
    var f := Cons("x", x, Cons("d", d, Nil, Nil), Nil);
    assert "d" in SubtreeIds(f, "x");
    var g := Cons("x", x, Nil, Nil);
    assert Delete(f, "x") == Nil;
    assert AddOrReplace(f, x) == Some(g);
    assert FindInKids(Nil, "d") == None;
    assert Find(x, Nil, "d") == None;
    assert FindWithLock(g, "d") == None;
    var h := Cons("x", x, Cons("d", d, Cons("e", e, Nil, Nil), Nil), Nil);
    assert Find(d, Nil, "e") == None;
    assert FindWithLock(f, "e") == None;
    assert Find(x, Cons("d", d, Nil, Nil), "d") == Some(Found(d, Nil));
    assert AddOrReplace(f, e) == Some(h);
    assert FindWithLock(h, "x").Some?;
  }

  // A failing round has already removed the entry: the input replaces the root "x" and moves the root
  // "e" below the child "d" of "x". With "x" first the error leaves "x" alone.
  lemma FailureLosesEntry()
    ensures var x, d, e := Provider("x", "nx", None, None, NO_EXTRAS),
                           Provider("d", "nd", None, Some("x"), NO_EXTRAS),
                           Provider("e", "ne", None, None, NO_EXTRAS);
            var moved := e.(parent := Some("d"));
            var f := Cons("x", x, Cons("d", d, Nil, Nil), Cons("e", e, Nil, Nil));
            && AddOrReplace(f, x) == Some(Cons("e", e, Nil, Cons("x", x, Nil, Nil)))
            && AddOrReplace(AddOrReplace(f, x).value, moved).None?
            && Uprooted(AddOrReplace(f, x).value, "e") == Cons("x", x, Nil, Nil)
  {
    var x, d, e := Provider("x", "nx", None, None, NO_EXTRAS),
                   Provider("d", "nd", None, Some("x"), NO_EXTRAS),
                   Provider("e", "ne", None, None, NO_EXTRAS);
    var f := Cons("x", x, Cons("d", d, Nil, Nil), Cons("e", e, Nil, Nil));
    var g := Cons("e", e, Nil, Cons("x", x, Nil, Nil));
    assert Delete(f, "x") == Cons("e", e, Nil, Nil);
    assert Put(Cons("e", e, Nil, Nil), x) == g;
    assert AddOrReplace(f, x) == Some(g);
    assert Delete(g, "e") == Cons("x", x, Nil, Nil) && Uprooted(g, "e") == Cons("x", x, Nil, Nil);
    assert FindInKids(Nil, "d") == None;
    assert Find(x, Nil, "d") == None;
    assert FindWithLock(Nil, "d") == None;
    assert FindWithLock(Cons("x", x, Nil, Nil), "d") == None;
  }
}

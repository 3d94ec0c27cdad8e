/** The bulk "add or replace" routine: why no replacement ever deletes a provider that must stay,
    and when no provider is left to pick. */
module ProviderPopulate {
  import opened Options
  import opened ProviderForest
  import opened ProviderForestProofs
  import opened ProviderSteps

  // The input by UUID; of two entries with the same UUID the last one counts.
  function ByUuid(dicts: seq<ProviderDict>): (m: map<Id, ProviderDict>)
    ensures forall u :: u in m ==> m[u].uuid == u && m[u] in dicts
    ensures forall d :: d in dicts ==> d.uuid in m
  {
    if dicts == [] then map[]
    else
      var last := dicts[|dicts| - 1];
      ByUuid(dicts[..|dicts| - 1])[last.uuid := last]
  }

  lemma {:induction false} LastEntryCounts(dicts: seq<ProviderDict>, i: nat)
    requires i < |dicts| && forall j :: i < j < |dicts| ==> dicts[j].uuid != dicts[i].uuid
    ensures ByUuid(dicts)[dicts[i].uuid] == dicts[i]
  {
    if i < |dicts| - 1 {
      var init := dicts[..|dicts| - 1];
      assert init[i] == dicts[i];
      LastEntryCounts(init, i);
    }
  }

  ghost function Input(dicts: seq<ProviderDict>): map<Id, Provider> {
    map u | u in ByUuid(dicts) :: FromDict(ByUuid(dicts)[u])
  }

  // Parents that are neither in the forest nor in the input.
  function MissingParents(known: set<Id>, toAdd: map<Id, ProviderDict>): set<Id> {
    set u | u in toAdd && toAdd[u].parentUuid.Some? && toAdd[u].parentUuid.value !in known + toAdd.Keys
      :: toAdd[u].parentUuid.value
  }

  lemma MissingIff(known: set<Id>, toAdd: map<Id, ProviderDict>, p: Id)
    ensures p in MissingParents(known, toAdd) <==>
            p !in known && p !in toAdd && exists u :: u in toAdd && toAdd[u].parentUuid == Some(p)
  {
  }

  // The documented precondition: with a provider, the input names all its descendants.
  ghost predicate Closed(f: Forest, named: set<Id>) {
    forall u :: u in named && u in Ids(f) ==> SubtreeIds(f, u) <= named
  }

  // A cycle of the parent relation of the input.
  ghost predicate IsCycle(input: map<Id, Provider>, c: seq<Id>) {
    && c != []
    && forall i :: 0 <= i < |c| ==> c[i] in input && input[c[i]].parent == Some(c[if i + 1 == |c| then 0 else i + 1])
  }

  ghost predicate HasCycle(input: map<Id, Provider>) {
    exists c :: IsCycle(input, c)
  }

  /******* What holds between two rounds *******/

  ghost predicate Names(f0: Forest, input: map<Id, Provider>) {
    && Sound(f0)
    && NamesApart(Members(f0) + input.Values)
    && forall u :: u in input ==> input[u].uuid == u
  }

  ghost predicate Sane(f0: Forest, input: map<Id, Provider>, f: Forest) {
    Sound(f) && Members(f) <= Members(f0) + input.Values
  }

  // No finished or untouched provider lies under one that is still to be replaced.
  ghost predicate UpwardClosed(f: Forest, left: set<Id>) {
    forall k :: k in Ids(f) && k !in left ==>
                  Get(f, k).node.parent.None? || Get(f, k).node.parent.value !in left
  }

  ghost predicate Settled(f0: Forest, input: map<Id, Provider>, left: set<Id>, f: Forest, k: Id) {
    if k in left then k in Ids(f) ==> k in Ids(f0)
    else
      && (k in Ids(f) <==> k in input || k in Ids(f0))
      && (k in Ids(f) ==> Get(f, k).node == if k in input then input[k] else Get(f0, k).node)
  }

  ghost predicate Progress(f0: Forest, input: map<Id, Provider>, left: set<Id>, f: Forest) {
    UpwardClosed(f, left) && forall k :: Settled(f0, input, left, f, k)
  }

  lemma StartOfProgress(f0: Forest, input: map<Id, Provider>)
    requires Sound(f0) && Closed(f0, input.Keys)
    ensures Progress(f0, input, input.Keys, f0)
  {
    forall k | k in Ids(f0) && k !in input.Keys
      ensures Get(f0, k).node.parent.None? || Get(f0, k).node.parent.value !in input.Keys
    {
      if Get(f0, k).node.parent.Some? {
        ParentIsAbove(f0, None, k);
      }
    }
  }

  lemma {:induction false} DescendantsAreLeft(kids: Forest, u: Id, left: set<Id>)
    requires WellFormed(kids, Some(u)) && u in left && UpwardClosed(kids, left)
    ensures Ids(kids) <= left
  {
    match kids
    case Nil =>
    case Cons(k, n, below, rest) =>
      assert Get(kids, n.uuid).node == n;
      UpwardClosedParts(kids, Some(u), left);
      DescendantsAreLeft(below, n.uuid, left);
      DescendantsAreLeft(rest, u, left);
  }

  lemma UpwardClosedParts(f: Forest, parent: Option<Id>, left: set<Id>)
    requires f.Cons? && WellFormed(f, parent) && UpwardClosed(f, left)
    ensures UpwardClosed(f.kids, left) && UpwardClosed(f.rest, left)
  {
    forall k | k in Ids(f.kids) ensures Get(f.kids, k) == Get(f, k) {}
    forall k | k in Ids(f.rest) ensures Get(f.rest, k) == Get(f, k) {}
  }

  // A replacement deletes only providers that are still to be replaced.
  lemma SubtreeIsLeft(f: Forest, u: Id, left: set<Id>)
    requires Sound(f) && u in Ids(f) && u in left && UpwardClosed(f, left)
    ensures SubtreeIds(f, u) <= left
  {
    var kids := Get(f, u).kids;
    GetLaw(f, None, u);
    forall k | k in Ids(kids) ensures Get(kids, k) == Get(f, k) {
      GetGet(f, None, u, k);
    }
    DescendantsAreLeft(kids, u, left);
  }

  // What `_remove_with_lock` leaves of the forest in one round.
  lemma RemoveUuid(f0: Forest, input: map<Id, Provider>, f: Forest, u: Id) returns (g: Forest)
    requires Names(f0, input) && Sane(f0, input, f) && u in input
    ensures g == Uprooted(f, u)
    ensures Sane(f0, input, g)
    ensures Table(g) == if u in Ids(f) then Table(f) - SubtreeIds(f, u) else Table(f)
  {
    g := Uprooted(f, u);
    RemoveFromLaw(f, u);
    assert input[u] in input.Values;
    forall p | p in Members(f) && p.Matches(u) ensures p.uuid == u {
      assert NamedLike(p, input[u]) <==> p.name == u;
    }
    FindUuidIff(f, u);
    FindWithLockIff(f, None, u);
  }

  ghost predicate ParentKnown(f0: Forest, input: map<Id, Provider>, p: Provider) {
    p.parent.Some? ==> p.parent.value in Ids(f0) || p.parent.value in input
  }

  ghost predicate HasOrphan(f0: Forest, input: map<Id, Provider>) {
    exists u :: u in input && !ParentKnown(f0, input, input[u])
  }

  lemma AttachUuid(f0: Forest, input: map<Id, Provider>, g: Forest, u: Id)
    requires Names(f0, input) && Sane(f0, input, g) && u in input && u !in Ids(g)
    requires ParentKnown(f0, input, input[u]) && input[u].parent != Some(u)
    ensures Attach(g, input[u]).Some? <==> input[u].parent.None? || input[u].parent.value in Ids(g)
    ensures Attach(g, input[u]).Some? ==>
              Sane(f0, input, Attach(g, input[u]).value) &&
              Table(Attach(g, input[u]).value) == Table(g)[u := input[u]]
  {
    var p := input[u];
    assert p in input.Values;
    if p.parent.Some? {
      var up := p.parent.value;
      var owner := if up in input then input[up] else Get(f0, up).node;
      assert owner in Members(f0) + input.Values;
      forall q | q in Members(g) && q.name == up ensures q.uuid == up {
        assert NamedLike(q, owner);
      }
    }
    AttachLaw(g, p);
  }

  // One round, whatever the input.
  lemma RoundKeepsSane(f0: Forest, input: map<Id, Provider>, f: Forest, u: Id)
    requires Names(f0, input) && Sane(f0, input, f) && u in input
    requires ParentKnown(f0, input, input[u]) && input[u].parent != Some(u)
    ensures AddOrReplace(f, input[u]).Some? ==> Sane(f0, input, AddOrReplace(f, input[u]).value)
  {
    var g := RemoveUuid(f0, input, f, u);
    assert u !in Table(g);
    AttachUuid(f0, input, g, u);
  }

  // One round when the input was closed: it succeeds and finishes one more provider.
  lemma RoundKeepsProgress(f0: Forest, input: map<Id, Provider>, left: set<Id>, f: Forest, u: Id)
    requires Names(f0, input) && Sane(f0, input, f) && Progress(f0, input, left, f)
    requires u in left && left <= input.Keys
    requires ParentKnown(f0, input, input[u])
    requires input[u].parent.Some? ==> input[u].parent.value !in left
    ensures AddOrReplace(f, input[u]).Some?
    ensures Progress(f0, input, left - {u}, AddOrReplace(f, input[u]).value)
  {
    var g := RemoveUuid(f0, input, f, u);
    if u in Ids(f) {
      SubtreeIsLeft(f, u, left);
    }
    assert u !in Table(g);
    var up := input[u].parent;
    assert Settled(f0, input, left, f, u);
    if up.Some? {
      assert Settled(f0, input, left, f, up.value);
      assert up.value in Table(g);
    }
    AttachUuid(f0, input, g, u);
    var h := Attach(g, input[u]).value;
    forall k ensures Settled(f0, input, left - {u}, h, k) {
      RoundAt(f, g, h, u, input[u], k);
      assert Settled(f0, input, left, f, k);
    }
    forall k | k in Ids(h) && k !in left - {u}
      ensures Get(h, k).node.parent.None? || Get(h, k).node.parent.value !in left - {u}
    {
      RoundAt(f, g, h, u, input[u], k);
    }
  }

  lemma RoundAt(f: Forest, g: Forest, h: Forest, u: Id, p: Provider, k: Id)
    requires Table(g) == if u in Ids(f) then Table(f) - SubtreeIds(f, u) else Table(f)
    requires Table(h) == Table(g)[u := p]
    ensures k in Ids(h) <==> k == u || (k in Ids(f) && !(u in Ids(f) && k in SubtreeIds(f, u)))
    ensures k in Ids(h) ==> if k == u then Get(h, k).node == p else k in Ids(f) && Get(h, k).node == Get(f, k).node
  {
    assert k in Ids(h) <==> k in Table(h);
    assert k in Ids(g) <==> k in Table(g);
    assert k in Ids(f) <==> k in Table(f);
    if k in Table(h) && k != u {
      assert Get(h, k).node == Table(h)[k] == Table(g)[k] == Table(f)[k];
    } else if k == u {
      assert Get(h, u).node == Table(h)[u];
    }
  }

  /******* No provider to pick *******/

  // When the parent of every remaining entry remains too, the input has a cycle.
  lemma StuckHasCycle(input: map<Id, Provider>, left: set<Id>)
    requires left <= input.Keys && left != {}
    requires forall u :: u in left ==> input[u].parent.Some? && input[u].parent.value in left
    ensures HasCycle(input)
  {
    var u :| u in left;
    FollowParents(input, left, [u], {u});
  }

  lemma {:induction false} FollowParents(input: map<Id, Provider>, left: set<Id>, path: seq<Id>, seen: set<Id>)
    requires left <= input.Keys && path != []
    requires forall u :: u in left ==> input[u].parent.Some? && input[u].parent.value in left
    requires seen <= left && forall u :: u in seen <==> u in path
    requires forall i :: 0 <= i < |path| - 1 ==> input[path[i]].parent == Some(path[i + 1])
    ensures HasCycle(input)
    decreases left - seen
  {
    assert path[|path| - 1] in path;
    var next := input[path[|path| - 1]].parent.value;
    if next in path {
      var j :| 0 <= j < |path| && path[j] == next;
      var c := path[j..];
      forall i | 0 <= i < |c|
        ensures c[i] in input && input[c[i]].parent == Some(c[if i + 1 == |c| then 0 else i + 1])
      {
        assert c[i] == path[j + i] && c[i] in path;
      }
      assert IsCycle(input, c);
    } else {
      var longer := path + [next];
      assert forall i :: 0 <= i < |path| ==> longer[i] == path[i];
      assert next in left - seen && next !in left - (seen + {next});
      FollowParents(input, left, longer, seen + {next});
    }
  }

  // No member of a cycle is ever picked.
  lemma CycleStaysLeft(input: map<Id, Provider>, c: seq<Id>, left: set<Id>, u: Id)
    requires IsCycle(input, c) && u in left
    requires forall i :: 0 <= i < |c| ==> c[i] in left
    requires u in input && (input[u].parent.Some? ==> input[u].parent.value !in left)
    ensures forall i :: 0 <= i < |c| ==> c[i] in left - {u}
  {
    forall i | 0 <= i < |c| ensures c[i] != u {
      assert c[if i + 1 == |c| then 0 else i + 1] in left;
    }
  }
}

/** The order in which providers are listed: a new provider comes last among its siblings, and
    everything else keeps its place. */
module ProviderListing {
  import opened Options
  import opened ProviderForest
  import opened ProviderForestProofs

  // The list names the providers in the order of the traversal.
  lemma {:induction false} UuidsFollowPreorder(f: Forest)
    ensures |Uuids(f)| == |Preorder(f)| && forall i :: 0 <= i < |Uuids(f)| ==> Uuids(f)[i] == Preorder(f)[i].node.uuid
  {
    match f
    case Nil =>
    case Cons(_, n, kids, rest) =>
      UuidsFollowPreorder(kids);
      UuidsFollowPreorder(rest);
  }

  // The top-down list of a provider and its descendants.
  ghost function SubtreeList(f: Forest, u: Id): seq<Id>
    requires u in Ids(f)
  {
    [u] + Uuids(Get(f, u).kids)
  }

  lemma {:induction false} PutComesLast(f: Forest, p: Provider)
    requires Lookup(f, p.uuid).None?
    ensures Uuids(Put(f, p)) == Uuids(f) + [p.uuid]
  {
    match f
    case Nil =>
      assert [p.uuid] + Uuids(Nil) + Uuids(Nil) == [p.uuid];
    case Cons(_, n, kids, rest) =>
      PutComesLast(rest, p);
      assert [n.uuid] + Uuids(kids) + (Uuids(rest) + [p.uuid]) == [n.uuid] + Uuids(kids) + Uuids(rest) + [p.uuid];
  }

  lemma {:induction false} DeleteTakesBlock(f: Forest, parent: Option<Id>, u: Id) returns (a: seq<Id>, b: seq<Id>)
    requires WellFormed(f, parent) && Lookup(f, u).Some?
    ensures u in Ids(f) && Uuids(f) == a + SubtreeList(f, u) + b
    ensures Uuids(Delete(f, u)) == a + b
  {
    var Cons(k, n, kids, rest) := f;
    if k == u {
      a, b := [], Uuids(rest);
    } else {
      LookupIffTop(rest, parent, u);
      var c;
      c, b := DeleteTakesBlock(rest, parent, u);
      a := [n.uuid] + Uuids(kids) + c;
      assert [n.uuid] + Uuids(kids) + (c + SubtreeList(rest, u) + b) == a + SubtreeList(rest, u) + b;
      assert [n.uuid] + Uuids(kids) + (c + b) == a + b;
    }
  }

  // Another dictionary of children takes the place of the old one.
  ghost predicate BlockOf(f: Forest, up: Id, newKids: Forest, a: seq<Id>, b: seq<Id>)
    requires up in Ids(f)
  {
    Uuids(f) == a + SubtreeList(f, up) + b && Uuids(WithKids(f, up, newKids)) == a + ([up] + Uuids(newKids)) + b
  }

  lemma {:induction false} KidsAreBlock(f: Forest, parent: Option<Id>, up: Id, newKids: Forest)
    returns (a: seq<Id>, b: seq<Id>)
    requires WellFormed(f, parent) && up in Ids(f)
    ensures BlockOf(f, up, newKids, a, b)
  {
    var Cons(_, n, kids, rest) := f;
    if n.uuid == up {
      a, b := [], Uuids(rest);
    } else if up in Ids(kids) {
      a, b := KidsAreBlock(kids, Some(n.uuid), up, newKids);
      WithKidsAbsent(rest, up, newKids);
      BlockInKids(f, up, newKids, a, b);
      a, b := [n.uuid] + a, b + Uuids(rest);
    } else {
      a, b := KidsAreBlock(rest, parent, up, newKids);
      WithKidsAbsent(kids, up, newKids);
      BlockInRest(f, up, newKids, a, b);
      a := [n.uuid] + Uuids(kids) + a;
    }
  }

  lemma BlockInKids(f: Forest, up: Id, newKids: Forest, a: seq<Id>, b: seq<Id>)
    requires f.Cons? && f.node.uuid != up && up in Ids(f.kids) && WithKids(f.rest, up, newKids) == f.rest
    requires BlockOf(f.kids, up, newKids, a, b)
    ensures BlockOf(f, up, newKids, [f.node.uuid] + a, b + Uuids(f.rest))
  {
    var u, r := f.node.uuid, Uuids(f.rest);
    assert SubtreeList(f, up) == SubtreeList(f.kids, up);
    KidsBlock(u, a, SubtreeList(f.kids, up), b, r);
    KidsBlock(u, a, [up] + Uuids(newKids), b, r);
    hide SubtreeList;
  }

  lemma BlockInRest(f: Forest, up: Id, newKids: Forest, a: seq<Id>, b: seq<Id>)
    requires f.Cons? && f.node.uuid != up && up !in Ids(f.kids) && up in Ids(f.rest)
    requires WithKids(f.kids, up, newKids) == f.kids && BlockOf(f.rest, up, newKids, a, b)
    ensures BlockOf(f, up, newKids, [f.node.uuid] + Uuids(f.kids) + a, b)
  {
    var head := [f.node.uuid] + Uuids(f.kids);
    assert SubtreeList(f, up) == SubtreeList(f.rest, up);
    RestBlock(head, a, SubtreeList(f.rest, up), b);
    RestBlock(head, a, [up] + Uuids(newKids), b);
    hide SubtreeList;
  }

  lemma KidsBlock(u: Id, a: seq<Id>, block: seq<Id>, c: seq<Id>, rest: seq<Id>)
    ensures [u] + (a + block + c) + rest == [u] + a + block + (c + rest)
  {
  }

  lemma RestBlock(head: seq<Id>, a: seq<Id>, block: seq<Id>, b: seq<Id>)
    ensures head + (a + block + b) == head + a + block + b
  {
  }

  /******* Changes of the whole list *******/

  // The list of g is that of f without the block of u.
  ghost predicate ListedWithout(f: Forest, g: Forest, u: Id)
    requires u in Ids(f)
  {
    exists a, b :: Uuids(f) == a + SubtreeList(f, u) + b && Uuids(g) == a + b
  }

  // The list of g is that of f with u at the end of the block of `up`.
  ghost predicate ListedLast(f: Forest, g: Forest, up: Id, u: Id)
    requires up in Ids(f)
  {
    exists a, b :: Uuids(f) == a + SubtreeList(f, up) + b && Uuids(g) == a + (SubtreeList(f, up) + [u]) + b
  }

  lemma PutChildIsLast(f: Forest, up: Id, p: Provider)
    requires WellFormed(f, None) && up in Ids(f) && p.uuid !in Ids(f)
    ensures ListedLast(f, WithKids(f, up, Put(Get(f, up).kids, p)), up, p.uuid)
  {
    var kids := Get(f, up).kids;
    GetLaw(f, None, up);
    LookupIffTop(kids, Some(up), p.uuid);
    PutComesLast(kids, p);
    var a, b := KidsAreBlock(f, None, up, Put(kids, p));
    assert [up] + Uuids(Put(kids, p)) == SubtreeList(f, up) + [p.uuid];
  }

  lemma RemoveChildTakesBlock(f: Forest, up: Id, u: Id)
    requires WellFormed(f, None) && up in Ids(f) && Lookup(Get(f, up).kids, u).Some?
    ensures u in Ids(f) && ListedWithout(f, WithKids(f, up, Delete(Get(f, up).kids, u)), u)
  {
    var kids := Get(f, up).kids;
    GetLaw(f, None, up);
    LookupIffTop(kids, Some(up), u);
    GetGet(f, None, up, u);
    var c, d := DeleteTakesBlock(kids, Some(up), u);
    var a, b := KidsAreBlock(f, None, up, Delete(kids, u));
    var left, right := a + [up] + c, d + b;
    assert SubtreeList(kids, u) == SubtreeList(f, u);
    assert a + ([up] + (c + SubtreeList(f, u) + d)) + b == left + SubtreeList(f, u) + right;
    assert a + ([up] + (c + d)) + b == left + right;
  }
}

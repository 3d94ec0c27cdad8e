/** Laws of the provider forest: lookup, traversal order, and what each update does to the table. */
module ProviderForestProofs {
  import opened Options
  import opened ProviderForest

  /******* Lookup *******/

  lemma {:induction false} FirstMatchAppend(a: seq<Found>, b: seq<Found>, search: Id)
    ensures FirstMatch(a + b, search) ==
            if FirstMatch(a, search).Some? then FirstMatch(a, search) else FirstMatch(b, search)
  {
    if a == [] {
      assert a + b == b;
    } else {
      assert (a + b)[1..] == a[1..] + b;
      FirstMatchAppend(a[1..], b, search);
    }
  }

  lemma {:induction false} FirstMatchIff(f: Forest, search: Id)
    ensures FirstMatch(Preorder(f), search).Some? <==> exists p :: p in Members(f) && p.Matches(search)
    ensures var m := FirstMatch(Preorder(f), search);
            m.Some? ==> m.value.node in Members(f) && m.value.node.Matches(search)
  {
    match f
    case Nil =>
    case Cons(_, n, kids, rest) =>
      FirstMatchIff(kids, search);
      FirstMatchIff(rest, search);
      FirstMatchAppend([Found(n, kids)] + Preorder(kids), Preorder(rest), search);
      FirstMatchAppend([Found(n, kids)], Preorder(kids), search);
  }

  // A direct child found by key is the first match in top-down order, whatever is in front of it.
  lemma {:induction false} LookupIsFirst(f: Forest, parent: Option<Id>, search: Id)
    requires Distinct(f) && Placed(f, parent) && NamesApart(Members(f))
    requires Lookup(f, search).Some?
    ensures FirstMatch(Preorder(f), search) == Lookup(f, search)
    ensures search in Ids(f)
  {
    var Cons(k, n, kids, rest) := f;
    FirstMatchAppend([Found(n, kids)] + Preorder(kids), Preorder(rest), search);
    FirstMatchAppend([Found(n, kids)], Preorder(kids), search);
    if k != search {
      LookupIsFirst(rest, parent, search);
      FirstMatchIff(kids, search);
      FirstMatchIff(rest, search);
      MembersHaveIds(kids);
      MembersHaveIds(rest);
      forall p | p in Members(f) && p.Matches(search) ensures p.uuid == search {
        LookupIffTop(f, parent, search);
        assert NamedLike(p, Lookup(f, search).value.node) <==> p.name == search;
      }
    }
  }

  lemma MembersHaveIds(f: Forest)
    ensures forall p :: p in Members(f) ==> p.uuid in Ids(f)
    ensures forall u :: u in Ids(f) ==> exists p :: p in Members(f) && p.uuid == u
  {
    match f
    case Nil =>
    case Cons(_, n, kids, rest) =>
      MembersHaveIds(kids);
      MembersHaveIds(rest);
      assert n in Members(f);
  }

  lemma {:induction false} FindIsFirst(n: Provider, kids: Forest, search: Id)
    requires Distinct(kids) && Placed(kids, Some(n.uuid)) && NamesApart(Members(kids))
    ensures Find(n, kids, search) == FirstMatch([Found(n, kids)] + Preorder(kids), search)
    decreases kids, 1
  {
    FirstMatchAppend([Found(n, kids)], Preorder(kids), search);
    if !n.Matches(search) {
      if Lookup(kids, search).Some? {
        LookupIsFirst(kids, Some(n.uuid), search);
      } else {
        FindInKidsIsFirst(kids, Some(n.uuid), search);
      }
    }
  }

  lemma {:induction false} FindInKidsIsFirst(f: Forest, parent: Option<Id>, search: Id)
    requires Distinct(f) && Placed(f, parent) && NamesApart(Members(f))
    ensures FindInKids(f, search) == FirstMatch(Preorder(f), search)
    decreases f, 0
  {
    match f
    case Nil =>
    case Cons(_, n, kids, rest) =>
      FindIsFirst(n, kids, search);
      FindInKidsIsFirst(rest, parent, search);
      FirstMatchAppend([Found(n, kids)] + Preorder(kids), Preorder(rest), search);
  }

  // The three-way recursive search of the source returns the first provider, top-down, with that
  // name or UUID.
  lemma {:induction false} FindWithLockIsFirst(f: Forest, parent: Option<Id>, search: Id)
    requires Distinct(f) && Placed(f, parent) && NamesApart(Members(f))
    ensures var r := FindWithLock(f, search);
            if r.Some? then FirstMatch(Preorder(f), search) == Some(r.value.1)
            else FirstMatch(Preorder(f), search) == None
  {
    match f
    case Nil =>
    case Cons(_, n, kids, rest) =>
      FindIsFirst(n, kids, search);
      FindWithLockIsFirst(rest, parent, search);
      FirstMatchAppend([Found(n, kids)] + Preorder(kids), Preorder(rest), search);
  }

  lemma {:induction false} LookupIffTop(f: Forest, parent: Option<Id>, key: Id)
    requires Placed(f, parent)
    ensures Lookup(f, key).Some? ==>
              var c := Lookup(f, key).value;
              c.node in Members(f) && c.node.uuid == key && c.node.parent == parent && key in Ids(f)
  {
    match f
    case Nil =>
    case Cons(_, n, kids, rest) => LookupIffTop(rest, parent, key);
  }

  lemma {:induction false} FindIff(n: Provider, kids: Forest, search: Id)
    requires Placed(kids, Some(n.uuid))
    ensures Find(n, kids, search).Some? <==> exists p :: p in {n} + Members(kids) && p.Matches(search)
    ensures var r := Find(n, kids, search);
            r.Some? ==> r.value.node in {n} + Members(kids) && r.value.node.Matches(search)
    decreases kids, 1
  {
    LookupIffTop(kids, Some(n.uuid), search);
    FindInKidsIff(kids, Some(n.uuid), search);
    if n.Matches(search) {
      assert n in {n} + Members(kids);
    }
  }

  lemma {:induction false} FindInKidsIff(f: Forest, parent: Option<Id>, search: Id)
    requires Placed(f, parent)
    ensures FindInKids(f, search).Some? <==> exists p :: p in Members(f) && p.Matches(search)
    ensures var r := FindInKids(f, search);
            r.Some? ==> r.value.node in Members(f) && r.value.node.Matches(search)
    decreases f, 0
  {
    match f
    case Nil =>
    case Cons(_, n, kids, rest) =>
      FindIff(n, kids, search);
      FindInKidsIff(rest, parent, search);
      assert n in Members(f);
  }

  // A lookup in the whole forest succeeds exactly when some provider has that name or UUID. It
  // needs no assumption on names.
  lemma {:induction false} FindWithLockIff(f: Forest, parent: Option<Id>, search: Id)
    requires Placed(f, parent)
    ensures FindWithLock(f, search).Some? <==> exists p :: p in Members(f) && p.Matches(search)
    ensures var r := FindWithLock(f, search);
            r.Some? ==> r.value.1.node in Members(f) && r.value.1.node.Matches(search)
  {
    match f
    case Nil =>
    case Cons(_, n, kids, rest) =>
      FindIff(n, kids, search);
      FindWithLockIff(rest, parent, search);
      assert n in Members(f);
  }

  /******* Members and identifiers *******/

  lemma {:induction false} MemberIsGet(f: Forest, p: Provider)
    requires Distinct(f) && p in Members(f)
    ensures p.uuid in Ids(f) && Get(f, p.uuid).node == p
  {
    var Cons(_, n, kids, rest) := f;
    if p in Members(kids) {
      MemberIsGet(kids, p);
    } else if p in Members(rest) {
      MemberIsGet(rest, p);
    }
  }

  // Every element of the top-down list is the entry of its UUID.
  lemma {:induction false} PreorderIsGet(f: Forest, i: nat)
    requires Distinct(f) && i < |Preorder(f)|
    ensures var e := Preorder(f)[i]; e.node.uuid in Ids(f) && e == Get(f, e.node.uuid)
  {
    var Cons(_, n, kids, rest) := f;
    if i == 0 {
    } else if i < 1 + |Preorder(kids)| {
      assert Preorder(f)[i] == Preorder(kids)[i - 1];
      PreorderIsGet(kids, i - 1);
    } else {
      assert Preorder(f)[i] == Preorder(rest)[i - 1 - |Preorder(kids)|];
      PreorderIsGet(rest, i - 1 - |Preorder(kids)|);
    }
  }

  lemma {:induction false} FirstMatchIsElement(s: seq<Found>, search: Id) returns (i: nat)
    requires FirstMatch(s, search).Some?
    ensures i < |s| && FirstMatch(s, search) == Some(s[i])
  {
    if s[0].node.Matches(search) {
      i := 0;
    } else {
      var j := FirstMatchIsElement(s[1..], search);
      i := j + 1;
    }
  }

  // A lookup returns an entry of the forest; a lookup by UUID returns the entry of that UUID.
  lemma FoundIsGet(f: Forest, search: Id)
    requires WellFormed(f, None) && NamesApart(Members(f)) && FindWithLock(f, search).Some?
    ensures var found := FindWithLock(f, search).value.1;
            && found.node.uuid in Ids(f)
            && found == Get(f, found.node.uuid)
            && found.node.Matches(search)
            && (search in Ids(f) ==> found.node.uuid == search)
  {
    FindWithLockIsFirst(f, None, search);
    FindWithLockIff(f, None, search);
    var i := FirstMatchIsElement(Preorder(f), search);
    PreorderIsGet(f, i);
    if search in Ids(f) {
      var found := FindWithLock(f, search).value.1;
      assert NamedLike(found.node, Get(f, search).node) <==> found.node.name == search;
    }
  }

  lemma FindByUuid(f: Forest, u: Id)
    requires WellFormed(f, None) && NamesApart(Members(f)) && u in Ids(f)
    ensures FindWithLock(f, u).Some?
    ensures FindWithLock(f, u).value.1 == Get(f, u)
  {
    FindWithLockIff(f, None, u);
    assert Get(f, u).node in Members(f);
    FoundIsGet(f, u);
  }

  // A UUID is found exactly when it is in the forest.
  lemma FindUuidIff(f: Forest, u: Id)
    requires WellFormed(f, None)
    requires forall p :: p in Members(f) && p.name == u ==> p.uuid == u
    ensures FindWithLock(f, u).Some? <==> u in Ids(f)
  {
    FindWithLockIff(f, None, u);
    if u in Ids(f) {
      assert Get(f, u).node in Members(f);
    }
    forall p | p in Members(f) && p.uuid == u ensures u in Ids(f) {
      MemberIsGet(f, p);
    }
  }

  /******* Updates *******/

  lemma {:induction false} GetLaw(f: Forest, parent: Option<Id>, u: Id)
    requires WellFormed(f, parent) && u in Ids(f)
    ensures WellFormed(Get(f, u).kids, Some(u))
    ensures Ids(Get(f, u).kids) <= Ids(f)
  {
    var Cons(_, n, kids, rest) := f;
    if n.uuid != u {
      if u in Ids(kids) {
        GetLaw(kids, Some(n.uuid), u);
      } else {
        GetLaw(rest, parent, u);
      }
    }
  }

  lemma {:induction false} GetGet(f: Forest, parent: Option<Id>, u: Id, v: Id)
    requires WellFormed(f, parent) && u in Ids(f) && v in Ids(Get(f, u).kids)
    ensures v in Ids(f) && Get(Get(f, u).kids, v) == Get(f, v)
  {
    var Cons(_, n, kids, rest) := f;
    GetLaw(f, parent, u);
    if n.uuid != u {
      if u in Ids(kids) {
        GetGet(kids, Some(n.uuid), u, v);
      } else {
        GetGet(rest, parent, u, v);
      }
    }
  }

  lemma {:induction false} WithKidsAbsent(f: Forest, u: Id, newKids: Forest)
    requires u !in Ids(f)
    ensures WithKids(f, u, newKids) == f
  {
    match f
    case Nil =>
    case Cons(_, n, kids, rest) =>
      WithKidsAbsent(kids, u, newKids);
      WithKidsAbsent(rest, u, newKids);
  }

  ghost predicate Replaceable(f: Forest, parent: Option<Id>, u: Id, newKids: Forest) {
    && WellFormed(f, parent) && u in Ids(f)
    && WellFormed(newKids, Some(u))
    && (parent.Some? ==> parent.value !in Ids(newKids))
    && forall v :: v in Ids(newKids) ==> v !in Ids(f) || v in Ids(Get(f, u).kids)
  }

  // Where a changed children dictionary shows: below its owner, and nowhere else.
  lemma {:induction false} WithKidsAt(f: Forest, parent: Option<Id>, u: Id, newKids: Forest, v: Id)
    requires WellFormed(f, parent) && u in Ids(f)
    requires v in Ids(newKids) ==> v !in Ids(f) || v in Ids(Get(f, u).kids)
    ensures v in Ids(WithKids(f, u, newKids)) <==>
            v in Ids(newKids) || (v in Ids(f) && v !in Ids(Get(f, u).kids))
    ensures v in Ids(WithKids(f, u, newKids)) ==>
              Get(WithKids(f, u, newKids), v).node ==
              if v in Ids(newKids) then Get(newKids, v).node else Get(f, v).node
  {
    var Cons(_, n, kids, rest) := f;
    if n.uuid == u {
    } else if u in Ids(kids) {
      GetLaw(kids, Some(n.uuid), u);
      WithKidsAbsent(rest, u, newKids);
      WithKidsAt(kids, Some(n.uuid), u, newKids, v);
    } else {
      GetLaw(rest, parent, u);
      WithKidsAbsent(kids, u, newKids);
      WithKidsAt(rest, parent, u, newKids, v);
    }
  }

  lemma {:induction false} WithKidsWellFormed(f: Forest, parent: Option<Id>, u: Id, newKids: Forest)
    requires Replaceable(f, parent, u, newKids)
    ensures WellFormed(WithKids(f, u, newKids), parent)
  {
    var Cons(k, n, kids, rest) := f;
    if n.uuid == u {
    } else if u in Ids(kids) {
      GetLaw(kids, Some(n.uuid), u);
      WithKidsAbsent(rest, u, newKids);
      WithKidsWellFormed(kids, Some(n.uuid), u, newKids);
      forall v ensures v in Ids(WithKids(kids, u, newKids)) ==> v in Ids(newKids) || v in Ids(kids) {
        WithKidsAt(kids, Some(n.uuid), u, newKids, v);
      }
    } else {
      GetLaw(rest, parent, u);
      WithKidsAbsent(kids, u, newKids);
      WithKidsWellFormed(rest, parent, u, newKids);
      forall v ensures v in Ids(WithKids(rest, u, newKids)) ==> v in Ids(newKids) || v in Ids(rest) {
        WithKidsAt(rest, parent, u, newKids, v);
      }
    }
  }

  // Deleting a dictionary entry deletes that provider's subtree.
  lemma {:induction false} DeleteLaw(f: Forest, parent: Option<Id>, u: Id)
    requires WellFormed(f, parent) && Lookup(f, u).Some?
    ensures WellFormed(Delete(f, u), parent)
    ensures u in Ids(f)
    ensures Ids(Delete(f, u)) == Ids(f) - SubtreeIds(f, u)
    ensures forall v :: v in Ids(Delete(f, u)) ==> Get(Delete(f, u), v) == Get(f, v)
  {
    var Cons(_, n, kids, rest) := f;
    if n.uuid != u {
      DeleteLaw(rest, parent, u);
      GetLaw(rest, parent, u);
    }
  }

  lemma {:induction false} PutLaw(f: Forest, parent: Option<Id>, p: Provider)
    requires WellFormed(f, parent) && p.uuid !in Ids(f)
    requires p.parent == parent && parent != Some(p.uuid)
    ensures WellFormed(Put(f, p), parent)
    ensures Ids(Put(f, p)) == Ids(f) + {p.uuid}
    ensures Get(Put(f, p), p.uuid) == Found(p, Nil)
    ensures forall v :: v in Ids(f) ==> Get(Put(f, p), v) == Get(f, v)
  {
    match f
    case Nil =>
    case Cons(_, n, kids, rest) =>
      PutLaw(rest, parent, p);
  }

  /******* Positions *******/

  lemma {:induction false} TopIffParent(f: Forest, parent: Option<Id>, u: Id)
    requires WellFormed(f, parent) && u in Ids(f)
    ensures Get(f, u).node.parent == parent <==> Lookup(f, u).Some?
    ensures Lookup(f, u).Some? ==> Lookup(f, u).value == Get(f, u)
    ensures Lookup(f, u).None? ==> Get(f, u).node.parent.Some? && Get(f, u).node.parent.value in Ids(f)
  {
    var Cons(_, n, kids, rest) := f;
    LookupIffTop(rest, parent, u);
    if n.uuid != u {
      if u in Ids(kids) {
        TopIffParent(kids, Some(n.uuid), u);
      } else {
        TopIffParent(rest, parent, u);
      }
    }
  }

  lemma {:induction false} ChildIffParent(f: Forest, parent: Option<Id>, u: Id, p: Id)
    requires WellFormed(f, parent) && u in Ids(f) && p in Ids(f)
    ensures Get(f, u).node.parent == Some(p) <==> Lookup(Get(f, p).kids, u).Some?
  {
    var Cons(_, n, kids, rest) := f;
    GetLaw(f, parent, p);
    LookupIffTop(Get(f, p).kids, Some(p), u);
    if Lookup(Get(f, p).kids, u).Some? {
      GetGet(f, parent, p, u);
      TopIffParent(Get(f, p).kids, Some(p), u);
    } else if Get(f, u).node.parent == Some(p) {
      ParentIsAbove(f, parent, u);
      TopIffParent(Get(f, p).kids, Some(p), u);
      GetGet(f, parent, p, u);
    }
  }

  lemma {:induction false} ParentIsAbove(f: Forest, parent: Option<Id>, u: Id)
    requires WellFormed(f, parent) && u in Ids(f) && Get(f, u).node.parent != parent
    ensures var up := Get(f, u).node.parent;
            up.Some? && up.value in Ids(f) && u in Ids(Get(f, up.value).kids)
  {
    var Cons(_, n, kids, rest) := f;
    if u in Ids(kids) {
      if Get(kids, u).node.parent != Some(n.uuid) {
        ParentIsAbove(kids, Some(n.uuid), u);
      }
    } else {
      ParentIsAbove(rest, parent, u);
    }
  }

  // A recorded parent is where the provider actually sits: roots record none, every other
  // provider is an entry of the children dictionary of its recorded parent.
  lemma ParentIsPosition(f: Forest, u: Id)
    requires WellFormed(f, None) && u in Ids(f)
    ensures Get(f, u).node.parent.None? <==> Lookup(f, u).Some?
    ensures forall p :: Get(f, u).node.parent == Some(p) <==>
                        p in Ids(f) && Lookup(Get(f, p).kids, u).Some?
  {
    TopIffParent(f, None, u);
    forall p | p in Ids(f)
      ensures Get(f, u).node.parent == Some(p) <==> Lookup(Get(f, p).kids, u).Some?
    {
      ChildIffParent(f, None, u, p);
    }
  }

  /******* Traversal order *******/

  lemma {:induction false} UuidsAreIds(f: Forest)
    ensures forall u :: u in Uuids(f) <==> u in Ids(f)
  {
    match f
    case Nil =>
    case Cons(_, n, kids, rest) =>
      UuidsAreIds(kids);
      UuidsAreIds(rest);
  }

  // `get_provider_uuids` lists every UUID once, and a parent before its children.
  lemma {:induction false} UuidsOnce(f: Forest)
    requires Distinct(f)
    ensures forall u :: u in Uuids(f) <==> u in Ids(f)
    ensures forall i, j :: 0 <= i < j < |Uuids(f)| ==> Uuids(f)[i] != Uuids(f)[j]
  {
    match f
    case Nil =>
    case Cons(_, n, kids, rest) =>
      UuidsAreIds(f);
      UuidsAreIds(kids);
      UuidsAreIds(rest);
      UuidsOnce(kids);
      UuidsOnce(rest);
      var a, b, all := Uuids(kids), Uuids(rest), Uuids(f);
      assert forall i :: 0 < i <= |a| ==> all[i] == a[i - 1] && all[i] in Ids(kids);
      assert forall i :: |a| < i < |all| ==> all[i] == b[i - 1 - |a|] && all[i] in Ids(rest);
  }

  ghost predicate ParentComesFirst(f: Forest, parent: Option<Id>, i: nat)
    requires i < |Uuids(f)|
  {
    var s := Uuids(f);
    && s[i] in Ids(f)
    && (Get(f, s[i]).node.parent == parent || exists j :: 0 <= j < i && Some(s[j]) == Get(f, s[i]).node.parent)
  }

  lemma {:induction false} UuidsTopDown(f: Forest, parent: Option<Id>, i: nat)
    requires WellFormed(f, parent) && i < |Uuids(f)|
    ensures ParentComesFirst(f, parent, i)
  {
    var Cons(_, n, kids, rest) := f;
    var a, b := Uuids(kids), Uuids(rest);
    if i == 0 {
    } else if i <= |a| {
      UuidsTopDown(kids, Some(n.uuid), i - 1);
      FirstInKids(f, parent, i);
    } else {
      UuidsTopDown(rest, parent, i - 1 - |a|);
      FirstInRest(f, parent, i);
    }
  }

  lemma FirstInKids(f: Forest, parent: Option<Id>, i: nat)
    requires f.Cons? && f.node.uuid !in Ids(f.kids) && 0 < i <= |Uuids(f.kids)|
    requires ParentComesFirst(f.kids, Some(f.node.uuid), i - 1)
    ensures ParentComesFirst(f, parent, i)
  {
    var a, b := Uuids(f.kids), Uuids(f.rest);
    var all := [f.node.uuid] + a + b;
    assert Uuids(f) == all && all[i] == a[i - 1];
    var up := Get(f.kids, all[i]).node.parent;
    assert Get(f, all[i]) == Get(f.kids, all[i]);
    if up == Some(f.node.uuid) {
      assert Some(all[0]) == up;
    } else {
      var j :| 0 <= j < i - 1 && Some(a[j]) == up;
      assert all[j + 1] == a[j];
    }
  }

  lemma FirstInRest(f: Forest, parent: Option<Id>, i: nat)
    requires f.Cons? && f.node.uuid !in Ids(f.rest) && Ids(f.kids) !! Ids(f.rest)
    requires |Uuids(f.kids)| < i < |Uuids(f)|
    requires ParentComesFirst(f.rest, parent, i - 1 - |Uuids(f.kids)|)
    ensures ParentComesFirst(f, parent, i)
  {
    var head, b := [f.node.uuid] + Uuids(f.kids), Uuids(f.rest);
    var k, u := i - |head|, b[i - |head|];
    assert Uuids(f) == head + b && u in Ids(f.rest);
    assert Uuids(f)[i] == u && Get(f, u) == Get(f.rest, u);
    hide Get, Ids, Uuids;
    if Get(f.rest, u).node.parent != parent {
      var j :| 0 <= j < k && Some(b[j]) == Get(f.rest, u).node.parent;
      assert Uuids(f)[|head| + j] == b[j];
    }
  }
}

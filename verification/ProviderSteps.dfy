/** The provider tree: the operations that change the forest, up to the bulk "add or replace". */
module ProviderSteps {
  import opened Options
  import opened ProviderForest
  import opened ProviderForestProofs

  datatype TreeError =
    | NoSuchProvider(search: Id)
    | AlreadyExists(id: Id)
    | ParentsNotFound(missing: set<Id>)
    | UnexpectedlyFailed(left: set<Id>)

  datatype Result<+T> = Ok(value: T) | ValueError(error: TreeError)

  // One provider dictionary of the input of the bulk routine.
  datatype ProviderDict = ProviderDict(
    uuid: Id, name: Id, generation: Option<int>, parentUuid: Option<Id>)

  function FromDict(pd: ProviderDict): Provider {
    Provider(pd.uuid, pd.name, pd.generation, pd.parentUuid, NO_EXTRAS)
  }

  ghost predicate Exists(f: Forest, search: Id) {
    exists p :: p in Members(f) && p.Matches(search)
  }

  ghost predicate Sound(f: Forest) {
    WellFormed(f, None) && NamesApart(Members(f))
  }

  /******* Removing and attaching one provider *******/

  function RemoveFrom(f: Forest, search: Id): Option<Forest> {
    var hit := FindWithLock(f, search);
    if hit.None? then None
    else
      var found := hit.value.1;
      if found.node.parent.None? then Some(Delete(f, found.node.uuid))
      else
        var up := FindWithLock(f, found.node.parent.value);
        if up.None? then None
        else
          var owner := up.value.1;
          Some(WithKids(f, owner.node.uuid, Delete(owner.kids, found.node.uuid)))
  }

  function Attach(f: Forest, p: Provider): Option<Forest> {
    if p.parent.None? then Some(Put(f, p))
    else
      var up := FindWithLock(f, p.parent.value);
      if up.None? then None
      else
        var owner := up.value.1;
        Some(WithKids(f, owner.node.uuid, Put(owner.kids, p)))
  }

  // The first half of a round of the bulk routine; a missing provider is fine.
  function Uprooted(f: Forest, u: Id): Forest {
    var removed := RemoveFrom(f, u);
    if removed.Some? then removed.value else f
  }

  // One round of the bulk routine.
  function AddOrReplace(f: Forest, p: Provider): Option<Forest> {
    Attach(Uprooted(f, p.uuid), p)
  }

  lemma SubsetStaysApart(f: Forest, g: Forest)
    requires Distinct(f) && Distinct(g) && NamesApart(Members(f))
    requires forall v :: v in Ids(g) ==> v in Ids(f) && Get(g, v).node == Get(f, v).node
    ensures NamesApart(Members(g))
    ensures Members(g) <= Members(f)
  {
    forall p | p in Members(g) ensures p in Members(f) {
      MemberIsGet(g, p);
      assert Get(f, p.uuid).node in Members(f);
    }
  }

  // Removal succeeds exactly for a name or UUID in the forest, and deletes exactly that subtree.
  lemma RemoveFromLaw(f: Forest, search: Id)
    requires Sound(f)
    ensures RemoveFrom(f, search).Some? <==> Exists(f, search)
    ensures RemoveFrom(f, search).Some? ==>
              var u, g := FindWithLock(f, search).value.1.node.uuid, RemoveFrom(f, search).value;
              && u in Ids(f) && Get(f, u).node.Matches(search) && (search in Ids(f) ==> u == search)
              && Sound(g)
              && Members(g) <= Members(f)
              && Table(g) == Table(f) - SubtreeIds(f, u)
  {
    FindWithLockIff(f, None, search);
    if FindWithLock(f, search).Some? {
      FoundIsGet(f, search);
      var found := FindWithLock(f, search).value.1;
      var u := found.node.uuid;
      TopIffParent(f, None, u);
      if found.node.parent.None? {
        DeleteLaw(f, None, u);
      } else {
        var up := found.node.parent.value;
        FindByUuid(f, up);
        RemoveChildLaw(f, up, u);
      }
      var g := RemoveFrom(f, search).value;
      SubsetStaysApart(f, g);
    }
  }

  lemma RemoveChildLaw(f: Forest, up: Id, u: Id)
    requires Sound(f) && u in Ids(f) && up in Ids(f) && Get(f, u).node.parent == Some(up)
    ensures var g := WithKids(f, up, Delete(Get(f, up).kids, u));
            && WellFormed(g, None)
            && Ids(g) == Ids(f) - SubtreeIds(f, u)
            && forall v :: v in Ids(g) ==> Get(g, v).node == Get(f, v).node
  {
    var kids := Get(f, up).kids;
    var newKids := Delete(kids, u);
    var g := WithKids(f, up, newKids);
    GetLaw(f, None, up);
    ChildIffParent(f, None, u, up);
    DeleteLaw(kids, Some(up), u);
    GetGet(f, None, up, u);
    WithKidsWellFormed(f, None, up, newKids);
    forall v
      ensures v in Ids(g) <==> v in Ids(f) && v !in SubtreeIds(f, u)
      ensures v in Ids(g) ==> Get(g, v).node == Get(f, v).node
    {
      WithKidsAt(f, None, up, newKids, v);
      GetLaw(kids, Some(up), u);
      if v in Ids(newKids) {
        GetGet(f, None, up, v);
      }
    }
  }

  // A provider that is not there yet is attached exactly when its parent is there.
  lemma AttachLaw(f: Forest, p: Provider)
    requires Sound(f) && p.uuid !in Ids(f) && p.parent != Some(p.uuid)
    requires NamesApart(Members(f) + {p})
    requires p.parent.Some? ==> forall q :: q in Members(f) && q.name == p.parent.value ==> q.uuid == p.parent.value
    ensures Attach(f, p).Some? <==> p.parent.None? || p.parent.value in Ids(f)
    ensures Attach(f, p).Some? ==>
              var g := Attach(f, p).value;
              && Sound(g)
              && Members(g) <= Members(f) + {p}
              && Table(g) == Table(f)[p.uuid := p]
  {
    if p.parent.None? {
      PutLaw(f, None, p);
    } else {
      var up := p.parent.value;
      FindUuidIff(f, up);
      if up in Ids(f) {
        FindByUuid(f, up);
        PutChildLaw(f, up, p);
      }
    }
    if Attach(f, p).Some? {
      ExtendedStaysApart(f, Attach(f, p).value, p);
    }
  }

  lemma ExtendedStaysApart(f: Forest, g: Forest, p: Provider)
    requires Distinct(f) && Distinct(g) && NamesApart(Members(f) + {p})
    requires forall v :: v in Ids(g) ==>
               if v == p.uuid then Get(g, v).node == p else v in Ids(f) && Get(g, v).node == Get(f, v).node
    ensures NamesApart(Members(g))
    ensures Members(g) <= Members(f) + {p}
  {
    forall q | q in Members(g) ensures q in Members(f) + {p} {
      MemberIsGet(g, q);
      if q.uuid != p.uuid {
        assert Get(f, q.uuid).node in Members(f);
      }
    }
  }

  lemma PutChildLaw(f: Forest, up: Id, p: Provider)
    requires WellFormed(f, None) && up in Ids(f) && p.uuid !in Ids(f) && p.parent == Some(up)
    ensures var g := WithKids(f, up, Put(Get(f, up).kids, p));
            && WellFormed(g, None)
            && Ids(g) == Ids(f) + {p.uuid}
            && Get(g, p.uuid).node == p
            && forall v :: v in Ids(f) ==> Get(g, v).node == Get(f, v).node
  {
    var kids := Get(f, up).kids;
    var newKids := Put(kids, p);
    var g := WithKids(f, up, newKids);
    GetLaw(f, None, up);
    PutLaw(kids, Some(up), p);
    WithKidsWellFormed(f, None, up, newKids);
    forall v
      ensures v in Ids(g) <==> v in Ids(f) || v == p.uuid
      ensures v in Ids(g) ==> Get(g, v).node == if v == p.uuid then p else Get(f, v).node
    {
      WithKidsAt(f, None, up, newKids, v);
      if v in Ids(kids) {
        GetGet(f, None, up, v);
      }
    }
  }
}

/** The class that owns the forest. Every method runs under the tree's lock, so it is one step. */
module ProviderTree {
  import opened Options
  import opened ProviderForest
  import opened ProviderForestProofs
  import opened ProviderSteps
  import opened ProviderPopulate
  import opened ProviderOutcome
  import opened ProviderOrder
  import opened ProviderSchedule
  import opened ProviderListing

  class ProviderTree {
    var roots: Forest

    // UUIDs are unique, dictionary keys are UUIDs, recorded parents are the actual parents (none
    // for a root), and no provider is named like another provider's UUID.
    ghost predicate Valid()
      reads this
    {
      Sound(roots)
    }

    constructor ()
      ensures Valid() && Table(roots) == map[]
    {
      roots := Nil;
    }

    method GetProviderUuids(nameOrUuid: Option<Id>) returns (r: Result<seq<Id>>)
      requires Valid()
      ensures nameOrUuid.None? ==> r == Ok(Uuids(roots))
      ensures nameOrUuid.Some? ==> (r.Ok? <==> Exists(roots, nameOrUuid.value))
      ensures nameOrUuid.Some? && r.Ok? ==>
                exists u :: Denotes(roots, nameOrUuid.value, u) && r.value == SubtreeList(roots, u)
      ensures nameOrUuid.Some? && r.ValueError? ==> r.error == NoSuchProvider(nameOrUuid.value)
    {
      if nameOrUuid.Some? {
        var hit := FindWithLock(roots, nameOrUuid.value);
        FindWithLockIff(roots, None, nameOrUuid.value);
        if hit.None? {
          return ValueError(NoSuchProvider(nameOrUuid.value));
        }
        FoundIsGet(roots, nameOrUuid.value);
        ghost var u := hit.value.1.node.uuid;
        assert Denotes(roots, nameOrUuid.value, u);
        return Ok(ProviderForest.GetProviderUuids(hit.value.1));
      }
      var ret, rest := [], roots;
      while rest.Cons?
        invariant ret + Uuids(rest) == Uuids(roots)
        decreases rest
      {
        ret := ret + ProviderForest.GetProviderUuids(Found(rest.node, rest.kids));
        rest := rest.rest;
      }
      assert ret + [] == ret;
      r := Ok(ret);
    }

    // The whole root tree that contains the provider.
    method GetProviderUuidsInTree(nameOrUuid: Id) returns (r: Result<seq<Id>>)
      requires Valid()
      ensures r.Ok? <==> Exists(roots, nameOrUuid)
      ensures r.ValueError? ==> r.error == NoSuchProvider(nameOrUuid)
      ensures r.Ok? ==>
                exists u, top ::
                  && Denotes(roots, nameOrUuid, u)
                  && OnlyTreeOf(roots, u, top)
                  && r.value == SubtreeList(roots, top)
    {
      var hit := FindWithLock(roots, nameOrUuid);
      FindWithLockIff(roots, None, nameOrUuid);
      if hit.None? {
        return ValueError(NoSuchProvider(nameOrUuid));
      }
      FoundIsGet(roots, nameOrUuid);
      TreeOfFound(roots, None, nameOrUuid);
      ghost var u, top := hit.value.1.node.uuid, hit.value.0.node.uuid;
      assert Denotes(roots, nameOrUuid, u) && OnlyTreeOf(roots, u, top);
      return Ok(ProviderForest.GetProviderUuids(hit.value.0));
    }

    method Remove(nameOrUuid: Id) returns (r: Result<()>)
      requires Valid()
      modifies this
      ensures Valid()
      ensures r.Ok? <==> old(Exists(roots, nameOrUuid))
      ensures r.ValueError? ==> r.error == NoSuchProvider(nameOrUuid) && roots == old(roots)
      ensures r.Ok? ==>
                exists u :: Denotes(old(roots), nameOrUuid, u)
                            && Table(roots) == old(Table(roots)) - SubtreeIds(old(roots), u)
                            && ListedWithout(old(roots), roots, u)
    {
      RemoveFromLaw(roots, nameOrUuid);
      var removed := RemoveFrom(roots, nameOrUuid);
      if removed.None? {
        return ValueError(NoSuchProvider(nameOrUuid));
      }
      assert Denotes(roots, nameOrUuid, FindWithLock(roots, nameOrUuid).value.1.node.uuid);
      RemovalIsListed(roots, nameOrUuid);
      roots := removed.value;
      r := Ok(());
    }

    method NewRoot(name: Id, uuid: Id, generation: Option<int>) returns (r: Result<Id>)
      requires Valid()
      requires !Exists(roots, uuid) ==> NameFits(roots, uuid, name)
      modifies this
      ensures Valid()
      ensures r.Ok? <==> !old(Exists(roots, uuid))
      ensures r.ValueError? ==> r.error == AlreadyExists(uuid) && roots == old(roots)
      ensures r.Ok? ==> r.value == uuid
      ensures r.Ok? ==>
                Table(roots) == old(Table(roots))[uuid := Provider(uuid, name, generation, None, NO_EXTRAS)]
      // A new root comes last.
      ensures r.Ok? ==> Uuids(roots) == old(Uuids(roots)) + [uuid]
    {
      FindWithLockIff(roots, None, uuid);
      if FindWithLock(roots, uuid).Some? {
        return ValueError(AlreadyExists(uuid));
      }
      var p := Provider(uuid, name, generation, None, NO_EXTRAS);
      PresentUuid(roots, uuid);
      NameFitsApart(roots, p);
      AttachLaw(roots, p);
      LookupIffTop(roots, None, uuid);
      PutComesLast(roots, p);
      roots := Put(roots, p);
      r := Ok(uuid);
    }

    // `generated` is the UUID drawn when the caller gives none.
    method NewChild(name: Id, parent: Id, uuid: Option<Id>, generation: Option<int>, generated: Id)
      returns (r: Result<Id>)
      requires Valid()
      requires generated !in Ids(roots)
      requires !Exists(roots, if uuid.Some? then uuid.value else name) ==>
                 NameFits(roots, if uuid.Some? then uuid.value else generated, name)
      modifies this
      ensures Valid()
      ensures var search := if uuid.Some? then uuid.value else name;
              r.Ok? <==> !old(Exists(roots, search)) && old(Exists(roots, parent))
      ensures r.Ok? ==> r.value == if uuid.Some? then uuid.value else generated
      ensures r.ValueError? ==> roots == old(roots)
      ensures var search := if uuid.Some? then uuid.value else name;
              r.ValueError? ==>
                r.error == if old(Exists(roots, search)) then AlreadyExists(search) else NoSuchProvider(parent)
      // The new child comes last below its parent.
      ensures r.Ok? ==>
                exists p :: Denotes(old(roots), parent, p)
                            && Table(roots) ==
                               old(Table(roots))[r.value := Provider(r.value, name, generation, Some(p), NO_EXTRAS)]
                            && ListedLast(old(roots), roots, p, r.value)
    {
      var search := if uuid.Some? then uuid.value else name;
      FindWithLockIff(roots, None, search);
      if FindWithLock(roots, search).Some? {
        return ValueError(AlreadyExists(search));
      }
      FindWithLockIff(roots, None, parent);
      var hit := FindWithLock(roots, parent);
      if hit.None? {
        return ValueError(NoSuchProvider(parent));
      }
      FoundIsGet(roots, parent);
      var owner := hit.value.1;
      var id := if uuid.Some? then uuid.value else generated;
      var p := Provider(id, name, generation, Some(owner.node.uuid), NO_EXTRAS);
      PresentUuid(roots, search);
      NewChildLaw(roots, owner.node.uuid, p);
      assert Denotes(roots, parent, owner.node.uuid);
      PutChildIsLast(roots, owner.node.uuid, p);
      roots := WithKids(roots, owner.node.uuid, Put(owner.kids, p));
      r := Ok(p.uuid);
    }

    // The sanity check for orphans.
    method FindMissingParents(dicts: seq<ProviderDict>, toAdd: map<Id, ProviderDict>) returns (missing: set<Id>)
      requires toAdd == ByUuid(dicts)
      ensures missing == MissingParents(Ids(roots), toAdd)
      ensures missing != {} <==> HasOrphan(roots, Input(dicts))
    {
      var known, rest := {}, roots;
      while rest.Cons?
        invariant known + Ids(rest) == Ids(roots)
        decreases rest
      {
        UuidsAreIds(rest.kids);
        known := known + (set u | u in ProviderForest.GetProviderUuids(Found(rest.node, rest.kids)));
        rest := rest.rest;
      }
      missing := MissingParents(known, toAdd);
      OrphansAreMissing(roots, dicts, missing);
    }

    // Adds or replaces all providers of the input.
    method PopulateFromIterable(dicts: seq<ProviderDict>) returns (r: Result<()>)
      requires Valid()
      requires NamesApart(Members(roots) + Input(dicts).Values)
      modifies this
      ensures Valid()
      // The orphan error, and only it, is raised for an unknown parent; it changes nothing.
      ensures HasOrphan(old(roots), Input(dicts)) <==> r.ValueError? && r.error.ParentsNotFound?
      ensures HasOrphan(old(roots), Input(dicts)) ==>
                roots == old(roots) && r.error.missing == MissingParents(old(Ids(roots)), ByUuid(dicts))
      // For every input: success rules out a cycle, and the "unexpected" error needs one.
      ensures r.Ok? ==> !HasCycle(Input(dicts))
      ensures r.ValueError? && r.error.UnexpectedlyFailed? ==> HasCycle(Input(dicts))
      // That error names exactly the entries that are not placed, none of which may be picked.
      ensures r.ValueError? && r.error.UnexpectedlyFailed? ==>
                && r.error.left <= Input(dicts).Keys && Strays(old(roots), Input(dicts), r.error.left, roots)
                && r.error.left != {} && forall u :: u in r.error.left ==> !Pickable(Input(dicts), r.error.left, u)
      // For every input: a success leaves the surviving providers and the grounded entries, and no
      // outcome loses a provider without named ancestors.
      ensures r.Ok? ==> Table(roots) == Outcome(old(roots), Input(dicts))
      ensures forall k :: Survives(old(roots), Input(dicts).Keys, k) ==>
                k in Table(roots) && Table(roots)[k] == old(Table(roots))[k]
      // Every record is an old or a stated one. When the look-up of a parent fails, the entry in turn has
      // been removed already, and neither it nor the parent is left.
      ensures OnlyKnown(old(roots), Input(dicts), roots)
      ensures r.ValueError? && r.error.NoSuchProvider? ==>
                exists left, u ::
                  && left <= Input(dicts).Keys && LeftByFailure(old(roots), Input(dicts), left, roots, u)
                  && Input(dicts)[u].parent == Some(r.error.search)
      // With every entry grounded it succeeds; otherwise some order of picks fails.
      ensures !HasOrphan(old(roots), Input(dicts)) && !r.Ok? ==>
                !AllGrounded(old(roots), Input(dicts)) && CanFail(Input(dicts), Input(dicts).Keys, old(roots))
      // With entries that wait for each other it fails; otherwise some order of picks succeeds.
      ensures r.Ok? ==>
                !HasDeadlock(old(roots), Input(dicts)) && CanSucceed(Input(dicts), Input(dicts).Keys, old(roots))
      // A success overrides the old table with the input exactly when the input is closed.
      ensures r.Ok? ==>
                (Table(roots) == old(Table(roots)) + Input(dicts) <==> Closed(old(roots), Input(dicts).Keys))
      // For a closed input without orphans there is no other outcome ...
      ensures Closed(old(roots), Input(dicts).Keys) && !HasOrphan(old(roots), Input(dicts)) ==>
                r.Ok? || r.error.UnexpectedlyFailed?
      // ... every entry is there after a success, with the stated name, generation and parent ...
      ensures Closed(old(roots), Input(dicts).Keys) && r.Ok? ==>
                forall d :: d in ByUuid(dicts).Values ==>
                  && d.uuid in Table(roots)
                  && Table(roots)[d.uuid] == Provider(d.uuid, d.name, d.generation, d.parentUuid, NO_EXTRAS)
      // ... and after a failure everything outside the reported entries is already in place.
      ensures Closed(old(roots), Input(dicts).Keys) && r.ValueError? && r.error.UnexpectedlyFailed? ==>
                Progress(old(roots), Input(dicts), r.error.left, roots)
    {
      ghost var f0, input := roots, Input(dicts);
      var toAdd := ByUuid(dicts);
      StartOfRounds(f0, dicts);
      SaneIsKnown(f0, input, roots);
      if dicts == [] {
        EndOfRounds(f0, input, roots);
        return Ok(());
      }
      var missing := FindMissingParents(dicts, toAdd);
      SurvivorsAreThere(f0, input, toAdd.Keys, roots);
      if missing != {} {
        return ValueError(ParentsNotFound(missing));
      }
      while toAdd != map[]
        invariant forall u :: u in toAdd ==> u in input && FromDict(toAdd[u]) == input[u]
        invariant Round(f0, input, toAdd.Keys, roots)
        decreases toAdd.Keys
      {
        var ready := Ready(toAdd);
        SaneIsKnown(f0, input, roots);
        SurvivorsAreThere(f0, input, toAdd.Keys, roots);
        if ready == {} {
          NothingReady(input, toAdd);
          CycleIsNotAllGrounded(f0, input);
          CanFailIff(f0, input);
          return ValueError(UnexpectedlyFailed(toAdd.Keys));
        }
        var uuid :| uuid in ready;
        var provider := FromDict(toAdd[uuid]);
        RoundLaw(f0, input, toAdd.Keys, roots, uuid);
        ghost var before := roots;
        roots := Uprooted(roots, uuid);
        var next := Attach(roots, provider);
        if next.None? {
          CanFailIff(f0, input);
          RoundFails(f0, input, toAdd.Keys, before, uuid);
          return ValueError(NoSuchProvider(provider.parent.value));
        }
        roots := next.value;
        toAdd := toAdd - {uuid};
      }
      assert toAdd.Keys == {};
      SaneIsKnown(f0, input, roots);
      EndOfRounds(f0, input, roots);
      r := Ok(());
    }
  }

  lemma RemovalIsListed(f: Forest, search: Id)
    requires Sound(f) && RemoveFrom(f, search).Some?
    ensures var u := FindWithLock(f, search).value.1.node.uuid;
            u in Ids(f) && ListedWithout(f, RemoveFrom(f, search).value, u)
  {
    FoundIsGet(f, search);
    var found := FindWithLock(f, search).value.1;
    var u := found.node.uuid;
    TopIffParent(f, None, u);
    if found.node.parent.None? {
      var a, b := DeleteTakesBlock(f, None, u);
    } else {
      var up := found.node.parent.value;
      FindByUuid(f, up);
      ChildIffParent(f, None, u, up);
      RemoveChildTakesBlock(f, up, u);
    }
  }

  // `top` is a root, and u lies in its tree and in no other root's tree.
  ghost predicate OnlyTreeOf(f: Forest, u: Id, top: Id) {
    && top in Ids(f) && Lookup(f, top).Some? && u in SubtreeIds(f, top)
    && forall v :: v in Ids(f) && Lookup(f, v).Some? && u in SubtreeIds(f, v) ==> v == top
  }

  lemma {:induction false} RootTreesAreApart(f: Forest, parent: Option<Id>, u: Id, top: Id, v: Id)
    requires WellFormed(f, parent)
    requires top in Ids(f) && Lookup(f, top).Some? && u in SubtreeIds(f, top)
    requires v in Ids(f) && Lookup(f, v).Some? && u in SubtreeIds(f, v)
    ensures v == top
  {
    var Cons(_, n, kids, rest) := f;
    LookupIffTop(rest, parent, top);
    LookupIffTop(rest, parent, v);
    if top in Ids(rest) {
      GetLaw(rest, parent, top);
    }
    if v in Ids(rest) {
      GetLaw(rest, parent, v);
    }
    if n.uuid != top && n.uuid != v {
      RootTreesAreApart(rest, parent, u, top, v);
    }
  }

  lemma {:induction false} RootOfFind(f: Forest, parent: Option<Id>, search: Id)
    requires WellFormed(f, parent) && FindWithLock(f, search).Some?
    ensures var (root, found) := FindWithLock(f, search).value;
            && root.node.uuid in Ids(f)
            && Lookup(f, root.node.uuid) == Some(root)
            && root == Get(f, root.node.uuid)
            && found.node in {root.node} + Members(root.kids)
  {
    var Cons(_, n, kids, rest) := f;
    FindIff(n, kids, search);
    if Find(n, kids, search).None? {
      RootOfFind(rest, parent, search);
    }
  }

  lemma TreeOfFound(f: Forest, parent: Option<Id>, search: Id)
    requires WellFormed(f, parent) && FindWithLock(f, search).Some?
    ensures var (root, found) := FindWithLock(f, search).value;
            && OnlyTreeOf(f, found.node.uuid, root.node.uuid)
            && GetProviderUuids(root) == SubtreeList(f, root.node.uuid)
  {
    RootOfFind(f, parent, search);
    var (root, found) := FindWithLock(f, search).value;
    var top, u := root.node.uuid, found.node.uuid;
    GetLaw(f, parent, top);
    if found.node in Members(root.kids) {
      MemberIsGet(root.kids, found.node);
    }
    forall v | v in Ids(f) && Lookup(f, v).Some? && u in SubtreeIds(f, v) ensures v == top {
      RootTreesAreApart(f, parent, u, top, v);
    }
  }

  // The search names this provider.
  ghost predicate Denotes(f: Forest, search: Id, u: Id) {
    u in Ids(f) && Get(f, u).node.Matches(search)
  }

  // The name and UUID of a new provider do not collide with those of another one.
  ghost predicate NameFits(f: Forest, uuid: Id, name: Id) {
    forall q :: q in Members(f) && (q.name == uuid || name == q.uuid) ==> q.uuid == uuid
  }

  lemma NameFitsApart(f: Forest, p: Provider)
    requires NamesApart(Members(f)) && NameFits(f, p.uuid, p.name)
    ensures NamesApart(Members(f) + {p})
  {
  }

  lemma NewChildLaw(f: Forest, up: Id, p: Provider)
    requires Sound(f) && up in Ids(f) && p.uuid !in Ids(f) && p.parent == Some(up)
    requires NameFits(f, p.uuid, p.name)
    ensures var g := WithKids(f, up, Put(Get(f, up).kids, p));
            Sound(g) && Table(g) == Table(f)[p.uuid := p]
  {
    PutChildLaw(f, up, p);
    NameFitsApart(f, p);
    ExtendedStaysApart(f, WithKids(f, up, Put(Get(f, up).kids, p)), p);
  }

  lemma PresentUuid(f: Forest, u: Id)
    ensures u in Ids(f) ==> Exists(f, u)
  {
    if u in Ids(f) {
      assert Get(f, u).node.Matches(u);
    }
  }

  lemma OrphansAreMissing(f: Forest, dicts: seq<ProviderDict>, missing: set<Id>)
    requires missing == MissingParents(Ids(f), ByUuid(dicts))
    ensures missing != {} <==> HasOrphan(f, Input(dicts))
  {
    var toAdd, input := ByUuid(dicts), Input(dicts);
    forall u | u in toAdd ensures !ParentKnown(f, input, input[u]) ==> toAdd[u].parentUuid.value in missing {
      assert input[u].parent == toAdd[u].parentUuid;
    }
    if missing != {} {
      var m :| m in missing;
      var u :| u in toAdd && toAdd[u].parentUuid == Some(m);
      assert !ParentKnown(f, input, input[u]);
    }
  }

  /******* The loop of the bulk routine *******/

  ghost predicate CyclesAreLeft(input: map<Id, Provider>, left: set<Id>) {
    forall c :: IsCycle(input, c) ==> forall i :: 0 <= i < |c| ==> c[i] in left
  }

  // Between two rounds.
  ghost predicate Round(f0: Forest, input: map<Id, Provider>, left: set<Id>, f: Forest) {
    && left <= input.Keys
    && Sane(f0, input, f)
    && CyclesAreLeft(input, left)
    && Strays(f0, input, left, f)
    && (Closed(f0, input.Keys) ==> Progress(f0, input, left, f))
    && Reached(f0, input, left, f)
  }

  // An order that succeeds from here is the rest of one that succeeds from the start.
  ghost predicate Reached(f0: Forest, input: map<Id, Provider>, left: set<Id>, f: Forest)
    requires left <= input.Keys
  {
    CanSucceed(input, left, f) ==> CanSucceed(input, input.Keys, f0)
  }

  lemma NextReached(f0: Forest, input: map<Id, Provider>, left: set<Id>, f: Forest, u: Id)
    requires left <= input.Keys && Pickable(input, left, u) && AddOrReplace(f, input[u]).Some?
    requires Reached(f0, input, left, f)
    ensures Reached(f0, input, left - {u}, AddOrReplace(f, input[u]).value)
  {
    if CanSucceed(input, left - {u}, AddOrReplace(f, input[u]).value) {
      assert SucceedsFrom(input, left, f, u);
    }
  }

  lemma StartOfRounds(f0: Forest, dicts: seq<ProviderDict>)
    requires Sound(f0) && NamesApart(Members(f0) + Input(dicts).Values)
    ensures Names(f0, Input(dicts))
    ensures Round(f0, Input(dicts), ByUuid(dicts).Keys, f0)
    ensures forall u :: u in ByUuid(dicts) ==> u in Input(dicts) && FromDict(ByUuid(dicts)[u]) == Input(dicts)[u]
  {
    assert Input(dicts).Keys == ByUuid(dicts).Keys;
    StartOfStrays(f0, Input(dicts));
    if Closed(f0, Input(dicts).Keys) {
      StartOfProgress(f0, Input(dicts));
    }
  }

  lemma RoundLaw(f0: Forest, input: map<Id, Provider>, left: set<Id>, f: Forest, u: Id)
    requires Names(f0, input) && !HasOrphan(f0, input) && Round(f0, input, left, f)
    requires u in left && (input[u].parent.Some? ==> input[u].parent.value !in left)
    ensures AddOrReplace(f, input[u]).Some? ==> Round(f0, input, left - {u}, AddOrReplace(f, input[u]).value)
    ensures AddOrReplace(f, input[u]).None? ==> input[u].parent.Some? && !Closed(f0, input.Keys)
    ensures AddOrReplace(f, input[u]).None? ==> !AllGrounded(f0, input)
  {
    assert ParentKnown(f0, input, input[u]);
    RoundKeepsSane(f0, input, f, u);
    RoundKeepsStrays(f0, input, left, f, u);
    if AddOrReplace(f, input[u]).Some? {
      NextReached(f0, input, left, f, u);
    }
    hide Sane, Strays, Progress, Names, Closed, Grounded, Reached;
    if Closed(f0, input.Keys) {
      RoundKeepsProgress(f0, input, left, f, u);
    }
    forall c | IsCycle(input, c) ensures forall i :: 0 <= i < |c| ==> c[i] in left - {u} {
      CycleStaysLeft(input, c, left, u);
    }
  }

  // A round that raises keeps the removal.
  lemma RoundFails(f0: Forest, input: map<Id, Provider>, left: set<Id>, f: Forest, u: Id)
    requires Names(f0, input) && !HasOrphan(f0, input) && Round(f0, input, left, f)
    requires u in left && (input[u].parent.Some? ==> input[u].parent.value !in left)
    requires AddOrReplace(f, input[u]).None?
    ensures var g := Uprooted(f, u);
            && Sound(g) && OnlyKnown(f0, input, g) && LeftByFailure(f0, input, left, g, u)
            && forall k :: Survives(f0, input.Keys, k) ==> k in Table(g) && Table(g)[k] == Table(f0)[k]
  {
    assert ParentKnown(f0, input, input[u]);
    FailedRound(f0, input, left, f, u);
    var g := Uprooted(f, u);
    SaneIsKnown(f0, input, g);
    hide Sane, Strays, Progress, Names, Closed, Grounded, Reached;
    forall k | Survives(f0, input.Keys, k) ensures k in Table(g) && Table(g)[k] == Table(f0)[k] {
      if k in input {
        NamedDoNotSurvive(f0, input.Keys, k);
      }
    }
  }

  // The entries that may be injected now: roots, and those whose parent is not still to be added.
  function Ready(toAdd: map<Id, ProviderDict>): set<Id> {
    set u | u in toAdd && (toAdd[u].parentUuid.None? || toAdd[u].parentUuid.value !in toAdd)
  }

  lemma NothingReady(input: map<Id, Provider>, toAdd: map<Id, ProviderDict>)
    requires forall u :: u in toAdd ==> u in input && FromDict(toAdd[u]) == input[u]
    requires toAdd != map[] && Ready(toAdd) == {}
    ensures HasCycle(input)
    ensures toAdd.Keys != {}
    ensures forall u :: u in toAdd.Keys ==> input[u].parent.Some? && input[u].parent.value in toAdd.Keys
  {
    assert toAdd.Keys != {};
    forall u | u in toAdd.Keys ensures input[u].parent.Some? && input[u].parent.value in toAdd.Keys {
      assert u !in Ready(toAdd) && FromDict(toAdd[u]) == input[u];
    }
    StuckHasCycle(input, toAdd.Keys);
  }

  lemma CycleHasMember(input: map<Id, Provider>, c: seq<Id>, left: set<Id>)
    requires IsCycle(input, c) && CyclesAreLeft(input, left)
    ensures left != {}
  {
    assert c[0] in left;
  }

  lemma EndOfRounds(f0: Forest, input: map<Id, Provider>, f: Forest)
    requires Round(f0, input, {}, f) && Names(f0, input) && !HasOrphan(f0, input)
    ensures !HasCycle(input)
    ensures CanSucceed(input, input.Keys, f0) && !HasDeadlock(f0, input)
    ensures Table(f) == Outcome(f0, input)
    ensures Table(f) == Table(f0) + input <==> Closed(f0, input.Keys)
    ensures forall k :: Survives(f0, input.Keys, k) ==> k in Table(f) && Table(f)[k] == Table(f0)[k]
  {
    CanSucceedIff(f0, input);
    hide HasDeadlock;
    SurvivorsAreThere(f0, input, {}, f);
    EndIsOutcome(f0, input, f);
    if Table(f) == Table(f0) + input {
      OverrideNeedsClosed(f0, input);
    }
    if HasCycle(input) {
      var c :| IsCycle(input, c);
      CycleHasMember(input, c, {});
    }
    if Closed(f0, input.Keys) {
      DoneIsOverride(f0, input, f);
    }
  }

  lemma DoneIsOverride(f0: Forest, input: map<Id, Provider>, f: Forest)
    requires Progress(f0, input, {}, f)
    ensures Table(f) == Table(f0) + input
  {
    forall k ensures k in Table(f) <==> k in Table(f0) + input {
      assert Settled(f0, input, {}, f, k);
    }
    forall k | k in Table(f) ensures Table(f)[k] == (Table(f0) + input)[k] {
      assert Settled(f0, input, {}, f, k);
    }
  }
}

/** The provider forest: its data, the read-only traversals, and the elementary dictionary updates.

    A `Forest` is a Python dictionary of providers in insertion order. Each provider in it owns
    another such dictionary, its children. The list of roots has the same shape; the key of a root
    is its own UUID.
 */
module ProviderForest {
  import opened Options

  // Providers are looked up by "name or UUID", so both are plain non-empty strings.
  type Id = string

  datatype Extras = Extras(
    inventory: map<string, map<string, int>>,
    traits: set<string>,
    aggregates: set<string>)

  const NO_EXTRAS := Extras(map[], {}, {})

  datatype Provider = Provider(
    uuid: Id,
    name: Id,
    generation: Option<int>,
    parent: Option<Id>,
    extras: Extras)
  {
    predicate Matches(search: Id) {
      name == search || uuid == search
    }
  }

  datatype Forest = Nil | Cons(key: Id, node: Provider, kids: Forest, rest: Forest)

  // A provider together with its children, as `find` returns it.
  datatype Found = Found(node: Provider, kids: Forest)

  /******* Traversals of the source *******/

  // Top-down list of the UUIDs of all providers.
  function Uuids(f: Forest): seq<Id> {
    match f
    case Nil => []
    case Cons(_, n, kids, rest) => [n.uuid] + Uuids(kids) + Uuids(rest)
  }

  function GetProviderUuids(p: Found): seq<Id> {
    [p.node.uuid] + Uuids(p.kids)
  }

  // `search in self.children` followed by `self.children[search]`
  function Lookup(f: Forest, key: Id): Option<Found> {
    match f
    case Nil => None
    case Cons(k, n, kids, rest) => if k == key then Some(Found(n, kids)) else Lookup(rest, key)
  }

  function Find(n: Provider, kids: Forest, search: Id): Option<Found>
    decreases kids, 1
  {
    if n.Matches(search) then Some(Found(n, kids))
    else
      var direct := Lookup(kids, search);
      if direct.Some? then direct else FindInKids(kids, search)
  }

  // The loop over the children in `find`.
  function FindInKids(f: Forest, search: Id): Option<Found>
    decreases f, 0
  {
    match f
    case Nil => None
    case Cons(_, n, kids, rest) =>
      if n.name == search then Some(Found(n, kids))
      else
        var sub := Find(n, kids, search);
        if sub.Some? then sub else FindInKids(rest, search)
  }

  // The loop over the roots in `_find_with_lock`: the root tree that has a match, and the match.
  function FindWithLock(roots: Forest, search: Id): Option<(Found, Found)> {
    match roots
    case Nil => None
    case Cons(_, n, kids, rest) =>
      var found := Find(n, kids, search);
      if found.Some? then Some((Found(n, kids), found.value)) else FindWithLock(rest, search)
  }

  /******* Updates of one dictionary *******/

  // `del self.children[key]` when the key is present; also `self.roots.remove(found)`.
  function Delete(f: Forest, key: Id): Forest {
    match f
    case Nil => Nil
    case Cons(k, n, kids, rest) => if k == key then rest else Cons(k, n, kids, Delete(rest, key))
  }

  // `self.children[p.uuid] = p` for a provider p without children; also `self.roots.append(p)`.
  function Put(f: Forest, p: Provider): Forest {
    match f
    case Nil => Cons(p.uuid, p, Nil, Nil)
    case Cons(k, n, kids, rest) =>
      if k == p.uuid then Cons(k, p, Nil, rest) else Cons(k, n, kids, Put(rest, p))
  }

  // The forest after the children dictionary of the provider with this UUID was changed in place.
  function WithKids(f: Forest, u: Id, newKids: Forest): Forest {
    match f
    case Nil => Nil
    case Cons(k, n, kids, rest) =>
      if n.uuid == u then Cons(k, n, newKids, rest)
      else Cons(k, n, WithKids(kids, u, newKids), WithKids(rest, u, newKids))
  }

  /******* What a forest means *******/

  ghost function Ids(f: Forest): set<Id> {
    match f
    case Nil => {}
    case Cons(_, n, kids, rest) => {n.uuid} + Ids(kids) + Ids(rest)
  }

  ghost function Members(f: Forest): set<Provider> {
    match f
    case Nil => {}
    case Cons(_, n, kids, rest) => {n} + Members(kids) + Members(rest)
  }

  // The provider with this UUID, with its children.
  ghost function Get(f: Forest, u: Id): (r: Found)
    requires u in Ids(f)
    ensures r.node.uuid == u && r.node in Members(f)
  {
    var Cons(_, n, kids, rest) := f;
    if n.uuid == u then Found(n, kids)
    else if u in Ids(kids) then Get(kids, u)
    else Get(rest, u)
  }

  // The forest as a table from UUIDs to provider records.
  ghost function Table(f: Forest): map<Id, Provider> {
    map u | u in Ids(f) :: Get(f, u).node
  }

  // A provider and all its descendants.
  ghost function SubtreeIds(f: Forest, u: Id): set<Id>
    requires u in Ids(f)
  {
    {u} + Ids(Get(f, u).kids)
  }

  ghost predicate Distinct(f: Forest) {
    match f
    case Nil => true
    case Cons(_, n, kids, rest) =>
      && n.uuid !in Ids(kids) + Ids(rest)
      && Ids(kids) !! Ids(rest)
      && Distinct(kids) && Distinct(rest)
  }

  // Every dictionary key is the UUID of its provider and every recorded parent is the actual one.
  ghost predicate Placed(f: Forest, parent: Option<Id>) {
    match f
    case Nil => true
    case Cons(k, n, kids, rest) =>
      && k == n.uuid
      && n.parent == parent
      && Placed(kids, Some(n.uuid))
      && Placed(rest, parent)
  }

  ghost predicate WellFormed(f: Forest, parent: Option<Id>) {
    && Distinct(f)
    && Placed(f, parent)
    && (parent.Some? ==> parent.value !in Ids(f))
  }

  // No provider is named like the UUID of another provider.
  ghost predicate NamesApart(ps: set<Provider>) {
    forall p, q {:trigger NamedLike(p, q)} :: p in ps && q in ps && NamedLike(p, q) ==> p.uuid == q.uuid
  }

  ghost predicate NamedLike(p: Provider, q: Provider) {
    p.name == q.uuid
  }

  // All providers in top-down order, each with its children.
  ghost function Preorder(f: Forest): seq<Found> {
    match f
    case Nil => []
    case Cons(_, n, kids, rest) => [Found(n, kids)] + Preorder(kids) + Preorder(rest)
  }

  ghost function FirstMatch(s: seq<Found>, search: Id): Option<Found> {
    if s == [] then None
    else if s[0].node.Matches(search) then Some(s[0])
    else FirstMatch(s[1..], search)
  }
}

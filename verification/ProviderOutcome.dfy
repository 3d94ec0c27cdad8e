/** What the bulk routine leaves behind for every input, also one that does not name all
    descendants: the table on success is a function of the old forest and the input alone. */
module ProviderOutcome {
  import opened Options
  import opened ProviderForest
  import opened ProviderForestProofs
  import opened ProviderSteps
  import opened ProviderPopulate

  // A provider of the old forest such that the input names neither it nor an ancestor of it.
  ghost predicate Survives(f0: Forest, named: set<Id>, k: Id) {
    k in Ids(f0) && forall u :: u in named && u in Ids(f0) ==> k !in SubtreeIds(f0, u)
  }

  // A chain of input entries, each the stated child of the next, that ends at a root or below a
  // surviving provider.
  ghost predicate Grounds(f0: Forest, input: map<Id, Provider>, path: seq<Id>) {
    && path != []
    && (forall i :: 0 <= i < |path| ==> path[i] in input)
    && (forall i :: 0 <= i < |path| - 1 ==> input[path[i]].parent == Some(path[i + 1]))
    && RootOrSurvivor(f0, input, input[path[|path| - 1]].parent)
  }

  ghost predicate RootOrSurvivor(f0: Forest, input: map<Id, Provider>, parent: Option<Id>) {
    parent.None? || Survives(f0, input.Keys, parent.value)
  }

  ghost predicate Grounded(f0: Forest, input: map<Id, Provider>, k: Id) {
    exists path :: Grounds(f0, input, path) && path[0] == k
  }

  ghost predicate Stays(f0: Forest, input: map<Id, Provider>, k: Id) {
    if k in input then Grounded(f0, input, k) else Survives(f0, input.Keys, k)
  }

  // The surviving providers with their records, and the grounded input entries.
  ghost function Outcome(f0: Forest, input: map<Id, Provider>): map<Id, Provider> {
    map k | k in Ids(f0) + input.Keys && Stays(f0, input, k) :: if k in input then input[k] else Get(f0, k).node
  }

  /******* Survivors and grounded entries *******/

  lemma NamedDoNotSurvive(f0: Forest, named: set<Id>, k: Id)
    requires k in named
    ensures !Survives(f0, named, k)
  {
    if k in Ids(f0) {
      assert k in SubtreeIds(f0, k);
    }
  }

  lemma ParentSurvives(f0: Forest, named: set<Id>, k: Id)
    requires WellFormed(f0, None) && Survives(f0, named, k) && Get(f0, k).node.parent.Some?
    ensures Survives(f0, named, Get(f0, k).node.parent.value)
  {
    var p := Get(f0, k).node.parent.value;
    ParentIsAbove(f0, None, k);
    forall u | u in named && u in Ids(f0) ensures p !in SubtreeIds(f0, u) {
      if p in SubtreeIds(f0, u) {
        BelowIsBelow(f0, u, p, k);
      }
    }
  }

  lemma BelowIsBelow(f0: Forest, u: Id, p: Id, k: Id)
    requires WellFormed(f0, None) && u in Ids(f0) && p in SubtreeIds(f0, u)
    requires p in Ids(f0) && k in Ids(Get(f0, p).kids)
    ensures k in SubtreeIds(f0, u)
  {
    if p != u {
      GetGet(f0, None, u, p);
      GetLaw(f0, None, u);
      GetLaw(Get(f0, u).kids, Some(u), p);
    }
  }

  lemma ParentGrounded(f0: Forest, input: map<Id, Provider>, k: Id)
    requires Grounded(f0, input, k)
    ensures k in input
    ensures input[k].parent.Some? ==> Stays(f0, input, input[k].parent.value)
  {
    var path :| Grounds(f0, input, path) && path[0] == k;
    var up := input[k].parent;
    if up.Some? {
      if |path| == 1 {
        if up.value in input {
          NamedDoNotSurvive(f0, input.Keys, up.value);
        }
      } else {
        assert up == Some(path[1]);
        assert Grounds(f0, input, path[1..]) && path[1..][0] == path[1];
      }
    }
  }

  lemma GroundedChild(f0: Forest, input: map<Id, Provider>, k: Id)
    requires k in input && (input[k].parent.Some? ==> Stays(f0, input, input[k].parent.value))
    ensures Grounded(f0, input, k)
  {
    var up := input[k].parent;
    if up.Some? && up.value in input {
      var path :| Grounds(f0, input, path) && path[0] == up.value;
      var longer := [k] + path;
      forall i | 0 <= i < |longer| - 1 ensures input[longer[i]].parent == Some(longer[i + 1]) {
        assert i > 0 ==> longer[i] == path[i - 1] && longer[i + 1] == path[i];
      }
      assert Grounds(f0, input, longer) && longer[0] == k;
    } else {
      assert Grounds(f0, input, [k]);
    }
  }

  // No entry of a cycle is grounded.
  lemma {:induction false} CycleIsGroundless(f0: Forest, input: map<Id, Provider>, c: seq<Id>, path: seq<Id>, i: nat)
    requires IsCycle(input, c) && i < |c| && Grounds(f0, input, path) && path[0] == c[i]
    ensures false
    decreases |path|
  {
    var next := if i + 1 == |c| then 0 else i + 1;
    assert input[c[i]].parent == Some(c[next]) && c[next] in input;
    if |path| == 1 {
      NamedDoNotSurvive(f0, input.Keys, c[next]);
    } else {
      assert Grounds(f0, input, path[1..]);
      CycleIsGroundless(f0, input, c, path[1..], next);
    }
  }

  lemma AllGroundedHasNoCycle(f0: Forest, input: map<Id, Provider>)
    requires forall u :: u in input ==> Grounded(f0, input, u)
    ensures !HasCycle(input)
  {
    if HasCycle(input) {
      var c :| IsCycle(input, c);
      assert c[0] in input && Grounded(f0, input, c[0]);
      var path :| Grounds(f0, input, path) && path[0] == c[0];
      CycleIsGroundless(f0, input, c, path, 0);
    }
  }

  /******* What holds between two rounds, whatever the input *******/

  ghost predicate StrayAt(f0: Forest, input: map<Id, Provider>, left: set<Id>, f: Forest, k: Id) {
    && (k in Ids(f) && k !in input ==>
          && k in Ids(f0) && Get(f, k).node == Get(f0, k).node
          && (Get(f, k).node.parent.Some? && Get(f, k).node.parent.value in input ==>
                Get(f, k).node.parent.value in left))
    && (k in Ids(f) && k in input && k !in left ==> Get(f, k).node == input[k])
    && (k in input && k !in left && input[k].parent.Some? ==> input[k].parent.value !in left)
    && (k !in left && Stays(f0, input, k) ==> k in Ids(f))
  }

  ghost predicate Strays(f0: Forest, input: map<Id, Provider>, left: set<Id>, f: Forest) {
    forall k {:trigger StrayAt(f0, input, left, f, k)} :: StrayAt(f0, input, left, f, k)
  }

  lemma StartOfStrays(f0: Forest, input: map<Id, Provider>)
    ensures Strays(f0, input, input.Keys, f0)
  {
  }

  // The providers that must stay are never under one that is still to be replaced.
  lemma StayingIsUpwardClosed(f0: Forest, input: map<Id, Provider>, left: set<Id>, f: Forest, gone: set<Id>)
    requires Sound(f0) && Sound(f) && Strays(f0, input, left, f) && left <= input.Keys
    requires forall k :: k in gone <==> k in Ids(f) && (k in left || !Stays(f0, input, k))
    ensures UpwardClosed(f, gone)
  {
    forall k | k in Ids(f) && k !in gone
      ensures Get(f, k).node.parent.None? || Get(f, k).node.parent.value !in gone
    {
      assert StrayAt(f0, input, left, f, k);
      var up := Get(f, k).node.parent;
      if up.Some? {
        if k in input {
          ParentGrounded(f0, input, k);
        } else {
          ParentSurvives(f0, input.Keys, k);
          if up.value in input {
            NamedDoNotSurvive(f0, input.Keys, up.value);
          }
        }
      }
    }
  }

  ghost function Gone(f0: Forest, input: map<Id, Provider>, left: set<Id>, f: Forest): set<Id> {
    set k | k in Ids(f) && (k in left || !Stays(f0, input, k))
  }

  // One round keeps it, and succeeds for a grounded entry.
  lemma RoundKeepsStrays(f0: Forest, input: map<Id, Provider>, left: set<Id>, f: Forest, u: Id)
    requires Names(f0, input) && Sane(f0, input, f) && Strays(f0, input, left, f)
    requires u in left && left <= input.Keys && ParentKnown(f0, input, input[u])
    requires input[u].parent.Some? ==> input[u].parent.value !in left
    ensures Grounded(f0, input, u) ==> AddOrReplace(f, input[u]).Some?
    ensures AddOrReplace(f, input[u]).Some? ==> Strays(f0, input, left - {u}, AddOrReplace(f, input[u]).value)
  {
    var g := RemoveUuid(f0, input, f, u);
    var gone := Gone(f0, input, left, f);
    StayingIsUpwardClosed(f0, input, left, f, gone);
    if u in Ids(f) {
      SubtreeIsLeft(f, u, gone);
    }
    assert u !in Table(g);
    AttachUuid(f0, input, g, u);
    if Grounded(f0, input, u) && input[u].parent.Some? {
      var up := input[u].parent.value;
      ParentGrounded(f0, input, u);
      assert StrayAt(f0, input, left, f, up);
      assert up in Table(g);
    }
    if Attach(g, input[u]).Some? {
      var h := Attach(g, input[u]).value;
      forall k ensures StrayAt(f0, input, left - {u}, h, k) {
        StrayRound(f0, input, left, f, g, h, u, k);
      }
    }
  }

  // What a round leaves that raises: the entry is gone as well as its stated parent; the others that
  // must stay are there.
  ghost predicate LeftByFailure(f0: Forest, input: map<Id, Provider>, left: set<Id>, g: Forest, u: Id) {
    && u in left && u in input && input[u].parent.Some?
    && u !in Ids(g) && input[u].parent.value !in Ids(g)
    && (forall k :: k !in left && Stays(f0, input, k) ==> k in Ids(g))
    && forall k :: k in Ids(g) && k !in left ==>
         if k in input then Get(g, k).node == input[k] else k in Ids(f0) && Get(g, k).node == Get(f0, k).node
  }

  lemma FailedRound(f0: Forest, input: map<Id, Provider>, left: set<Id>, f: Forest, u: Id)
    requires Names(f0, input) && Sane(f0, input, f) && Strays(f0, input, left, f)
    requires u in left && left <= input.Keys && ParentKnown(f0, input, input[u])
    requires input[u].parent.Some? ==> input[u].parent.value !in left
    requires AddOrReplace(f, input[u]).None?
    ensures Sane(f0, input, Uprooted(f, u)) && LeftByFailure(f0, input, left, Uprooted(f, u), u)
  {
    var g := RemoveUuid(f0, input, f, u);
    var gone := Gone(f0, input, left, f);
    StayingIsUpwardClosed(f0, input, left, f, gone);
    if u in Ids(f) {
      SubtreeIsLeft(f, u, gone);
    }
    assert u !in Table(g);
    AttachUuid(f0, input, g, u);
    forall k
      ensures k in Ids(g) ==> k in Ids(f) && Get(g, k).node == Get(f, k).node
      ensures k in Ids(f) && k !in gone ==> k in Ids(g)
    {
      assert k in Ids(g) <==> k in Table(g);
      assert k in Table(g) ==> Table(g)[k] == Table(f)[k];
      assert k in Ids(f) <==> k in Table(f);
    }
    forall k | k !in left
      ensures Stays(f0, input, k) ==> k in Ids(g)
      ensures k in Ids(g) ==> (k in input ==> Get(g, k).node == input[k]) &&
                              (k !in input ==> k in Ids(f0) && Get(g, k).node == Get(f0, k).node)
    {
      assert StrayAt(f0, input, left, f, k);
    }
  }

  // In every outcome a record is the old one or the stated one.
  ghost predicate OnlyKnown(f0: Forest, input: map<Id, Provider>, f: Forest) {
    forall k :: k in Table(f) ==>
      (k in Table(f0) && Table(f)[k] == Table(f0)[k]) || (k in input && Table(f)[k] == input[k])
  }

  lemma SaneIsKnown(f0: Forest, input: map<Id, Provider>, f: Forest)
    requires Names(f0, input) && Sane(f0, input, f)
    ensures OnlyKnown(f0, input, f)
  {
    forall k | k in Table(f)
      ensures (k in Table(f0) && Table(f)[k] == Table(f0)[k]) || (k in input && Table(f)[k] == input[k])
    {
      var p := Get(f, k).node;
      assert p in Members(f0) + input.Values;
      if p in Members(f0) {
        MemberIsGet(f0, p);
      }
    }
  }

  lemma StrayRound(f0: Forest, input: map<Id, Provider>, left: set<Id>, f: Forest, g: Forest, h: Forest, u: Id, k: Id)
    requires Strays(f0, input, left, f) && u in left && left <= input.Keys && WellFormed(g, None)
    requires Table(g) == if u in Ids(f) then Table(f) - SubtreeIds(f, u) else Table(f)
    requires u in Ids(f) ==> SubtreeIds(f, u) <= Gone(f0, input, left, f)
    requires Table(h) == Table(g)[u := input[u]]
    requires input[u].parent.Some? ==> input[u].parent.value !in left
    ensures StrayAt(f0, input, left - {u}, h, k)
  {
    assert StrayAt(f0, input, left, f, k);
    RoundAt(f, g, h, u, input[u], k);
    assert u !in Table(g) && (u in Ids(g) <==> u in Table(g));
    if k in Ids(h) && k !in input {
      assert k in Table(g) && Get(g, k).node == Table(g)[k] == Table(f)[k];
      TopIffParent(g, None, k);
    }
  }

  /******* The end *******/

  // A provider outside the input that is still there has no named ancestor.
  lemma RemainingSurvive(f0: Forest, input: map<Id, Provider>, f: Forest, k: Id)
    requires Sound(f0) && Sound(f) && Strays(f0, input, {}, f) && k in Ids(f) && k !in input
    ensures Survives(f0, input.Keys, k)
  {
    var lost := set v | v in Ids(f0) && (v in input || v !in Ids(f));
    forall v | v in Ids(f0) && v !in lost
      ensures Get(f0, v).node.parent.None? || Get(f0, v).node.parent.value !in lost
    {
      assert StrayAt(f0, input, {}, f, v);
      TopIffParent(f, None, v);
    }
    assert UpwardClosed(f0, lost);
    assert StrayAt(f0, input, {}, f, k);
    forall u | u in input.Keys && u in Ids(f0) ensures k !in SubtreeIds(f0, u) {
      SubtreeIsLeft(f0, u, lost);
    }
  }

  lemma {:induction false} PlacedIsGrounded(part: Forest, parent: Option<Id>, f0: Forest, input: map<Id, Provider>)
    requires WellFormed(part, parent)
    requires forall k :: k in Ids(part) && k in input ==> Get(part, k).node == input[k]
    requires forall k :: k in Ids(part) && k !in input ==> Survives(f0, input.Keys, k)
    requires parent.Some? ==> Stays(f0, input, parent.value)
    ensures forall k :: k in Ids(part) ==> Stays(f0, input, k)
  {
    match part
    case Nil =>
    case Cons(_, n, kids, rest) =>
      assert Get(part, n.uuid).node == n;
      if n.uuid in input {
        GroundedChild(f0, input, n.uuid);
      }
      forall k | k in Ids(kids) ensures Get(kids, k) == Get(part, k) {}
      forall k | k in Ids(rest) ensures Get(rest, k) == Get(part, k) {}
      PlacedIsGrounded(kids, Some(n.uuid), f0, input);
      PlacedIsGrounded(rest, parent, f0, input);
  }

  // After the last round the forest holds exactly the outcome, whatever was picked when.
  lemma EndIsOutcome(f0: Forest, input: map<Id, Provider>, f: Forest)
    requires Sound(f0) && Sound(f) && Strays(f0, input, {}, f)
    ensures Table(f) == Outcome(f0, input)
  {
    forall k | k in Ids(f) && k !in input ensures Survives(f0, input.Keys, k) {
      RemainingSurvive(f0, input, f, k);
    }
    forall k | k in Ids(f) && k in input ensures Get(f, k).node == input[k] {
      assert StrayAt(f0, input, {}, f, k);
    }
    PlacedIsGrounded(f, None, f0, input);
    forall k ensures EndsAs(f0, input, f, k) {
      assert StrayAt(f0, input, {}, f, k);
    }
    hide Stays, Strays, Sound, Get, Ids;
    TableOfEnd(f0, input, f);
  }

  ghost predicate EndsAs(f0: Forest, input: map<Id, Provider>, f: Forest, k: Id) {
    && (k in Ids(f) <==> k in Ids(f0) + input.Keys && Stays(f0, input, k))
    && (k in Ids(f) ==> Get(f, k).node == if k in input then input[k] else Get(f0, k).node)
  }

  lemma TableOfEnd(f0: Forest, input: map<Id, Provider>, f: Forest)
    requires forall k :: EndsAs(f0, input, f, k)
    ensures Table(f) == Outcome(f0, input)
  {
    hide Stays;
    forall k ensures k in Table(f) <==> k in Outcome(f0, input) {
      assert EndsAs(f0, input, f, k);
    }
    forall k | k in Table(f) ensures Table(f)[k] == Outcome(f0, input)[k] {
      assert EndsAs(f0, input, f, k);
    }
  }

  // The outcome is the old table overridden by the input only if the input was closed.
  lemma OverrideNeedsClosed(f0: Forest, input: map<Id, Provider>)
    requires WellFormed(f0, None) && Outcome(f0, input) == Table(f0) + input
    ensures Closed(f0, input.Keys)
  {
    forall u | u in input.Keys && u in Ids(f0) ensures SubtreeIds(f0, u) <= input.Keys {
      forall k | k in SubtreeIds(f0, u) ensures k in input.Keys {
        GetLaw(f0, None, u);
        assert k in Table(f0) + input;
        assert k in Outcome(f0, input);
      }
    }
  }

  ghost predicate AllGrounded(f0: Forest, input: map<Id, Provider>) {
    forall u :: u in input ==> Grounded(f0, input, u)
  }

  lemma CycleIsNotAllGrounded(f0: Forest, input: map<Id, Provider>)
    requires HasCycle(input)
    ensures !AllGrounded(f0, input)
  {
    if AllGrounded(f0, input) {
      AllGroundedHasNoCycle(f0, input);
    }
  }

  // In every round the survivors are there with their records.
  lemma SurvivorsAreThere(f0: Forest, input: map<Id, Provider>, left: set<Id>, f: Forest)
    requires Strays(f0, input, left, f) && left <= input.Keys
    ensures forall k :: Survives(f0, input.Keys, k) ==> k in Table(f) && Table(f)[k] == Table(f0)[k]
  {
    forall k | Survives(f0, input.Keys, k) ensures k in Table(f) && Table(f)[k] == Table(f0)[k] {
      if k in input {
        NamedDoNotSurvive(f0, input.Keys, k);
      }
      assert StrayAt(f0, input, left, f, k);
    }
  }
}

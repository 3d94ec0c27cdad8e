/** What "the subtree of a provider" means in terms of the recorded parents. */
module ProviderSubtree {
  import opened Options
  import opened ProviderForest
  import opened ProviderForestProofs

  // A walk from a provider up along recorded parents.
  ghost predicate Climbs(t: map<Id, Provider>, path: seq<Id>, from: Id, to: Id) {
    && path != [] && path[0] == from && path[|path| - 1] == to
    && forall i :: 0 <= i < |path| ==>
                     path[i] in t && (i + 1 < |path| ==> t[path[i]].parent == Some(path[i + 1]))
  }

  lemma {:induction false} ClimbOut(kids: Forest, u: Id, t: map<Id, Provider>, k: Id) returns (path: seq<Id>)
    requires WellFormed(kids, Some(u)) && k in Ids(kids) && u in t
    requires forall v :: v in Ids(kids) ==> v in t && t[v] == Get(kids, v).node
    ensures Climbs(t, path, k, u)
  {
    var Cons(_, n, below, rest) := kids;
    assert t[n.uuid] == n;
    if k == n.uuid {
      path := [k, u];
    } else if k in Ids(below) {
      var p := ClimbOut(below, n.uuid, t, k);
      path := p + [u];
      assert forall i :: 0 <= i < |p| ==> path[i] == p[i];
    } else {
      path := ClimbOut(rest, u, t, k);
    }
  }

  lemma {:induction false} ClimbStaysBelow(f: Forest, path: seq<Id>, k: Id, u: Id)
    requires WellFormed(f, None) && u in Ids(f) && Climbs(Table(f), path, k, u)
    ensures k in SubtreeIds(f, u)
  {
    if |path| > 1 {
      var p := path[1];
      assert path[1..][0] == p;
      assert forall i :: 0 <= i < |path| - 1 ==> path[1..][i] == path[i + 1];
      ClimbStaysBelow(f, path[1..], p, u);
      assert p in Table(f) && Get(f, k).node == Table(f)[k];
      ChildIffParent(f, None, k, p);
      GetLaw(f, None, p);
      LookupIffTop(Get(f, p).kids, Some(p), k);
      if p != u {
        GetGet(f, None, u, p);
        GetLaw(f, None, u);
        GetLaw(Get(f, u).kids, Some(u), p);
      }
    }
  }

  // The providers removed with u are exactly those from which u is reached by recorded parents.
  lemma SubtreeIffClimbs(f: Forest, u: Id, k: Id)
    requires WellFormed(f, None) && u in Ids(f)
    ensures k in SubtreeIds(f, u) <==> exists path :: Climbs(Table(f), path, k, u)
  {
    if k == u {
      assert Climbs(Table(f), [u], u, u);
    } else if k in SubtreeIds(f, u) {
      GetLaw(f, None, u);
      forall v | v in Ids(Get(f, u).kids) ensures v in Table(f) && Table(f)[v] == Get(Get(f, u).kids, v).node {
        GetGet(f, None, u, v);
      }
      var path := ClimbOut(Get(f, u).kids, u, Table(f), k);
    }
    forall path | Climbs(Table(f), path, k, u) ensures k in SubtreeIds(f, u) {
      ClimbStaysBelow(f, path, k, u);
    }
  }
}

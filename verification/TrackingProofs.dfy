/** Laws of resource accounting: the counters are sums over the tracked containers, and the pinned
    CPUs are theirs. */
module TrackingProofs {
  import opened Options
  import opened Claims
  import opened Tracking

  /******* Sums over the tracked containers *******/

  datatype Usage = Usage(mem: int, cpu: int, disk: int, count: int)
  {
    function Plus(u: Usage): Usage {
      Usage(mem + u.mem, cpu + u.cpu, disk + u.disk, count + u.count)
    }
  }

  const NONE := Usage(0, 0, 0, 0)

  function UsageOf(c: Container): Usage {
    Usage(c.Mem(), c.Cpu(), c.Disk(), 1)
  }

  function Counters(cn: ComputeNode): Usage {
    Usage(cn.memUsed, cn.cpuUsed, cn.diskUsed, cn.running)
  }

  ghost function SomeKey(keys: set<Uuid>): (u: Uuid)
    requires keys != {}
    ensures u in keys
  {
    var u :| u in keys; u
  }

  ghost function Sum(w: map<Uuid, Usage>, keys: set<Uuid>): Usage
    requires keys <= w.Keys
    decreases keys
  {
    if keys == {} then NONE
    else
      var u := SomeKey(keys);
      w[u].Plus(Sum(w, keys - {u}))
  }

  ghost function Usages(m: map<Uuid, Container>): map<Uuid, Usage> {
    map u | u in m :: UsageOf(m[u])
  }

  ghost function Total(m: map<Uuid, Container>): Usage {
    Sum(Usages(m), m.Keys)
  }

  // The sum does not depend on the order of the summands.
  lemma {:induction false} SumWithout(w: map<Uuid, Usage>, keys: set<Uuid>, u: Uuid)
    requires keys <= w.Keys && u in keys
    ensures Sum(w, keys) == w[u].Plus(Sum(w, keys - {u}))
    decreases keys
  {
    var v := SomeKey(keys);
    if u != v {
      SumWithout(w, keys - {v}, u);
      SumWithout(w, keys - {u}, v);
      assert keys - {u} - {v} == keys - {v} - {u};
    }
  }

  lemma {:induction false} SumSame(w: map<Uuid, Usage>, x: map<Uuid, Usage>, keys: set<Uuid>)
    requires keys <= w.Keys && keys <= x.Keys
    requires forall u :: u in keys ==> w[u] == x[u]
    ensures Sum(w, keys) == Sum(x, keys)
    decreases keys
  {
    if keys != {} {
      SumSame(w, x, keys - {SomeKey(keys)});
    }
  }

  lemma TotalWithout(m: map<Uuid, Container>, u: Uuid)
    requires u in m
    ensures Total(m) == Total(m - {u}).Plus(UsageOf(m[u]))
  {
    SumWithout(Usages(m), m.Keys, u);
    assert (m - {u}).Keys == m.Keys - {u};
    SumSame(Usages(m), Usages(m - {u}), m.Keys - {u});
  }

  lemma PutThenDrop<V>(m: map<Uuid, V>, u: Uuid, v: V)
    ensures m[u := v] - {u} == m - {u}
    ensures u !in m ==> m - {u} == m
  {
  }

  lemma TotalPut(m: map<Uuid, Container>, c: Container)
    ensures Total(m[c.uuid := c]) == Total(m - {c.uuid}).Plus(UsageOf(c))
    ensures c.uuid !in m ==> Total(m[c.uuid := c]) == Total(m).Plus(UsageOf(c))
  {
    TotalWithout(m[c.uuid := c], c.uuid);
    PutThenDrop(m, c.uuid, c);
  }

  /******* Counters *******/

  ghost predicate Balanced(s: Tracker) {
    Counters(s.node) == Total(s.tracked)
  }

  lemma CountersLaw(cn: ComputeNode, c: Container, sign: int)
    requires sign == 1 || sign == -1
    ensures var r := UpdateUsage(cn, c, sign).0;
            && (sign == 1 ==> Counters(r) == Counters(cn).Plus(UsageOf(c)))
            && (sign == -1 ==> Counters(r).Plus(UsageOf(c)) == Counters(cn))
            && r.memTotal == cn.memTotal && r.memFree == r.memTotal - r.memUsed
  {
  }

  lemma Cancel(a: Usage, b: Usage, u: Usage)
    requires a.Plus(u) == b.Plus(u)
    ensures a == b
  {
  }

  lemma ChargeBalanced(s: Tracker, c: Container)
    requires Balanced(s) && c.uuid !in s.tracked
    ensures Balanced(TrackContainer(s, c, false).state)
  {
    var r := TrackContainer(s, c, false).state;
    CountersLaw(s.node, c, 1);
    assert r.node == UpdateUsage(s.node, c, 1).0;
    TotalPut(s.tracked, c);
    assert r.tracked == s.tracked[c.uuid := c];
  }

  lemma ReleaseBalanced(s: Tracker, c: Container)
    requires Balanced(s) && c.uuid in s.tracked && UsageOf(s.tracked[c.uuid]) == UsageOf(c)
    ensures Balanced(TrackContainer(s, c, true).state)
  {
    var r := TrackContainer(s, c, true).state;
    CountersLaw(s.node, c, -1);
    assert r.node == UpdateUsage(s.node, c, -1).0;
    TotalWithout(s.tracked, c.uuid);
    assert r.tracked == s.tracked - {c.uuid};
    Cancel(Counters(r.node), Total(r.tracked), UsageOf(c));
  }

  lemma UpdateBalanced(s: Tracker, new': Container, old': Container)
    requires Balanced(s) && new'.uuid in s.tracked && UsageOf(s.tracked[new'.uuid]) == UsageOf(old')
    requires TrackUpdate(s, new', old').error.None?
    ensures Balanced(TrackUpdate(s, new', old').state)
  {
    var r := TrackUpdate(s, new', old').state;
    var cn1 := UpdateUsage(s.node, old', -1).0;
    CountersLaw(s.node, old', -1);
    CountersLaw(cn1, new', 1);
    assert r.node == UpdateUsage(cn1, new', 1).0;
    var rest := Total(s.tracked - {new'.uuid});
    TotalWithout(s.tracked, new'.uuid);
    Cancel(Counters(cn1), rest, UsageOf(old'));
    TotalPut(s.tracked, new');
  }

  /******* NUMA nodes *******/

  ghost predicate DistinctIds(nodes: seq<NumaNode>) {
    forall i, j :: 0 <= i < j < |nodes| ==> nodes[i].id != nodes[j].id
  }

  ghost predicate SameHardware(a: NumaNode, b: NumaNode) {
    a.id == b.id && a.cpuset == b.cpuset && a.memTotal == b.memTotal
  }

  ghost predicate UpdatedAt(before: NumaNode, after: NumaNode, e: Option<PinError>, c: Container, sign: int) {
    var n := before.(memAvailable := before.memAvailable - c.Mem() * sign);
    match if sign > 0 then n.PinCpus(c.cpus) else n.UnpinCpus(c.cpus)
    case Pinned(n2) => after == n2 && e.None?
    case PinFailed(x) => after == n && e == Some(x)
  }

  // With no further node of that id the loop changes nothing.
  lemma {:induction false} NumaLoopIdle(nodes: seq<NumaNode>, i: nat, c: Container, sign: int)
    requires i <= |nodes| && forall j :: i <= j < |nodes| ==> nodes[j].id != c.node
    ensures UpdateNumaFrom(nodes, i, c, sign) == (nodes, None)
    decreases |nodes| - i
  {
    if i < |nodes| {
      NumaLoopIdle(nodes, i + 1, c, sign);
    }
  }

  lemma {:induction false} NumaLoop(nodes: seq<NumaNode>, i: nat, c: Container, sign: int)
    requires i <= |nodes| && DistinctIds(nodes)
    ensures var (r, e) := UpdateNumaFrom(nodes, i, c, sign);
            && |r| == |nodes|
            && (forall j :: 0 <= j < |nodes| && !(i <= j && nodes[j].id == c.node) ==> r[j] == nodes[j])
            && ((forall j :: i <= j < |nodes| ==> nodes[j].id != c.node) ==> e.None?)
            && (forall j :: i <= j < |nodes| && nodes[j].id == c.node ==> UpdatedAt(nodes[j], r[j], e, c, sign))
    decreases |nodes| - i
  {
    if i < |nodes| {
      if nodes[i].id != c.node {
        NumaLoop(nodes, i + 1, c, sign);
      } else {
        var n := nodes[i].(memAvailable := nodes[i].memAvailable - c.Mem() * sign);
        match if sign > 0 then n.PinCpus(c.cpus) else n.UnpinCpus(c.cpus)
        case PinFailed(e) =>
        case Pinned(n2) => NumaLoopIdle(nodes[i := n2], i + 1, c, sign);
      }
    }
  }

  // A usage update touches the node with the container's node id, and no other.
  lemma UpdateNumaLaw(nodes: seq<NumaNode>, c: Container, sign: int)
    requires DistinctIds(nodes)
    ensures var (r, e) := UpdateNuma(nodes, c, sign);
            && |r| == |nodes|
            && (forall i :: 0 <= i < |nodes| ==> SameHardware(r[i], nodes[i]))
            && (forall i :: 0 <= i < |nodes| && nodes[i].id != c.node ==> r[i] == nodes[i])
            && ((forall i :: 0 <= i < |nodes| ==> nodes[i].id != c.node) ==> e.None?)
            && (forall i :: 0 <= i < |nodes| && nodes[i].id == c.node ==> UpdatedAt(nodes[i], r[i], e, c, sign))
  {
    NumaLoop(nodes, 0, c, sign);
  }
}

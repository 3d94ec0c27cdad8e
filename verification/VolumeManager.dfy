/** Detaching the volumes of a container or capsule: mappings go one by one, a volume is detached
    with its last mapping, and a failed clean-up fails the container, which detaches again. The
    volume driver may fail at every call; a timed wait polls any number of times, but ends. */
module VolumeManager {
  import opened Options
  import opened VolumeTable

  datatype Outcome =
    | Returns
    | DriverError   // raised by the driver's detach or delete
    | WaitError     // raised by the driver's look at a volume that is being deleted
    | Conflict      // "volumes cannot be successfully deleted"

  // What the driver answers to a look at a volume that is being deleted.
  datatype Answer = LookRaised | Seen(isDeleted: bool, isError: bool)

  // One call of the driver with its answer.
  datatype Reply =
    | Detaching(k: MapId, raised: bool)
    | Deleting(k: MapId, raised: bool)
    | Looking(volmap: Mapping, answer: Answer)

  // The calls that an operation makes: volumes detached, mappings deleted, and all with their answers.
  datatype Calls = Calls(detached: seq<VolumeId>, deleted: seq<MapId>, log: seq<Reply>)
  {
    function Then(next: Calls): Calls {
      Calls(detached + next.detached, deleted + next.deleted, log + next.log)
    }
  }

  const NO_CALLS := Calls([], [], [])

  // The answer ends the clean-up with an exception.
  predicate Stops(x: Reply, reraise: bool) {
    match x
    case Detaching(_, raised) => raised && reraise
    case Deleting(_, raised) => raised
    case Looking(_, _) => false
  }

  ghost predicate AnyStops(log: seq<Reply>, reraise: bool) {
    exists x :: x in log && Stops(x, reraise)
  }

  ghost predicate AnyLookRaised(log: seq<Reply>) {
    exists x :: x in log && x.Looking? && x.answer.LookRaised?
  }

  ghost predicate NoLooks(log: seq<Reply>) {
    forall x :: x in log ==> !x.Looking?
  }

  ghost predicate OnlyLooks(log: seq<Reply>) {
    forall x :: x in log ==> x.Looking?
  }

  // How many volumes were seen to be deleted.
  function DeletedIn(log: seq<Reply>): nat {
    if log == [] then 0
    else
      var x := log[|log| - 1];
      DeletedIn(log[..|log| - 1]) + if x.Looking? && x.answer.Seen? && x.answer.isDeleted then 1 else 0
  }

  lemma {:induction false} DeletedInParts(a: seq<Reply>, b: seq<Reply>)
    requires NoLooks(a)
    ensures DeletedIn(a + b) == DeletedIn(b)
    decreases |a| + |b|
  {
    if b != [] {
      assert (a + b)[..|a + b| - 1] == a + b[..|b| - 1];
      DeletedInParts(a, b[..|b| - 1]);
    } else if a != [] {
      assert a + b == a && a[..|a| - 1] + [] == a[..|a| - 1];
      assert a[|a| - 1] in a;
      DeletedInParts(a[..|a| - 1], []);
    }
  }

  lemma DeletedInOne(log: seq<Reply>, x: Reply)
    ensures DeletedIn(log + [x]) == DeletedIn(log) + if x.Looking? && x.answer.Seen? && x.answer.isDeleted then 1 else 0
  {
    assert (log + [x])[..|log|] == log;
  }

  // The mappings are those of the deletions, in order.
  ghost predicate MappingsOf(t: Table, deleted: seq<MapId>, volmaps: seq<Mapping>) {
    |volmaps| == |deleted| && forall i :: 0 <= i < |deleted| ==> deleted[i] in t && volmaps[i] == t[deleted[i]]
  }

  // The looks that a wait for these volumes makes: at one after the other, the next one once the last
  // was seen to be deleted, and none after an error.
  ghost predicate InTurn(volmaps: seq<Mapping>, looks: seq<Reply>) {
    && OnlyLooks(looks)
    && (forall j :: 0 <= j < |looks| ==>
          DeletedIn(looks[..j]) < |volmaps| && looks[j].volmap == volmaps[DeletedIn(looks[..j])])
    && forall j :: 0 <= j < |looks| - 1 ==> !Ends(looks[j])
  }

  predicate Ends(x: Reply) {
    x.Looking? && (x.answer.LookRaised? || x.answer.isError)
  }

  // What the answers make of the wait: it returns exactly if every volume was seen to be deleted.
  function WaitOutcome(volmaps: seq<Mapping>, looks: seq<Reply>): Outcome {
    if DeletedIn(looks) == |volmaps| then Returns
    else if looks != [] && looks[|looks| - 1].Looking? && looks[|looks| - 1].answer.LookRaised? then WaitError
    else Conflict
  }

  // The mappings `gone` were removed from table t with exactly the right driver calls.
  ghost predicate Removed(t: Table, gone: set<MapId>, detached: seq<VolumeId>, deleted: seq<MapId>) {
    OncePer(detached, Orphaned(t, gone)) && DeletesRight(t, gone, deleted)
  }

  // Table u is t without some mappings of container c.
  ghost predicate OnlyOf(t: Table, u: Table, c: Uuid) {
    && u.Keys <= t.Keys
    && forall k :: k in t ==> if k in u then u[k] == t[k] else t[k].container == c
  }

  // A clean-up of container c that may have been cut short left table u: for some of its mappings,
  // at least the removed ones, each volume that loses its last mapping with them was detached once,
  // and no other; deletions were only of volumes that nobody maps any more.
  ghost predicate Begun(t: Table, u: Table, c: Uuid, detached: seq<VolumeId>, deleted: seq<MapId>) {
    exists gone :: BegunWith(t, u, c, gone, detached, deleted)
  }

  ghost predicate BegunWith(
    t: Table, u: Table, c: Uuid, gone: set<MapId>, detached: seq<VolumeId>, deleted: seq<MapId>)
  {
    && OnlyOf(t, u, c) && t.Keys - u.Keys <= gone <= Mine(t, c)
    && OncePer(detached, Orphaned(t, gone)) && DeletesSafe(t, gone, deleted)
  }

  // So whatever the outcome, a detached volume was mapped by this container and by no other, none
  // was detached twice, and every volume that lost its last mapping was detached.
  lemma BegunIsCareful(t: Table, u: Table, c: Uuid, detached: seq<VolumeId>, deleted: seq<MapId>)
    requires Begun(t, u, c, detached, deleted)
    ensures NoRepeats(detached)
    ensures forall v :: v in detached ==>
              && (exists k :: k in t && t[k].volumeId == v)
              && (forall k :: k in t && t[k].volumeId == v ==> t[k].container == c)
    ensures forall v :: OfVolume(t, v) != {} && OfVolume(u, v) == {} ==> v in detached
    ensures forall i :: 0 <= i < |deleted| ==> MayDelete(t, Mine(t, c), deleted[i])
  {
    var gone :| BegunWith(t, u, c, gone, detached, deleted);
    forall v | v in detached
      ensures exists k :: k in t && t[k].volumeId == v
      ensures forall k :: k in t && t[k].volumeId == v ==> t[k].container == c
    {
      OrphanedIff(t, gone, v);
      OrphanedIff(t, Mine(t, c), v);
      OrphanedOfContainer(t, c, v);
    }
    forall v | OfVolume(t, v) != {} && OfVolume(u, v) == {} ensures v in detached {
      forall k | k in OfVolume(t, v) ensures k in gone {
        assert k in u ==> k in OfVolume(u, v);
      }
      OrphanedIff(t, gone, v);
    }
    forall i | 0 <= i < |deleted| ensures MayDelete(t, Mine(t, c), deleted[i]) {
      assert MayDelete(t, gone, deleted[i]);
    }
  }

  lemma RemovedNothing(t: Table)
    ensures Removed(t, {}, [], [])
  {
    assert Orphaned(t, {}) == {};
  }

  lemma RemovedCompose(t: Table, a: set<MapId>, b: set<MapId>,
                       d: seq<VolumeId>, e: seq<VolumeId>, x: seq<MapId>, y: seq<MapId>)
    requires a !! b && a <= t.Keys && b <= t.Keys
    requires Removed(t, a, d, x) && Removed(t - a, b, e, y)
    ensures Removed(t, a + b, d + e, x + y)
  {
    OrphanedCompose(t, a, b);
    OnceCompose(d, e, Orphaned(t, a), Orphaned(t - a, b));
    DeletesCompose(t, a, b, x, y);
  }

  lemma RemovedOne(t: Table, k: MapId, d: seq<VolumeId>, x: seq<MapId>)
    requires k in t
    requires d == if |OfVolume(t, t[k].volumeId)| == 1 then [t[k].volumeId] else []
    requires x == if t[k].autoRemove && |OfCinder(t, t[k].cinderId)| == 1 then [k] else []
    ensures Removed(t, {k}, d, x)
  {
    OrphanedOne(t, k);
    DeletesOne(t, k, x);
  }

  // The right calls, then the first part of a round that was cut short.
  lemma CutShort(
    t: Table, u: Table, c: Uuid, done: set<MapId>, k: MapId,
    d: seq<VolumeId>, d1: seq<VolumeId>, x: seq<MapId>, x1: seq<MapId>)
    requires done <= Mine(t, c) && k in Mine(t, c) - done && (u == t - done || u == t - done - {k})
    requires Removed(t, done, d, x)
    requires OncePer(d1, Orphaned(t - done, {k})) && DeletesSafe(t - done, {k}, x1)
    ensures OnlyOf(t, u, c) && Begun(t, u, c, d + d1, x + x1)
    ensures u == t - done ==> Mine(u, c) != {}
  {
    assert u == t - done ==> k in Mine(u, c);
    OrphanedCompose(t, done, {k});
    OnceCompose(d, d1, Orphaned(t, done), Orphaned(t - done, {k}));
    DeletesStaySafe(t, done, {k}, x, x1);
    assert BegunWith(t, u, c, done + {k}, d + d1, x + x1) by {
      hide OncePer, DeletesSafe, Orphaned;
    }
  }

  lemma AllBegun(t: Table, c: Uuid, detached: seq<VolumeId>, deleted: seq<MapId>)
    requires Removed(t, Mine(t, c), detached, deleted)
    ensures OnlyOf(t, t - Mine(t, c), c) && Begun(t, t - Mine(t, c), c, detached, deleted)
  {
    assert BegunWith(t, t - Mine(t, c), c, Mine(t, c), detached, deleted);
  }

  lemma MineOf(t: Table, c: Uuid)
    ensures Mine(t, c) <= t.Keys
  {
  }

  // Between two rounds over the mappings of a container: the calls so far and what is to be waited for.
  ghost predicate Rounds(
    t: Table, mine: set<MapId>, todo: set<MapId>, u: Table, calls: Calls, waits: seq<Mapping>, reraise: bool)
  {
    && todo <= mine <= t.Keys && u == t - (mine - todo)
    && Removed(t, mine - todo, calls.detached, calls.deleted) && MappingsOf(t, calls.deleted, waits)
    && NoLooks(calls.log) && !AnyStops(calls.log, reraise)
    && |waits| + |todo| <= |mine|
  }

  lemma NoRounds(t: Table, mine: set<MapId>, reraise: bool)
    requires mine <= t.Keys
    ensures Rounds(t, mine, mine, t, NO_CALLS, [], reraise)
  {
    RemovedNothing(t);
    assert mine - mine == {} && t - {} == t;
  }

  lemma OneMoreRound(
    t: Table, mine: set<MapId>, todo: set<MapId>, u: Table, calls: Calls, waits: seq<Mapping>, reraise: bool,
    k: MapId, next: Calls, more: seq<Mapping>)
    requires Rounds(t, mine, todo, u, calls, waits, reraise) && k in todo
    requires Removed(u, {k}, next.detached, next.deleted) && MappingsOf(u, next.deleted, more)
    requires NoLooks(next.log) && !AnyStops(next.log, reraise) && |more| <= 1
    ensures Rounds(t, mine, todo - {k}, u - {k}, calls.Then(next), waits + more, reraise)
  {
    var done := mine - todo;
    assert mine - (todo - {k}) == done + {k} && t - done - {k} == t - (done + {k});
    RemovedCompose(t, done, {k}, calls.detached, next.detached, calls.deleted, next.deleted);
    hide Removed;
  }

  lemma RoundsLeft(
    t: Table, mine: set<MapId>, todo: set<MapId>, u: Table, calls: Calls, waits: seq<Mapping>, reraise: bool, k: MapId)
    requires Rounds(t, mine, todo, u, calls, waits, reraise) && k in todo
    ensures k in u && |waits| <= |mine|
  {
  }

  // A round that raised ends the clean-up of container c.
  lemma RoundRaised(
    t: Table, c: Uuid, todo: set<MapId>, u: Table, calls: Calls, waits: seq<Mapping>, reraise: bool,
    k: MapId, u1: Table, next: Calls)
    requires Rounds(t, Mine(t, c), todo, u, calls, waits, reraise) && k in todo && (u1 == u || u1 == u - {k})
    requires OncePer(next.detached, Orphaned(u, {k})) && DeletesSafe(u, {k}, next.deleted)
    requires NoLooks(next.log) && AnyStops(next.log, reraise)
    ensures var all := calls.Then(next);
            && OnlyOf(t, u1, c) && Begun(t, u1, c, all.detached, all.deleted)
            && NoLooks(all.log) && AnyStops(all.log, reraise)
            && next.log != [] && all.log[|all.log| - 1] == next.log[|next.log| - 1]
    ensures u1 == u ==> Mine(u1, c) != {}
  {
    var done := Mine(t, c) - todo;
    CutShort(t, u1, c, done, k, calls.detached, next.detached, calls.deleted, next.deleted);
    var s :| s in next.log && Stops(s, reraise);
    assert s in calls.log + next.log;
    hide Removed, Begun, OnlyOf, OncePer, DeletesSafe, Orphaned;
  }

  lemma RoundsOver(t: Table, c: Uuid, u: Table, calls: Calls, waits: seq<Mapping>, reraise: bool)
    requires Rounds(t, Mine(t, c), {}, u, calls, waits, reraise)
    ensures u == t - Mine(t, c) && OnlyOf(t, u, c) && Begun(t, u, c, calls.detached, calls.deleted)
    ensures Removed(t, Mine(t, c), calls.detached, calls.deleted) && MappingsOf(t, calls.deleted, waits)
    ensures NoLooks(calls.log) && !AnyStops(calls.log, reraise) && |waits| <= |Mine(t, c)|
  {
    assert Mine(t, c) - {} == Mine(t, c);
    AllBegun(t, c, calls.detached, calls.deleted);
    hide Removed, Begun, OnlyOf;
  }

  // The calls before a wait, then its looks.
  lemma TwoParts(a: seq<Reply>, b: seq<Reply>, reraise: bool)
    requires NoLooks(a) && OnlyLooks(b)
    ensures AnyStops(a + b, reraise) <==> AnyStops(a, reraise)
    ensures AnyLookRaised(a + b) <==> AnyLookRaised(b)
    ensures DeletedIn(a + b) == DeletedIn(b)
  {
    DeletedInParts(a, b);
  }

  lemma AllAutoRemove(t: Table, gone: set<MapId>, detached: seq<VolumeId>, deleted: seq<MapId>, volmaps: seq<Mapping>)
    requires Removed(t, gone, detached, deleted) && MappingsOf(t, deleted, volmaps)
    ensures AllAuto(volmaps)
  {
    forall i | 0 <= i < |volmaps| ensures volmaps[i].autoRemove {
      assert MayDelete(t, gone, deleted[i]);
    }
  }

  // In such a wait only the last look can have raised, and then not all volumes were seen deleted.
  lemma RaisedIsLast(volmaps: seq<Mapping>, looks: seq<Reply>)
    requires InTurn(volmaps, looks)
    ensures WaitOutcome(volmaps, looks).WaitError? <==> AnyLookRaised(looks)
  {
    hide DeletedIn, InTurn;
    if x :| x in looks && x.Looking? && x.answer.LookRaised? {
      var j :| 0 <= j < |looks| && looks[j] == x;
      if j < |looks| - 1 {
        NoneEndsBefore(volmaps, looks, j);
      } else {
        LastRaised(volmaps, looks);
      }
    } else {
      assert looks != [] ==> looks[|looks| - 1] in looks;
    }
  }

  lemma LastRaised(volmaps: seq<Mapping>, looks: seq<Reply>)
    requires InTurn(volmaps, looks) && looks != []
    requires looks[|looks| - 1].Looking? && looks[|looks| - 1].answer.LookRaised?
    ensures DeletedIn(looks) < |volmaps|
  {
    var n := |looks| - 1;
    DeletedInOne(looks[..n], looks[n]);
    assert looks == looks[..n] + [looks[n]];
    hide DeletedIn;
  }

  lemma NoneEndsBefore(volmaps: seq<Mapping>, looks: seq<Reply>, j: nat)
    requires InTurn(volmaps, looks) && j < |looks| - 1
    ensures !Ends(looks[j])
  {
  }

  ghost predicate AllAuto(volmaps: seq<Mapping>) {
    forall m :: m in volmaps ==> m.autoRemove
  }

  lemma OnlyLooksMore(looks: seq<Reply>, x: Reply)
    requires OnlyLooks(looks) && x.Looking?
    ensures OnlyLooks(looks + [x])
  {
  }

  // A wait that goes on: it looks at volume i next.
  ghost predicate Waiting(volmaps: seq<Mapping>, looks: seq<Reply>, i: nat) {
    InTurn(volmaps, looks) && i == DeletedIn(looks) < |volmaps| && forall x :: x in looks ==> !Ends(x)
  }

  lemma WaitStarts(volmaps: seq<Mapping>)
    requires volmaps != []
    ensures Waiting(volmaps, [], 0) && OnlyLooks([])
  {
  }

  lemma StillWaiting(volmaps: seq<Mapping>, looks: seq<Reply>, i: nat)
    requires Waiting(volmaps, looks, i)
    ensures InTurn(volmaps, looks) && i < |volmaps| && WaitOutcome(volmaps, looks).Conflict?
  {
    assert looks != [] ==> looks[|looks| - 1] in looks;
    hide DeletedIn, InTurn;
  }

  lemma NextLook(volmaps: seq<Mapping>, looks: seq<Reply>, i: nat, answer: Answer)
    requires Waiting(volmaps, looks, i)
    ensures var all := looks + [Looking(volmaps[i], answer)];
            var next := if answer.Seen? && answer.isDeleted then i + 1 else i;
            && InTurn(volmaps, all)
            && (answer.LookRaised? ==> WaitOutcome(volmaps, all).WaitError?)
            && (next == |volmaps| ==> WaitOutcome(volmaps, all).Returns?)
            && (answer.Seen? && next < |volmaps| ==> WaitOutcome(volmaps, all).Conflict?)
            && (answer.Seen? && !answer.isError && next < |volmaps| ==> Waiting(volmaps, all, next))
  {
    var x := Looking(volmaps[i], answer);
    DeletedInOne(looks, x);
    assert forall j :: 0 <= j < |looks| ==> (looks + [x])[..j] == looks[..j];
    assert (looks + [x])[..|looks|] == looks;
    hide DeletedIn;
  }

  lemma ThenThen(a: Calls, b: Calls, c: Calls)
    ensures a.Then(b).Then(c) == a.Then(b.Then(c))
    ensures a.Then(NO_CALLS) == a
  {
  }

  // The calls of a detach: the driver is called exactly for the last mapping of the volume.
  ghost predicate Detached(t: Table, k: MapId, calls: Calls) {
    k in t &&
    if |OfVolume(t, t[k].volumeId)| == 1
    then calls in {Calls([t[k].volumeId], [], [Detaching(k, false)]), Calls([t[k].volumeId], [], [Detaching(k, true)])}
    else calls == NO_CALLS
  }

  lemma AfterDetach(t: Table, k: MapId, calls: Calls, reraise: bool)
    requires Detached(t, k, calls)
    ensures NoLooks(calls.log) && (AnyStops(calls.log, reraise) <==> reraise && calls.log == [Detaching(k, true)])
    ensures OncePer(calls.detached, Orphaned(t, {k})) && DeletesSafe(t, {k}, calls.deleted)
    ensures MappingsOf(t, calls.deleted, [])
    ensures !(t[k].autoRemove && |OfCinder(t, t[k].cinderId)| == 1) ==>
              Removed(t, {k}, calls.detached, calls.deleted)
  {
    OrphanedOne(t, k);
    assert calls.log == [Detaching(k, true)] ==> Detaching(k, true) in calls.log;
    if !(t[k].autoRemove && |OfCinder(t, t[k].cinderId)| == 1) {
      RemovedOne(t, k, calls.detached, calls.deleted);
    }
    hide Removed;
  }

  lemma AfterDelete(t: Table, k: MapId, calls: Calls, raises: bool, reraise: bool)
    requires Detached(t, k, calls) && NoLooks(calls.log) && !AnyStops(calls.log, reraise)
    requires t[k].autoRemove && |OfCinder(t, t[k].cinderId)| == 1
    ensures var all := calls.Then(Calls([], [k], [Deleting(k, raises)]));
            && Removed(t, {k}, all.detached, all.deleted) && MappingsOf(t, all.deleted, [t[k]])
            && OncePer(all.detached, Orphaned(t, {k})) && DeletesSafe(t, {k}, all.deleted)
            && NoLooks(all.log) && (AnyStops(all.log, reraise) <==> raises)
            && all.log[|all.log| - 1] == Deleting(k, raises)
  {
    var all := calls.Then(Calls([], [k], [Deleting(k, raises)]));
    assert all.detached == calls.detached && all.deleted == [k];
    RemovedOne(t, k, all.detached, all.deleted);
    LogThen(calls.log, [Deleting(k, raises)], reraise);
    assert Deleting(k, raises) in [Deleting(k, raises)];
    hide OncePer, Orphaned, DeletesSafe;
  }

  lemma LogThen(a: seq<Reply>, b: seq<Reply>, reraise: bool)
    ensures AnyStops(a + b, reraise) <==> AnyStops(a, reraise) || AnyStops(b, reraise)
    ensures AnyLookRaised(a + b) <==> AnyLookRaised(a) || AnyLookRaised(b)
  {
  }

  lemma MineRest(t: Table, gone: set<MapId>, c: Uuid)
    ensures Mine(t - gone, c) == Mine(t, c) - gone
  {
  }

  ghost function MineAll(t: Table, cs: seq<Uuid>): set<MapId> {
    set k | k in t && t[k].container in cs
  }

  lemma NextOfCapsule(t: Table, cs: seq<Uuid>, i: nat)
    requires i < |cs|
    ensures var done, mine := MineAll(t, cs[..i]), Mine(t - MineAll(t, cs[..i]), cs[i]);
            done !! mine && done <= t.Keys && mine <= t.Keys && MineAll(t, cs[..i + 1]) == done + mine
  {
    assert cs[..i + 1] == cs[..i] + [cs[i]];
  }

  class VolumeManager {
    var table: Table              // the volume mappings in the database
    var made: Calls               // the calls of the driver so far
    var failed: set<Uuid>         // containers whose status was set to ERROR

    method DetachVolume(k: MapId, reraise: bool) returns (r: Outcome, ghost calls: Calls)
      requires k in table
      modifies this`table, this`made
      ensures made == old(made).Then(calls)
      ensures Detached(old(table), k, calls)
      // An error keeps the mapping if it is to be raised.
      ensures r == if reraise && calls.log == [Detaching(k, true)] then DriverError else Returns
      ensures table == if r.Returns? then old(table) - {k} else old(table)
    {
      calls := NO_CALLS;
      if |OfVolume(table, table[k].volumeId)| == 1 {
        var raises: bool := *;
        calls := Calls([table[k].volumeId], [], [Detaching(k, raises)]);
        made := made.Then(Calls([table[k].volumeId], [], [Detaching(k, raises)]));
        if raises && reraise {
          r := DriverError;
          return;
        }
        assert calls.log[0].raised == raises;
      }
      table := table - {k};
      r := Returns;
    }

    // One round of the loop over the mappings of a container.
    method DetachAndDelete(k: MapId, reraise: bool) returns (r: Outcome, toWait: seq<Mapping>, ghost calls: Calls)
      requires k in table
      modifies this`table, this`made
      ensures made == old(made).Then(calls)
      ensures NoLooks(calls.log) && r == if AnyStops(calls.log, reraise) then DriverError else Returns
      ensures table == if r.DriverError? && calls.log[|calls.log| - 1].Detaching? then old(table) else old(table) - {k}
      ensures r.Returns? ==>
                && Removed(old(table), {k}, calls.detached, calls.deleted)
                && MappingsOf(old(table), calls.deleted, toWait)
      ensures !r.Returns? ==>
                && OncePer(calls.detached, Orphaned(old(table), {k}))
                && DeletesSafe(old(table), {k}, calls.deleted)
      ensures |toWait| <= 1
    {
      var volmap := table[k];
      var sharing := |OfCinder(table, volmap.cinderId)|;
      ghost var t := table;
      hide *;
      toWait := [];
      r, calls := DetachVolume(k, reraise);
      AfterDetach(t, k, calls, reraise);
      if r.Returns? {
        if volmap.autoRemove && sharing == 1 {
          var raises: bool := *;
          AfterDelete(t, k, calls, raises, reraise);
          ThenThen(old(made), calls, Calls([], [k], [Deleting(k, raises)]));
          made := made.Then(Calls([], [k], [Deleting(k, raises)]));
          calls := calls.Then(Calls([], [k], [Deleting(k, raises)]));
          if raises {
            r := DriverError;
            return;
          }
          toWait := [volmap];
        }
      }
    }

    // The loop over the mappings of a container, listed at its start.
    method DetachEach(c: Uuid, reraise: bool) returns (r: Outcome, autoRemoved: seq<Mapping>, ghost calls: Calls)
      modifies this`table, this`made
      ensures made == old(made).Then(calls)
      ensures OnlyOf(old(table), table, c) && Begun(old(table), table, c, calls.detached, calls.deleted)
      ensures Mine(old(table), c) == {} ==> r.Returns? && calls == NO_CALLS
      ensures NoLooks(calls.log) && r == if AnyStops(calls.log, reraise) then DriverError else Returns
      ensures r.DriverError? && calls.log[|calls.log| - 1].Detaching? ==> Mine(table, c) != {}
      // It returns what was deleted, to be waited for.
      ensures r.Returns? ==>
                && table == old(table) - Mine(old(table), c)
                && Removed(old(table), Mine(old(table), c), calls.detached, calls.deleted)
                && MappingsOf(old(table), calls.deleted, autoRemoved)
      ensures |autoRemoved| <= |Mine(old(table), c)|
    {
      ghost var t0 := table;
      var todo := Mine(table, c);
      MineOf(table, c);
      ghost var mine := todo;
      autoRemoved, calls := [], NO_CALLS;
      NoRounds(t0, mine, reraise);
      hide *;
      while todo != {}
        invariant Rounds(t0, mine, todo, table, calls, autoRemoved, reraise)
        invariant made == old(made).Then(calls)
        invariant mine == {} ==> calls == NO_CALLS
        decreases todo
      {
        var k :| k in todo;
        ghost var t1 := table;
        RoundsLeft(t0, mine, todo, table, calls, autoRemoved, reraise, k);
        var toWait;
        ghost var next;
        r, toWait, next := DetachAndDelete(k, reraise);
        ThenThen(old(made), calls, next);
        if !r.Returns? {
          RoundRaised(t0, c, todo, t1, calls, autoRemoved, reraise, k, table, next);
          calls := calls.Then(next);
          return;
        }
        OneMoreRound(t0, mine, todo, t1, calls, autoRemoved, reraise, k, next, toWait);
        calls, todo, autoRemoved := calls.Then(next), todo - {k}, autoRemoved + toWait;
      }
      RoundsOver(t0, c, table, calls, autoRemoved, reraise);
      r := Returns;
    }

    method DetachVolumes(c: Uuid, reraise: bool) returns (r: Outcome, ghost calls: Calls)
      modifies this
      decreases |Mine(table, c)|, 2
      ensures made == old(made).Then(calls)
      // Mappings of other containers stay.
      ensures OnlyOf(old(table), table, c)
      ensures Mine(old(table), c) == {} ==>
                r.Returns? && table == old(table) && failed == old(failed) && calls == NO_CALLS
      // The answers of the driver decide: an exception of detach, if it is to be raised, or of delete;
      // then one of a look; and otherwise it returns exactly if all deleted volumes were seen to be.
      ensures r.DriverError? <==> AnyStops(calls.log, reraise)
      ensures r.WaitError? <==> AnyLookRaised(calls.log)
      ensures r.Returns? <==> !r.DriverError? && DeletedIn(calls.log) == |calls.deleted|
      // The mapping whose detach raised is kept.
      ensures r.DriverError? && calls.log[|calls.log| - 1].Detaching? ==> Mine(table, c) != {}
      // Unless detach or delete raised, all mappings are gone, with exactly the right driver calls.
      ensures !r.DriverError? ==>
                && table == old(table) - Mine(old(table), c)
                && Removed(old(table), Mine(old(table), c), calls.detached, calls.deleted)
      // Whatever raised, only volumes of this container alone were detached, each once.
      ensures Begun(old(table), table, c, calls.detached, calls.deleted)
      ensures failed == old(failed) + if r.Conflict? then {c} else {}
    {
      hide Removed, Begun, OnlyOf;
      var autoRemoved;
      ghost var mine := Mine(table, c);
      r, autoRemoved, calls := DetachEach(c, reraise);
      assert OnlyLooks([]);
      TwoParts(calls.log, [], reraise);
      assert calls.log + [] == calls.log;
      if !r.Returns? {
        return;
      }
      MineRest(old(table), mine, c);
      AllAutoRemove(old(table), mine, calls.detached, calls.deleted, autoRemoved);
      var polls: nat := *;
      ghost var looks;
      r, looks := WaitForVolumesDeleted(autoRemoved, c, polls);
      RaisedIsLast(autoRemoved, looks);
      TwoParts(calls.log, looks, reraise);
      ThenThen(old(made), calls, Calls([], [], looks));
      assert calls.detached + [] == calls.detached && calls.deleted + [] == calls.deleted;
      calls := calls.Then(Calls([], [], looks));
    }

    // All containers of a capsule, the init containers first; the first exception ends it.
    method DetachVolumesForCapsule(initContainers: seq<Uuid>, containers: seq<Uuid>, reraise: bool)
      returns (r: Outcome, ghost calls: Calls)
      modifies this
      ensures made == old(made).Then(calls)
      ensures forall k :: k in old(table) && old(table)[k].container !in initContainers + containers ==>
                k in table && table[k] == old(table)[k]
      ensures r.DriverError? <==> AnyStops(calls.log, reraise)
      ensures r.WaitError? <==> AnyLookRaised(calls.log)
      ensures if r.Conflict? then exists c :: c in initContainers + containers && failed == old(failed) + {c}
              else failed == old(failed)
      ensures r.Returns? ==>
                var gone := MineAll(old(table), initContainers + containers);
                && table == old(table) - gone
                && Removed(old(table), gone, calls.detached, calls.deleted)
    {
      hide Removed, Begun;
      ghost var t0 := table;
      var cs := initContainers + containers;
      calls := NO_CALLS;
      RemovedNothing(t0);
      assert MineAll(t0, cs[..0]) == {} && t0 - {} == t0;
      for i := 0 to |cs|
        invariant made == old(made).Then(calls)
        invariant table == t0 - MineAll(t0, cs[..i])
        invariant !AnyStops(calls.log, reraise) && !AnyLookRaised(calls.log)
        invariant failed == old(failed)
        invariant Removed(t0, MineAll(t0, cs[..i]), calls.detached, calls.deleted)
      {
        ghost var done, mine := MineAll(t0, cs[..i]), Mine(table, cs[i]);
        NextOfCapsule(t0, cs, i);
        ghost var next;
        r, next := DetachVolumes(cs[i], reraise);
        ThenThen(old(made), calls, next);
        LogThen(calls.log, next.log, reraise);
        if !r.Returns? {
          calls := calls.Then(next);
          return;
        }
        RemovedCompose(t0, done, mine, calls.detached, next.detached, calls.deleted, next.deleted);
        assert t0 - done - mine == t0 - (done + mine);
        calls := calls.Then(next);
      }
      assert cs[..|cs|] == cs;
      r := Returns;
    }

    method Look(volmap: Mapping) returns (answer: Answer)
      modifies this`made
      ensures made == old(made).Then(Calls([], [], [Looking(volmap, answer)]))
    {
      var raises: bool, isDeleted: bool, isError: bool := *, *, *;
      answer := if raises then LookRaised else Seen(isDeleted, isError);
      made := made.Then(Calls([], [], [Looking(volmap, answer)]));
    }

    // Only called once the container has no mapping left. The time allows this many polls.
    method WaitForVolumesDeleted(volmaps: seq<Mapping>, c: Uuid, polls: nat)
      returns (r: Outcome, ghost looks: seq<Reply>)
      requires Mine(table, c) == {}
      modifies this
      decreases |Mine(table, c)| + |volmaps|, 1
      ensures table == old(table) && made == old(made).Then(Calls([], [], looks))
      ensures OnlyLooks(looks) && |looks| <= polls
      ensures !r.DriverError? && (volmaps == [] ==> r.Returns? && looks == [])
      // For volumes that are being deleted: the looks go in turn, and their answers decide. A conflict
      // comes of an error answer, or because the time is over.
      ensures AllAuto(volmaps) ==>
                && InTurn(volmaps, looks) && r == WaitOutcome(volmaps, looks)
                && (r.Conflict? ==> |looks| == polls || (looks != [] && Ends(looks[|looks| - 1])))
      // An exception of the driver ends the wait without failing the container.
      ensures failed == old(failed) + if r.Conflict? then {c} else {}
    {
      looks := [];
      if volmaps == [] {
        r := Returns;
        return;
      }
      ghost var ended := false;
      WaitStarts(volmaps);
      hide InTurn, Waiting, WaitOutcome, Mine, OnlyOf, OnlyLooks, Begun, AnyStops, DeletedIn;
      var i, left := 0, polls;
      while left > 0
        invariant 0 <= i < |volmaps| && 0 <= left && left + |looks| == polls
        invariant table == old(table) && failed == old(failed)
        invariant made == old(made).Then(Calls([], [], looks)) && OnlyLooks(looks)
        invariant AllAuto(volmaps) ==> Waiting(volmaps, looks, i)
        decreases left
      {
        if !volmaps[i].autoRemove {
          i := i + 1;
          if i == |volmaps| {
            r := Returns;
            return;
          }
        }
        var answer := Look(volmaps[i]);
        if AllAuto(volmaps) {
          NextLook(volmaps, looks, i, answer);
        }
        OnlyLooksMore(looks, Looking(volmaps[i], answer));
        looks := looks + [Looking(volmaps[i], answer)];
        if answer.LookRaised? {
          r := WaitError;
          return;
        }
        if answer.isDeleted {
          i := i + 1;
          if i == |volmaps| {
            r := Returns;
            return;
          }
        }
        left := left - 1;
        if answer.isError {
          ended := true;
          break;
        }
      }
      if AllAuto(volmaps) && !ended {
        StillWaiting(volmaps, looks, i);
      }
      ghost var none := FailContainer(c);
      r := Conflict;
    }

    // Errors of the detaching are logged and dropped.
    method FailContainer(c: Uuid) returns (ghost calls: Calls)
      modifies this
      decreases |Mine(table, c)|, 3
      ensures made == old(made).Then(calls)
      ensures failed == old(failed) + {c}
      ensures OnlyOf(old(table), table, c) && Begun(old(table), table, c, calls.detached, calls.deleted)
      // With no exception of the driver nothing is left to detach; if a detach raised, its mapping is.
      ensures calls.log != [] && Stops(calls.log[|calls.log| - 1], true) && calls.log[|calls.log| - 1].Detaching? ==>
                Mine(table, c) != {}
      ensures !AnyStops(calls.log, true) ==> Mine(table, c) == {}
      ensures Mine(old(table), c) == {} ==> table == old(table) && calls == NO_CALLS
    {
      hide Begun;
      ghost var t0 := table;
      var r;
      r, calls := DetachVolumes(c, true);
      MineRest(t0, Mine(t0, c), c);
      failed := failed + {c};
    }
  }
}

/** The table of volume mappings, used as a reference count: what removing a set of mappings must
    detach and delete. */
module VolumeTable {
  import opened Options

  type Uuid = string       // containers
  type MapId = nat         // mappings
  type VolumeId = nat
  type CinderId = string

  datatype Mapping = Mapping(
    container: Uuid, volumeId: VolumeId, cinderId: Option<CinderId>, autoRemove: bool)

  type Table = map<MapId, Mapping>

  // `list_by_container`
  function Mine(t: Table, c: Uuid): set<MapId> {
    set k | k in t && t[k].container == c
  }

  // `count(volume_id=...)` counts these.
  function OfVolume(t: Table, v: VolumeId): set<MapId> {
    set k | k in t && t[k].volumeId == v
  }

  // `list_by_cinder_volume`
  function OfCinder(t: Table, g: Option<CinderId>): set<MapId> {
    set k | k in t && t[k].cinderId == g
  }

  // The volumes that lose their last mapping when these mappings go.
  ghost function Orphaned(t: Table, gone: set<MapId>): set<VolumeId> {
    set k | k in t && k in gone && OfVolume(t, t[k].volumeId) <= gone :: t[k].volumeId
  }

  ghost predicate NoRepeats<T>(s: seq<T>) {
    forall i, j :: 0 <= i < j < |s| ==> s[i] != s[j]
  }

  // The calls are one for every element of the set.
  ghost predicate OncePer<T(!new)>(calls: seq<T>, s: set<T>) {
    NoRepeats(calls) && forall x :: x in calls <==> x in s
  }

  // The deletions that may go with removing these mappings: only of auto-remove mappings of Cinder
  // volumes that nobody maps any more, at most one per Cinder volume.
  ghost predicate DeletesSafe(t: Table, gone: set<MapId>, deleted: seq<MapId>) {
    && (forall i :: 0 <= i < |deleted| ==> MayDelete(t, gone, deleted[i]))
    && (forall i, j :: 0 <= i < j < |deleted| && deleted[i] in t && deleted[j] in t ==>
          t[deleted[i]].cinderId != t[deleted[j]].cinderId)
  }

  // Those that must: one for every Cinder volume whose mappings are all auto-remove and all gone.
  ghost predicate DeletesRight(t: Table, gone: set<MapId>, deleted: seq<MapId>) {
    && DeletesSafe(t, gone, deleted)
    && (forall k :: k in gone && MustDelete(t, gone, k) ==>
          exists i :: 0 <= i < |deleted| && deleted[i] in t && t[deleted[i]].cinderId == t[k].cinderId)
  }

  ghost predicate MayDelete(t: Table, gone: set<MapId>, k: MapId) {
    k in t && k in gone && t[k].autoRemove && OfCinder(t, t[k].cinderId) <= gone
  }

  ghost predicate MustDelete(t: Table, gone: set<MapId>, k: MapId) {
    && k in t && OfCinder(t, t[k].cinderId) <= gone
    && forall j :: j in OfCinder(t, t[k].cinderId) ==> t[j].autoRemove
  }

  /******* Removing one part after the other *******/

  lemma OfVolumeRest(t: Table, gone: set<MapId>, v: VolumeId)
    ensures OfVolume(t - gone, v) == OfVolume(t, v) - gone
  {
  }

  lemma OfCinderRest(t: Table, gone: set<MapId>, g: Option<CinderId>)
    ensures OfCinder(t - gone, g) == OfCinder(t, g) - gone
  {
  }

  lemma OrphanedCompose(t: Table, a: set<MapId>, b: set<MapId>)
    requires a !! b && a <= t.Keys && b <= t.Keys
    ensures Orphaned(t, a + b) == Orphaned(t, a) + Orphaned(t - a, b)
    ensures Orphaned(t, a) !! Orphaned(t - a, b)
  {
    forall v
      ensures v in Orphaned(t, a + b) <==> v in Orphaned(t, a) || v in Orphaned(t - a, b)
      ensures !(v in Orphaned(t, a) && v in Orphaned(t - a, b))
    {
      OfVolumeRest(t, a, v);
      OrphanedIff(t, a + b, v);
      OrphanedIff(t, a, v);
      OrphanedIff(t - a, b, v);
    }
  }

  lemma OrphanedIff(t: Table, gone: set<MapId>, v: VolumeId)
    ensures v in Orphaned(t, gone) <==> OfVolume(t, v) != {} && OfVolume(t, v) <= gone
  {
    if OfVolume(t, v) != {} && OfVolume(t, v) <= gone {
      var k :| k in OfVolume(t, v);
      assert k in t && k in gone && OfVolume(t, t[k].volumeId) <= gone;
    }
    if v in Orphaned(t, gone) {
      var k :| k in t && k in gone && OfVolume(t, t[k].volumeId) <= gone && t[k].volumeId == v;
      assert k in OfVolume(t, v);
    }
  }

  // For one container: it maps the volume, and no other container does.
  lemma OrphanedOfContainer(t: Table, c: Uuid, v: VolumeId)
    ensures v in Orphaned(t, Mine(t, c)) <==>
            && (exists k :: k in t && t[k].volumeId == v && t[k].container == c)
            && (forall k :: k in t && t[k].volumeId == v ==> t[k].container == c)
  {
    OrphanedIff(t, Mine(t, c), v);
    if v in Orphaned(t, Mine(t, c)) {
      var k :| k in OfVolume(t, v);
      assert k in Mine(t, c);
      forall j | j in t && t[j].volumeId == v ensures t[j].container == c {
        assert j in OfVolume(t, v);
      }
    } else if k :| k in t && t[k].volumeId == v && t[k].container == c {
      assert k in OfVolume(t, v);
    }
  }

  lemma OnceCompose<T(!new)>(x: seq<T>, y: seq<T>, a: set<T>, b: set<T>)
    requires OncePer(x, a) && OncePer(y, b) && a !! b
    ensures OncePer(x + y, a + b)
  {
    forall i, j | 0 <= i < j < |x + y| ensures (x + y)[i] != (x + y)[j] {
      if i < |x| <= j {
        assert x[i] in x && y[j - |x|] in y;
      }
    }
  }

  lemma DeletesStaySafe(t: Table, a: set<MapId>, b: set<MapId>, x: seq<MapId>, y: seq<MapId>)
    requires a !! b && a <= t.Keys && b <= t.Keys
    requires DeletesSafe(t, a, x) && DeletesSafe(t - a, b, y)
    ensures DeletesSafe(t, a + b, x + y)
  {
    var s, all := t - a, x + y;
    forall i | 0 <= i < |all| ensures MayDelete(t, a + b, all[i]) {
      if i < |x| {
        assert MayDelete(t, a, x[i]);
      } else {
        assert MayDelete(s, b, y[i - |x|]);
        OfCinderRest(t, a, t[all[i]].cinderId);
      }
    }
    forall i, j | 0 <= i < j < |all| ensures t[all[i]].cinderId != t[all[j]].cinderId {
      if i < |x| <= j {
        assert MayDelete(t, a, x[i]) && MayDelete(s, b, y[j - |x|]);
        assert all[j] in OfCinder(t, t[all[j]].cinderId);
      } else if |x| <= i {
        assert MayDelete(s, b, y[i - |x|]) && MayDelete(s, b, y[j - |x|]);
      }
    }
  }

  lemma DeletesCompose(t: Table, a: set<MapId>, b: set<MapId>, x: seq<MapId>, y: seq<MapId>)
    requires a !! b && a <= t.Keys && b <= t.Keys
    requires DeletesRight(t, a, x) && DeletesRight(t - a, b, y)
    ensures DeletesRight(t, a + b, x + y)
  {
    var all := x + y;
    DeletesStaySafe(t, a, b, x, y);
    forall k | k in a + b && MustDelete(t, a + b, k)
      ensures exists i :: 0 <= i < |all| && all[i] in t && t[all[i]].cinderId == t[k].cinderId
    {
      DeletesComposeAt(t, a, b, x, y, k);
    }
  }

  lemma DeletesComposeAt(t: Table, a: set<MapId>, b: set<MapId>, x: seq<MapId>, y: seq<MapId>, k: MapId)
    requires a !! b && a <= t.Keys && b <= t.Keys && k in a + b && MustDelete(t, a + b, k)
    requires DeletesRight(t, a, x) && DeletesRight(t - a, b, y)
    ensures exists i :: 0 <= i < |x + y| && (x + y)[i] in t && t[(x + y)[i]].cinderId == t[k].cinderId
  {
    var g := t[k].cinderId;
    OfCinderRest(t, a, g);
    if OfCinder(t, g) <= a {
      assert k in OfCinder(t, g);
      assert MustDelete(t, a, k);
      var i :| 0 <= i < |x| && x[i] in t && t[x[i]].cinderId == g;
      assert (x + y)[i] == x[i];
    } else {
      var j :| j in OfCinder(t, g) && j !in a;
      assert MustDelete(t - a, b, j);
      var i :| 0 <= i < |y| && y[i] in t - a && (t - a)[y[i]].cinderId == g;
      assert (x + y)[|x| + i] == y[i];
    }
  }

  // Removing a single mapping.
  lemma OrphanedOne(t: Table, k: MapId)
    requires k in t
    ensures Orphaned(t, {k}) == if |OfVolume(t, t[k].volumeId)| == 1 then {t[k].volumeId} else {}
  {
    var v := t[k].volumeId;
    assert k in OfVolume(t, v);
    OneIff(OfVolume(t, v), k);
    forall w ensures w in Orphaned(t, {k}) <==> w == v && OfVolume(t, v) == {k} {
      OrphanedIff(t, {k}, w);
    }
  }

  lemma OneIff(s: set<MapId>, k: MapId)
    requires k in s
    ensures |s| == 1 <==> s == {k}
  {
    if |s| == 1 {
      assert |s - {k}| == 0;
      assert s == (s - {k}) + {k};
    }
  }

  lemma DeletesOne(t: Table, k: MapId, deleted: seq<MapId>)
    requires k in t
    requires deleted == if t[k].autoRemove && |OfCinder(t, t[k].cinderId)| == 1 then [k] else []
    ensures DeletesRight(t, {k}, deleted)
  {
    assert k in OfCinder(t, t[k].cinderId);
    OneIff(OfCinder(t, t[k].cinderId), k);
    forall j | j in {k} && MustDelete(t, {k}, j)
      ensures exists i :: 0 <= i < |deleted| && deleted[i] in t && t[deleted[i]].cinderId == t[j].cinderId
    {
      assert OfCinder(t, t[k].cinderId) == {k} && t[k].autoRemove;
      assert deleted[0] == k;
    }
  }
}

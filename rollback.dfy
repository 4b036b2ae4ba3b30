/**
 * Rollback points for undoing fixes (crates/netdiag-autofix, rollback.rs).
 * The manager is a class over the map of points it mutates. A point's
 * `Uuid` string and the clock are parameters; writing the points file is
 * not modelled, and restoring a state is an effect whose outcome is given.
 */
module Rollback {
  import opened Wrappers
  import opened IpAddrs

  /** Seconds since the epoch, standing for `DateTime<Utc>`. */
  type Timestamp = int

  datatype RollbackState =
    | DnsServers(interface: string, servers: seq<IpAddr>)
    | ConfigFile(path: string, contents: string)
    | Multiple(states: seq<RollbackState>)
    | NoState

  /** `RollbackPoint`; the free-text description is not modelled. */
  datatype RollbackPoint = RollbackPoint(
    id: string,
    createdAt: Timestamp,
    state: RollbackState,
    valid: bool,
    actionId: Option<nat>)

  /** The errors the manager reports. */
  datatype AutofixError =
    | RollbackNotFound(id: string)
    | RollbackFailed(message: string)
    | Io(message: string)

  /** The message of a rollback of a point that was already used. */
  const NoLongerValid := "Rollback point is no longer valid"

  /** The ids of the points still valid. */
  function ValidIds(m: map<string, RollbackPoint>): set<string> {
    set id | id in m && m[id].valid
  }

  /** `init`'s filter: the valid points only. */
  function ValidOnly(m: map<string, RollbackPoint>): (r: map<string, RollbackPoint>)
    ensures r.Keys == ValidIds(m)
    ensures forall id :: id in r ==> r[id] == m[id] && r[id].valid
  {
    map id | id in m && m[id].valid :: m[id]
  }

  /** `k` names a point no other point of `ids` predates. */
  predicate IsOldest(m: map<string, RollbackPoint>, ids: set<string>, k: string)
    requires ids <= m.Keys
  {
    k in ids && forall j :: j in ids ==> m[k].createdAt <= m[j].createdAt
  }

  /** `k` names a point no other point of `ids` is newer than. */
  predicate IsNewest(m: map<string, RollbackPoint>, ids: set<string>, k: string)
    requires ids <= m.Keys
  {
    k in ids && forall j :: j in ids ==> m[j].createdAt <= m[k].createdAt
  }

  lemma {:induction false} OldestExists(m: map<string, RollbackPoint>, ids: set<string>)
    requires ids <= m.Keys && ids != {}
    ensures exists k :: IsOldest(m, ids, k)
    decreases |ids|
  {
    var x :| x in ids;
    if ids - {x} != {} {
      OldestExists(m, ids - {x});
      var k :| IsOldest(m, ids - {x}, k);
      if m[x].createdAt < m[k].createdAt {
        assert IsOldest(m, ids, x);
      } else {
        assert IsOldest(m, ids, k);
      }
    } else {
      assert ids == {x};
      assert IsOldest(m, ids, x);
    }
  }

  lemma {:induction false} NewestExists(m: map<string, RollbackPoint>, ids: set<string>)
    requires ids <= m.Keys && ids != {}
    ensures exists k :: IsNewest(m, ids, k)
    decreases |ids|
  {
    var x :| x in ids;
    if ids - {x} != {} {
      NewestExists(m, ids - {x});
      var k :| IsNewest(m, ids - {x}, k);
      if m[x].createdAt > m[k].createdAt {
        assert IsNewest(m, ids, x);
      } else {
        assert IsNewest(m, ids, k);
      }
    } else {
      assert ids == {x};
      assert IsNewest(m, ids, x);
    }
  }

  /** Newest first: creation times never increase along the list. */
  predicate NewestFirst(r: seq<RollbackPoint>) {
    forall i, j :: 0 <= i < j < |r| ==> r[j].createdAt <= r[i].createdAt
  }

  /** `cleanup`'s cutoff: `max_age_hours` before `now`. */
  function Cutoff(now: Timestamp, maxAgeHours: nat): Timestamp {
    now - maxAgeHours * 3600
  }

  /** `cleanup`'s filter: a point stays if it is newer than the cutoff or still valid. */
  function Kept(m: map<string, RollbackPoint>, cutoff: Timestamp): (r: map<string, RollbackPoint>)
    ensures r.Keys <= m.Keys
    ensures forall id :: id in m ==> (id in r <==> m[id].createdAt > cutoff || m[id].valid)
    ensures forall id :: id in r ==> r[id] == m[id]
  {
    map id | id in m && (m[id].createdAt > cutoff || m[id].valid) :: m[id]
  }

  /** The points `cleanup` drops: used, and created at or before the cutoff. */
  function Dropped(m: map<string, RollbackPoint>, cutoff: Timestamp): set<string> {
    set id | id in m && m[id].createdAt <= cutoff && !m[id].valid
  }

  /** Cleanup only drops used points from before the cutoff; no valid point is lost. */
  lemma KeptDropsOnlyOldUsed(m: map<string, RollbackPoint>, cutoff: Timestamp)
    ensures ValidIds(Kept(m, cutoff)) == ValidIds(m)
    ensures m.Keys - Kept(m, cutoff).Keys == Dropped(m, cutoff)
    ensures |Kept(m, cutoff)| + |Dropped(m, cutoff)| == |m|
  {
    var k := Kept(m, cutoff);
    assert m.Keys == k.Keys + (m.Keys - k.Keys);
  }

  /** The map once `add_point` has made room (when full) and inserted `point`. */
  function AfterAdd(m: map<string, RollbackPoint>, maxPoints: nat, oldest: string, point: RollbackPoint):
    map<string, RollbackPoint>
  {
    var room := if |m| >= maxPoints && oldest in m then m - {oldest} else m;
    room[point.id := point]
  }

  /**
   * Adding a point to a store within its bound keeps it within the bound
   * (for a bound of at least one), and the new point is always there.
   */
  lemma AddKeepsBound(m: map<string, RollbackPoint>, maxPoints: nat, oldest: string, point: RollbackPoint)
    requires |m| <= maxPoints && maxPoints > 0
    requires m != map[] ==> oldest in m
    ensures |AfterAdd(m, maxPoints, oldest, point)| <= maxPoints
    ensures point.id in AfterAdd(m, maxPoints, oldest, point)
    ensures AfterAdd(m, maxPoints, oldest, point)[point.id] == point
  {
    if |m| >= maxPoints && oldest in m {
      var room := m - {oldest};
      assert room.Keys == m.Keys - {oldest};
      assert |room.Keys| == |m.Keys| - 1;
    }
  }

  /** Part way through `list`: the valid ids split into those listed and those left. */
  ghost predicate ListSets(m: map<string, RollbackPoint>, rest: set<string>, done: set<string>) {
    rest + done == ValidIds(m) && rest !! done
  }

  /** Part way through `list`: `r` holds the points of `done`, once each, named by `ids`. */
  ghost predicate ListItems(m: map<string, RollbackPoint>, done: set<string>, ids: seq<string>,
                            r: seq<RollbackPoint>)
  {
    |r| == |done| == |ids| &&
    (forall i :: 0 <= i < |r| ==> ids[i] in done && ids[i] in m && m[ids[i]] == r[i]) &&
    (forall id :: id in done ==> id in m && m[id] in r)
  }

  /** Part way through `list`: `r` is newest first, and no point left is newer than its last. */
  ghost predicate ListOrder(m: map<string, RollbackPoint>, rest: set<string>, r: seq<RollbackPoint>)
    requires rest <= m.Keys
  {
    NewestFirst(r) &&
    (|r| > 0 ==> forall j :: j in rest ==> m[j].createdAt <= r[|r| - 1].createdAt)
  }

  lemma ListSetsStep(m: map<string, RollbackPoint>, rest: set<string>, done: set<string>, k: string)
    requires ListSets(m, rest, done) && k in rest
    ensures ListSets(m, rest - {k}, done + {k})
  {
  }

  lemma ListItemsStep(m: map<string, RollbackPoint>, done: set<string>, ids: seq<string>,
                      r: seq<RollbackPoint>, k: string)
    requires ListItems(m, done, ids, r) && k !in done && k in m
    ensures ListItems(m, done + {k}, ids + [k], r + [m[k]])
  {
    var r', ids', done' := r + [m[k]], ids + [k], done + {k};
    forall i | 0 <= i < |r'|
      ensures ids'[i] in done' && ids'[i] in m && m[ids'[i]] == r'[i]
    {
      if i < |r| {
        assert ids'[i] == ids[i] && r'[i] == r[i];
      }
    }
    forall id | id in done'
      ensures id in m && m[id] in r'
    {
      if id == k {
        assert r'[|r|] == m[k];
      } else {
        assert m[id] in r;
      }
    }
  }

  lemma ListOrderStep(m: map<string, RollbackPoint>, rest: set<string>, r: seq<RollbackPoint>, k: string)
    requires rest <= m.Keys && ListOrder(m, rest, r) && IsNewest(m, rest, k)
    ensures ListOrder(m, rest - {k}, r + [m[k]])
  {
    NewestFirstAppend(r, m[k]);
    assert (r + [m[k]])[|r|] == m[k];
  }

  lemma NewestFirstAppend(r: seq<RollbackPoint>, x: RollbackPoint)
    requires NewestFirst(r)
    requires |r| > 0 ==> x.createdAt <= r[|r| - 1].createdAt
    ensures NewestFirst(r + [x])
  {
    var r' := r + [x];
    forall i, j | 0 <= i < j < |r'|
      ensures r'[j].createdAt <= r'[i].createdAt
    {
      assert r'[i] == r[i];
      if j < |r| {
        assert r'[j] == r[j];
      } else {
        assert r[|r| - 1].createdAt <= r[i].createdAt;
      }
    }
  }

  lemma ListingDone(m: map<string, RollbackPoint>, done: set<string>, ids: seq<string>, r: seq<RollbackPoint>)
    requires ListSets(m, {}, done) && ListItems(m, done, ids, r)
    ensures forall i :: 0 <= i < |r| ==> r[i].valid && r[i] in m.Values
    ensures forall id :: id in ValidIds(m) ==> m[id] in r
    ensures |r| == |ValidIds(m)|
  {
    forall i | 0 <= i < |r|
      ensures r[i].valid && r[i] in m.Values
    {
      assert m[ids[i]] == r[i];
    }
  }

  class RollbackManager {
    /** The active points by id. */
    var points: map<string, RollbackPoint>
    /** Most points kept at once. */
    const maxPoints: nat

    /** `RollbackManager::new`: no points yet. */
    constructor(maxPoints: nat)
      ensures points == map[] && this.maxPoints == maxPoints
    {
      this.points := map[];
      this.maxPoints := maxPoints;
    }

    /**
     * `init`: when a points file was read (`stored`), its valid points
     * replace the current ones; otherwise nothing changes.
     */
    method Init(stored: Option<map<string, RollbackPoint>>)
      modifies this
      ensures points == if stored.Some? then ValidOnly(stored.value) else old(points)
      ensures forall id :: id in points ==> points[id].valid || stored.None?
    {
      if stored.Some? {
        points := ValidOnly(stored.value);
      }
    }

    /** `get`. */
    function Get(id: string): (r: Option<RollbackPoint>)
      reads this
      ensures r.Some? <==> id in points
      ensures r.Some? ==> r.value == points[id]
    {
      if id in points then Some(points[id]) else None
    }

    /**
     * `add_point`: when the store is full, the oldest point (any one of
     * equal age) goes first; then the new point goes in under its id.
     */
    method AddPoint(point: RollbackPoint)
      modifies this
      ensures exists oldest :: (old(points) != map[] ==> IsOldest(old(points), old(points).Keys, oldest)) &&
                               points == AfterAdd(old(points), maxPoints, oldest, point)
      ensures old(|points|) <= maxPoints && maxPoints > 0 ==> |points| <= maxPoints
    {
      var oldest := "";
      if |points| >= maxPoints && points != map[] {
        OldestExists(points, points.Keys);
        oldest :| IsOldest(points, points.Keys, oldest);
        points := points - {oldest};
      } else if points != map[] {
        OldestExists(points, points.Keys);
        oldest :| IsOldest(points, points.Keys, oldest);
      }
      points := points[point.id := point];
      if old(|points|) <= maxPoints && maxPoints > 0 {
        AddKeepsBound(old(points), maxPoints, oldest, point);
      }
    }

    /** `create_dns_point`: a valid point holding the current DNS servers of `interface`. */
    method CreateDnsPoint(freshId: string, now: Timestamp, interface: string, current: seq<IpAddr>,
                          actionId: Option<nat>)
      returns (id: string)
      modifies this
      ensures id == freshId && id in points
      ensures points[id] == RollbackPoint(freshId, now, DnsServers(interface, current), true, actionId)
      ensures exists oldest ::
                (old(points) != map[] ==> IsOldest(old(points), old(points).Keys, oldest)) &&
                points == AfterAdd(old(points), maxPoints, oldest, points[id])
      ensures old(|points|) <= maxPoints && maxPoints > 0 ==> |points| <= maxPoints
    {
      var point := RollbackPoint(freshId, now, DnsServers(interface, current), true, actionId);
      AddPoint(point);
      AddPointHolds(point);
      id := freshId;
    }

    /**
     * `create_config_point`: a valid point holding the file's contents, or
     * the read error, leaving the store alone.
     */
    method CreateConfigPoint(freshId: string, now: Timestamp, path: string,
                             contents: Result<string, string>, actionId: Option<nat>)
      returns (r: Result<string, AutofixError>)
      modifies this
      ensures contents.Err? ==> r == Err(Io(contents.error)) && points == old(points)
      ensures contents.Ok? ==> r == Ok(freshId) && freshId in points
      ensures contents.Ok? ==>
        points[freshId] == RollbackPoint(freshId, now, ConfigFile(path, contents.value), true, actionId)
      ensures contents.Ok? ==>
        exists oldest :: (old(points) != map[] ==> IsOldest(old(points), old(points).Keys, oldest)) &&
          points == AfterAdd(old(points), maxPoints, oldest, points[freshId])
      ensures old(|points|) <= maxPoints && maxPoints > 0 ==> |points| <= maxPoints
    {
      if contents.Err? {
        return Err(Io(contents.error));
      }
      var point := RollbackPoint(freshId, now, ConfigFile(path, contents.value), true, actionId);
      AddPoint(point);
      AddPointHolds(point);
      r := Ok(freshId);
    }

    /** `create_multi_point`: a valid point holding several states. */
    method CreateMultiPoint(freshId: string, now: Timestamp, states: seq<RollbackState>,
                            actionId: Option<nat>)
      returns (id: string)
      modifies this
      ensures id == freshId && id in points
      ensures points[id] == RollbackPoint(freshId, now, Multiple(states), true, actionId)
      ensures exists oldest ::
                (old(points) != map[] ==> IsOldest(old(points), old(points).Keys, oldest)) &&
                points == AfterAdd(old(points), maxPoints, oldest, points[id])
      ensures old(|points|) <= maxPoints && maxPoints > 0 ==> |points| <= maxPoints
    {
      var point := RollbackPoint(freshId, now, Multiple(states), true, actionId);
      AddPoint(point);
      AddPointHolds(point);
      id := freshId;
    }

    /** After `AddPoint(point)` the point is stored under its id. */
    lemma AddPointHolds(point: RollbackPoint)
      requires exists m: map<string, RollbackPoint>, oldest: string ::
        points == AfterAdd(m, maxPoints, oldest, point)
      ensures point.id in points && points[point.id] == point
    {
    }

    /**
     * `list`: exactly the valid points, each once, newest first (points of
     * equal age in no particular order).
     */
    method List() returns (r: seq<RollbackPoint>)
      ensures forall i :: 0 <= i < |r| ==> r[i].valid && r[i] in points.Values
      ensures forall id :: id in ValidIds(points) ==> points[id] in r
      ensures |r| == |ValidIds(points)|
      ensures NewestFirst(r)
    {
      var rest := ValidIds(points);
      ghost var done: set<string> := {};
      ghost var ids: seq<string> := [];
      r := [];
      while rest != {}
        invariant rest <= points.Keys
        invariant ListSets(points, rest, done)
        invariant ListItems(points, done, ids, r)
        invariant ListOrder(points, rest, r)
        decreases |rest|
      {
        NewestExists(points, rest);
        var k :| IsNewest(points, rest, k);
        ListSetsStep(points, rest, done, k);
        ListItemsStep(points, done, ids, r, k);
        ListOrderStep(points, rest, r, k);
        r := r + [points[k]];
        ids := ids + [k];
        rest := rest - {k};
        done := done + {k};
      }
      ListingDone(points, done, ids, r);
    }

    /**
     * `rollback`: an unknown id is not found; a used point cannot be rolled
     * back again; a failed restore leaves the point valid; a restored point
     * is marked used.
     */
    method DoRollback(id: string, restoreError: Option<string>) returns (r: Result<(), AutofixError>)
      modifies this
      ensures id !in old(points) ==> r == Err(RollbackNotFound(id)) && points == old(points)
      ensures id in old(points) && !old(points)[id].valid ==>
        r == Err(RollbackFailed(NoLongerValid)) && points == old(points)
      ensures id in old(points) && old(points)[id].valid && restoreError.Some? ==>
        r == Err(Io(restoreError.value)) && points == old(points)
      ensures id in old(points) && old(points)[id].valid && restoreError.None? ==>
        r == Ok(()) && points == old(points)[id := old(points)[id].(valid := false)]
    {
      if id !in points {
        return Err(RollbackNotFound(id));
      }
      var point := points[id];
      if !point.valid {
        return Err(RollbackFailed(NoLongerValid));
      }
      if restoreError.Some? {
        return Err(Io(restoreError.value));
      }
      points := points[id := point.(valid := false)];
      r := Ok(());
    }

    /** A rollback that succeeded cannot be repeated: the second one finds the point used. */
    method RollbackTwice(id: string, first: Option<string>, second: Option<string>)
      returns (r1: Result<(), AutofixError>, r2: Result<(), AutofixError>)
      modifies this
      ensures r1.Ok? ==> r2 == Err(RollbackFailed(NoLongerValid))
    {
      r1 := DoRollback(id, first);
      r2 := DoRollback(id, second);
    }

    /** `invalidate`: marks the point used, and does nothing for an unknown id. */
    method Invalidate(id: string)
      modifies this
      ensures points == if id in old(points) then old(points)[id := old(points)[id].(valid := false)] else old(points)
    {
      if id in points {
        points := points[id := points[id].(valid := false)];
      }
    }

    /**
     * `cleanup`: drops the used points created at or before `now` minus
     * `maxAgeHours`, and reports how many went.
     */
    method Cleanup(maxAgeHours: nat, now: Timestamp) returns (removed: nat)
      modifies this
      ensures points == Kept(old(points), Cutoff(now, maxAgeHours))
      ensures removed == old(|points|) - |points|
      ensures removed == |Dropped(old(points), Cutoff(now, maxAgeHours))|
      ensures ValidIds(points) == ValidIds(old(points))
    {
      var cutoff := Cutoff(now, maxAgeHours);
      var before := points;
      var kept := Kept(before, cutoff);
      KeptDropsOnlyOldUsed(before, cutoff);
      assert |kept| <= |before|;
      points := kept;
      removed := |before| - |kept|;
    }
  }
}

/** Teardown of a sandbox's NetBird objects: one entrypoint, the shared access objects, a whole sandbox. */
module NetbirdTeardown {
  import opened Wrappers
  import opened NetbirdCloud

  datatype AccessRow = AccessRow(group: Option<Id>, key: Option<Id>, dns: Option<Id>)

  datatype EntrypointRow = EntrypointRow(host: string, group: Option<Id>, key: Option<Id>, routes: seq<Id>,
        policy: Option<Id>)

  function Ids(id: Option<Id>): set<Id> {
    if id.Some? then {id.value} else {}
  }

  function RouteIds(routes: seq<Id>): set<Id> {
    set r | r in routes
  }

  /** What a row records besides its group. */
  function Satellites(r: EntrypointRow): set<Id> {
    Ids(r.policy) + RouteIds(r.routes) + Ids(r.key)
  }

  function EntrypointIds(r: EntrypointRow): set<Id> {
    Satellites(r) + Ids(r.group)
  }

  function AccessSatellites(a: AccessRow): set<Id> {
    Ids(a.dns) + Ids(a.key)
  }

  function AccessIds(a: AccessRow): set<Id> {
    AccessSatellites(a) + Ids(a.group)
  }

  /** The objects left when the satellites are deleted and then the group, which a reference protects. */
  function Cleared(objs: map<Id, Obj>, satellites: set<Id>, group: Option<Id>): map<Id, Obj> {
    var rest := objs - satellites;
    if group.None? || Referenced(rest, group.value) then rest else rest - {group.value}
  }

  /** Peers outside the group stay, and only groups with a key gain peers. */
  ghost predicate PeersKept(objs: map<Id, Obj>, group: Option<Id>, peers: map<Id, Id>, peers': map<Id, Id>) {
    && (forall p :: p in peers && Some(peers[p]) != group ==> p in peers' && peers'[p] == peers[p])
    && (forall p :: p in peers' ==> (p in peers && peers[p] == peers'[p]) || Joinable(objs, peers'[p]))
  }

  ghost predicate Shrunk(objs: map<Id, Obj>, objs': map<Id, Obj>, removable: set<Id>) {
    && (forall id :: id in objs' ==> id in objs && objs'[id] == objs[id])
    && (forall id :: id in objs && id !in removable ==> id in objs')
  }

  /** `_delete_group_peers`: listing the members is not guarded by the deadline, deleting each of them is. */
  method DeleteGroupPeers(cloud: Cloud, group: Option<Id>, limit: Option<int>)
    requires cloud.Valid() && limit == cloud.deadline
    modifies cloud`peers, cloud`clock, cloud`log
    ensures cloud.Valid() && old(cloud.clock) <= cloud.clock
    ensures PeersKept(cloud.objs, group, old(cloud.peers), cloud.peers)
    ensures cloud.log.attempted == old(cloud.log.attempted) && cloud.log.unclean == old(cloud.log.unclean)
    ensures old(cloud.log.late) <= cloud.log.late <= old(cloud.log.late) + (if old(cloud.Expired(limit)) then 1 else 0)
    ensures old(cloud.log.faults) <= cloud.log.faults
    ensures group.Some? && cloud.log.faults == old(cloud.log.faults) && !cloud.Expired(limit)
              && !Joinable(cloud.objs, group.value)
            ==> Members(cloud.peers, group.value) == {}
  {
    if group.None? {
      return;
    }
    var members := cloud.ListPeers(group.value);
    if members.None? {
      return;
    }
    var todo := members.value;
    ghost var p0, log0 := cloud.peers, cloud.log;
    while todo != {}
      invariant cloud.Valid() && old(cloud.clock) <= cloud.clock
      invariant PeersKept(cloud.objs, group, old(cloud.peers), cloud.peers)
      invariant todo <= Members(p0, group.value)
      invariant cloud.log.attempted == log0.attempted && cloud.log.unclean == log0.unclean
      invariant cloud.log.late == log0.late && log0.faults <= cloud.log.faults
      invariant cloud.log.faults == log0.faults && !Joinable(cloud.objs, group.value) ==>
                  Members(cloud.peers, group.value) <= todo
      decreases todo
    {
      var p :| p in todo;
      if cloud.Expired(limit) {
        return;
      }
      cloud.DeletePeer(p);
      todo := todo - {p};
    }
  }

  /** The observable state of the cloud. */
  datatype Snap = Snap(objs: map<Id, Obj>, peers: map<Id, Id>, clock: int, faults: nat, late: nat,
                       attempted: set<Id>, unclean: set<Id>)

  ghost function Now(cloud: Cloud): Snap
    reads cloud
  {
    Snap(cloud.objs, cloud.peers, cloud.clock, cloud.log.faults, cloud.log.late, cloud.log.attempted, cloud.log.unclean)
  }

  predicate Past(clock: int, limit: Option<int>) {
    limit.Some? && clock > limit.value
  }

  /** What any piece of a teardown keeps: it only removes `removable` objects and peers of `group`; it starts
      at most one call after the deadline, and after such a call the deadline has passed for good. */
  ghost predicate Kept(s: Snap, s': Snap, removable: set<Id>, group: Option<Id>, limit: Option<int>) {
    && s.clock <= s'.clock && s.faults <= s'.faults && s.attempted <= s'.attempted
    && Shrunk(s.objs, s'.objs, removable) && PeersKept(s.objs, group, s.peers, s'.peers)
    && s.late <= s'.late && (s'.late > s.late ==> s'.late == s.late + 1 && Past(s'.clock, limit))
  }

  lemma KeptTrans(a: Snap, b: Snap, c: Snap, r1: set<Id>, r2: set<Id>, group: Option<Id>, limit: Option<int>)
    requires Kept(a, b, r1, group, limit) && Kept(b, c, r2, group, limit)
    requires Past(b.clock, limit) ==> b.late == c.late || b.late == a.late
    ensures Kept(a, c, r1 + r2, group, limit)
  {
  }

  /** `if row.<id>: try: client.delete_...`, right after a check of the deadline. */
  method DeleteRecorded(cloud: Cloud, id: Option<Id>, limit: Option<int>)
    requires cloud.Valid() && limit == cloud.deadline && !cloud.Expired(limit)
    modifies cloud`objs, cloud`peers, cloud`clock, cloud`log
    ensures cloud.Valid() && Kept(old(Now(cloud)), Now(cloud), Ids(id), None, limit)
    ensures cloud.log.late == old(cloud.log.late) && cloud.log.unclean == old(cloud.log.unclean)
    ensures Ids(id) <= cloud.log.attempted
    ensures cloud.log.faults == old(cloud.log.faults) ==> cloud.objs == old(cloud.objs) - Ids(id)
  {
    if id.Some? {
      cloud.Delete(id.value);
    }
  }

  /** The loop over the recorded routes; `done` is false when the deadline cuts it short. */
  method DeleteRoutes(cloud: Cloud, routes: seq<Id>, limit: Option<int>) returns (done: bool)
    requires cloud.Valid() && limit == cloud.deadline
    modifies cloud`objs, cloud`peers, cloud`clock, cloud`log
    ensures cloud.Valid() && Kept(old(Now(cloud)), Now(cloud), RouteIds(routes), None, limit)
    ensures cloud.log.late == old(cloud.log.late) && cloud.log.unclean == old(cloud.log.unclean)
    ensures !done ==> cloud.Expired(limit)
    ensures done ==> RouteIds(routes) <= cloud.log.attempted
    ensures done && cloud.log.faults == old(cloud.log.faults) ==> cloud.objs == old(cloud.objs) - RouteIds(routes)
  {
    done := true;
    var i := 0;
    while i < |routes|
      invariant 0 <= i <= |routes| && cloud.Valid()
      invariant Kept(old(Now(cloud)), Now(cloud), RouteIds(routes[..i]), None, limit)
      invariant cloud.log.late == old(cloud.log.late) && cloud.log.unclean == old(cloud.log.unclean)
      invariant RouteIds(routes[..i]) <= cloud.log.attempted
      invariant cloud.log.faults == old(cloud.log.faults) ==> cloud.objs == old(cloud.objs) - RouteIds(routes[..i])
    {
      if cloud.Expired(limit) {
        return false;
      }
      cloud.Delete(routes[i]);
      assert RouteIds(routes[..i + 1]) == RouteIds(routes[..i]) + {routes[i]};
      i := i + 1;
    }
    assert routes[..i] == routes;
  }

  lemma KeptWeaken(s: Snap, s': Snap, removable: set<Id>, more: set<Id>, group: Option<Id>, limit: Option<int>)
    requires Kept(s, s', removable, None, limit) && removable <= more
    ensures Kept(s, s', more, group, limit)
  {
  }

  /** The end of an entrypoint's or the access teardown: the peers of the group, then the group itself. */
  method DeleteGroupWithPeers(cloud: Cloud, group: Option<Id>, limit: Option<int>) returns (done: bool)
    requires cloud.Valid() && limit == cloud.deadline
    modifies cloud`objs, cloud`peers, cloud`clock, cloud`log
    ensures cloud.Valid() && Kept(old(Now(cloud)), Now(cloud), Ids(group), group, limit)
    ensures !old(cloud.Expired(limit)) ==> cloud.log.late == old(cloud.log.late)
    ensures !done ==> cloud.Expired(limit)
    ensures done ==> Ids(group) <= cloud.log.attempted
    ensures cloud.log.faults == old(cloud.log.faults) && !cloud.Expired(limit) ==>
              done && cloud.objs == Cleared(old(cloud.objs), {}, group)
    ensures cloud.log.faults == old(cloud.log.faults) && !cloud.Expired(limit)
            && (group.Some? ==> !Referenced(old(cloud.objs), group.value)) ==>
              && cloud.log.unclean == old(cloud.log.unclean)
              && (group.Some? ==> Members(cloud.peers, group.value) == {})
  {
    DeleteGroupPeers(cloud, group, limit);
    assert cloud.objs - {} == cloud.objs;
    if cloud.Expired(limit) {
      return false;
    }
    if group.Some? {
      assert Joinable(cloud.objs, group.value) ==> Referenced(cloud.objs, group.value);
      cloud.DeleteGroup(group.value);
    }
    done := true;
  }

  /** `_destroy_single_entrypoint`; the row is deleted iff `deleted`. */
  method DestroyEntrypoint(cloud: Cloud, row: EntrypointRow, limit: Option<int>) returns (deleted: bool)
    requires cloud.Valid() && limit == cloud.deadline
    modifies cloud`objs, cloud`peers, cloud`clock, cloud`log
    ensures cloud.Valid() && Kept(old(Now(cloud)), Now(cloud), EntrypointIds(row), row.group, limit)
    ensures old(cloud.Expired(limit)) ==> Now(cloud) == old(Now(cloud)) && !deleted
    ensures !deleted ==> cloud.Expired(limit)
    ensures deleted ==> EntrypointIds(row) <= cloud.log.attempted
    ensures Smooth(old(Now(cloud)), Now(cloud), limit) ==>
              deleted && cloud.objs == Cleared(old(cloud.objs), Satellites(row), row.group)
    ensures Smooth(old(Now(cloud)), Now(cloud), limit)
            && (row.group.Some? ==> !Referenced(old(cloud.objs) - Satellites(row), row.group.value)) ==>
              && cloud.log.unclean == old(cloud.log.unclean)
              && (row.group.Some? ==> Members(cloud.peers, row.group.value) == {})
  {
    if cloud.Expired(limit) {
      return false;
    }
    ghost var s0 := Now(cloud);
    DeleteRecorded(cloud, row.policy, limit);
    ghost var s1 := Now(cloud);
    KeptWeaken(s0, s1, Ids(row.policy), Ids(row.policy), row.group, limit);
    var done := DeleteRoutes(cloud, row.routes, limit);
    ghost var s2 := Now(cloud);
    KeptWeaken(s1, s2, RouteIds(row.routes), RouteIds(row.routes), row.group, limit);
    KeptTrans(s0, s1, s2, Ids(row.policy), RouteIds(row.routes), row.group, limit);
    if !done || cloud.Expired(limit) {
      KeptMore(s0, s2, Ids(row.policy) + RouteIds(row.routes), EntrypointIds(row), row.group, limit);
      return false;
    }
    DeleteRecorded(cloud, row.key, limit);
    ghost var s3 := Now(cloud);
    KeptWeaken(s2, s3, Ids(row.key), Ids(row.key), row.group, limit);
    KeptTrans(s0, s2, s3, Ids(row.policy) + RouteIds(row.routes), Ids(row.key), row.group, limit);
    deleted := DeleteGroupWithPeers(cloud, row.group, limit);
    ghost var s4 := Now(cloud);
    KeptTrans(s0, s3, s4, Satellites(row), Ids(row.group), row.group, limit);
    ClearedInSteps(s0.objs, Ids(row.policy), RouteIds(row.routes), Ids(row.key), row.group);
  }

  /** No call failed and the deadline has not passed. */
  predicate Smooth(s: Snap, s': Snap, limit: Option<int>) {
    s'.faults == s.faults && !Past(s'.clock, limit)
  }

  lemma KeptMore(s: Snap, s': Snap, removable: set<Id>, more: set<Id>, group: Option<Id>, limit: Option<int>)
    requires Kept(s, s', removable, group, limit) && removable <= more
    ensures Kept(s, s', more, group, limit)
  {
  }

  lemma ClearedInSteps(objs: map<Id, Obj>, a: set<Id>, b: set<Id>, c: set<Id>, group: Option<Id>)
    ensures objs - a - b - c == objs - (a + b + c)
    ensures Cleared(objs - a - b - c, {}, group) == Cleared(objs, a + b + c, group)
  {
    assert objs - a - b - c - {} == objs - (a + b + c);
  }

  lemma RemovedInSteps(objs: map<Id, Obj>, a: set<Id>, b: set<Id>, group: Option<Id>)
    ensures objs - a - b == objs - (a + b)
    ensures Cleared(objs - a - b, {}, group) == Cleared(objs, a + b, group)
  {
    assert objs - a - b - {} == objs - (a + b);
  }

  /** `_destroy_access`; the row is deleted iff `deleted`. */
  method DestroyAccess(cloud: Cloud, access: AccessRow, limit: Option<int>) returns (deleted: bool)
    requires cloud.Valid() && limit == cloud.deadline
    modifies cloud`objs, cloud`peers, cloud`clock, cloud`log
    ensures cloud.Valid() && Kept(old(Now(cloud)), Now(cloud), AccessIds(access), access.group, limit)
    ensures old(cloud.Expired(limit)) ==> Now(cloud) == old(Now(cloud)) && !deleted
    ensures !deleted ==> cloud.Expired(limit)
    ensures deleted ==> AccessIds(access) <= cloud.log.attempted
    ensures Smooth(old(Now(cloud)), Now(cloud), limit) ==>
              deleted && cloud.objs == Cleared(old(cloud.objs), AccessSatellites(access), access.group)
    ensures Smooth(old(Now(cloud)), Now(cloud), limit)
            && (access.group.Some? ==> !Referenced(old(cloud.objs) - AccessSatellites(access), access.group.value)) ==>
              && cloud.log.unclean == old(cloud.log.unclean)
              && (access.group.Some? ==> Members(cloud.peers, access.group.value) == {})
  {
    if cloud.Expired(limit) {
      return false;
    }
    ghost var s0 := Now(cloud);
    DeleteRecorded(cloud, access.dns, limit);
    ghost var s1 := Now(cloud);
    KeptWeaken(s0, s1, Ids(access.dns), Ids(access.dns), access.group, limit);
    if cloud.Expired(limit) {
      KeptMore(s0, s1, Ids(access.dns), AccessIds(access), access.group, limit);
      return false;
    }
    DeleteRecorded(cloud, access.key, limit);
    ghost var s2 := Now(cloud);
    KeptWeaken(s1, s2, Ids(access.key), Ids(access.key), access.group, limit);
    KeptTrans(s0, s1, s2, Ids(access.dns), Ids(access.key), access.group, limit);
    deleted := DeleteGroupWithPeers(cloud, access.group, limit);
    ghost var s3 := Now(cloud);
    KeptTrans(s0, s2, s3, AccessSatellites(access), Ids(access.group), access.group, limit);
    RemovedInSteps(s0.objs, Ids(access.dns), Ids(access.key), access.group);
  }
}

/** Provisioning and teardown of all NetBird objects of one sandbox. */
module NetbirdSandbox {
  import opened Wrappers
  import opened NetbirdCloud
  import opened NetbirdTeardown
  import opened NetbirdTracking

  /** What any part of a run keeps about the log and the clock. */
  ghost predicate Bounded(s: Snap, s': Snap, limit: Option<int>) {
    && s.clock <= s'.clock && s.faults <= s'.faults && s.attempted <= s'.attempted
    && s.late <= s'.late <= s.late + 1 && (s'.late > s.late ==> Past(s'.clock, limit))
  }

  /** Teardown of one row in the account of the remaining ones. */
  method DestroyNext(cloud: Cloud, access: Option<AccessRow>, rows: seq<EntrypointRow>, limit: Option<int>,
                     ghost start: Id, ghost loose: set<Id>, ghost residue: set<Id>) returns (deleted: bool)
    requires cloud.Valid() && limit == cloud.deadline && |rows| > 0
    modifies cloud`objs, cloud`peers, cloud`clock, cloud`log
    ensures cloud.Valid() && Bounded(old(Now(cloud)), Now(cloud), limit)
    ensures old(cloud.Expired(limit)) ==> Now(cloud) == old(Now(cloud)) && !deleted
    ensures !deleted ==> cloud.Expired(limit)
    ensures Shrunk(old(cloud.objs), cloud.objs, EntrypointIds(rows[0]))
    ensures deleted ==> EntrypointIds(rows[0]) <= cloud.log.attempted
    ensures Smooth(old(Now(cloud)), Now(cloud), limit)
            && Tracked(old(cloud.objs), old(cloud.peers), start, access, rows, loose, residue) ==>
              && Tracked(cloud.objs, cloud.peers, start, access, rows[1..], loose, residue)
              && (loose == {} ==> cloud.log.unclean == old(cloud.log.unclean))
  {
    ghost var s0 := Now(cloud);
    deleted := DestroyEntrypoint(cloud, rows[0], limit);
    if Smooth(s0, Now(cloud), limit) && Tracked(s0.objs, s0.peers, start, access, rows, loose, residue) {
      EntrypointCleared(s0.objs, s0.peers, cloud.peers, start, access, rows, loose, residue);
      OwnGroupFree(s0.objs, start, access, rows, loose, residue);
    }
  }

  lemma OwnGroupFree(objs: map<Id, Obj>, start: Id, access: Option<AccessRow>, rows: seq<EntrypointRow>,
                     loose: set<Id>, residue: set<Id>)
    requires |rows| > 0 && HostLinks(objs, rows, loose)
    ensures loose == {} && rows[0].group.Some? ==> !Referenced(objs - Satellites(rows[0]), rows[0].group.value)
  {
  }

  /** A row that is gone had a deletion attempted for every id on it. */
  ghost predicate AttemptedUnlessLeft(rows: seq<EntrypointRow>, left: seq<EntrypointRow>, attempted: set<Id>) {
    forall r :: r in rows ==> r in left || EntrypointIds(r) <= attempted
  }

  /** Only objects that the rows record were removed, and none was changed. */
  ghost predicate OnlyRecordedRemoved(objs: map<Id, Obj>, objs': map<Id, Obj>, access: Option<AccessRow>,
                                      rows: seq<EntrypointRow>)
  {
    && (forall id :: id in objs' ==> id in objs && objs'[id] == objs[id])
    && (forall id :: id in objs && id !in objs' ==> Recorded(access, rows, id))
  }

  /** The rows before `i` have been dealt with. */
  ghost predicate Swept(s0: Snap, s: Snap, rows: seq<EntrypointRow>, i: nat, left: seq<EntrypointRow>,
                        limit: Option<int>)
    requires i <= |rows|
  {
    && Bounded(s0, s, limit) && AttemptedUnlessLeft(rows[..i], left, s.attempted)
    && (left != [] ==> Past(s.clock, limit)) && OnlyRecordedRemoved(s0.objs, s.objs, None, rows[..i])
  }

  lemma RowSwept(rows: seq<EntrypointRow>, i: nat, o0: map<Id, Obj>, o1: map<Id, Obj>, o2: map<Id, Obj>)
    requires i < |rows| && OnlyRecordedRemoved(o0, o1, None, rows[..i]) && Shrunk(o1, o2, EntrypointIds(rows[i]))
    ensures OnlyRecordedRemoved(o0, o2, None, rows[..i + 1])
  {
    assert forall k :: 0 <= k < i ==> rows[..i + 1][k] == rows[..i][k];
    assert rows[..i + 1][i] == rows[i];
  }

  lemma NextSwept(s0: Snap, s1: Snap, s2: Snap, rows: seq<EntrypointRow>, i: nat, left: seq<EntrypointRow>,
                  deleted: bool, limit: Option<int>)
    requires i < |rows| && Swept(s0, s1, rows, i, left, limit) && !Past(s1.clock, limit) && Bounded(s1, s2, limit)
    requires Shrunk(s1.objs, s2.objs, EntrypointIds(rows[i]))
    requires if deleted then EntrypointIds(rows[i]) <= s2.attempted else Past(s2.clock, limit)
    ensures Swept(s0, s2, rows, i + 1, if deleted then left else left + [rows[i]], limit)
  {
    RowSwept(rows, i, s0.objs, s1.objs, s2.objs);
    assert rows[..i + 1] == rows[..i] + [rows[i]];
  }

  /** The loop over the entrypoint rows. */
  method DestroyEntrypoints(cloud: Cloud, rows: seq<EntrypointRow>, access: Option<AccessRow>, limit: Option<int>,
                            ghost start: Id, ghost loose: set<Id>, ghost residue: set<Id>)
    returns (left: seq<EntrypointRow>)
    requires cloud.Valid() && limit == cloud.deadline
    modifies cloud`objs, cloud`peers, cloud`clock, cloud`log
    ensures cloud.Valid() && Swept(old(Now(cloud)), Now(cloud), rows, |rows|, left, limit)
    ensures Smooth(old(Now(cloud)), Now(cloud), limit)
            && Tracked(old(cloud.objs), old(cloud.peers), start, access, rows, loose, residue) ==>
              && Tracked(cloud.objs, cloud.peers, start, access, [], loose, residue)
              && (loose == {} ==> cloud.log.unclean == old(cloud.log.unclean))
  {
    left := [];
    ghost var s0 := Now(cloud);
    ghost var tracked := Tracked(s0.objs, s0.peers, start, access, rows, loose, residue);
    var i := 0;
    assert rows[0..] == rows;
    while i < |rows|
      invariant 0 <= i <= |rows| && cloud.Valid() && Swept(s0, Now(cloud), rows, i, left, limit)
      invariant Smooth(s0, Now(cloud), limit) && tracked ==>
                  && Tracked(cloud.objs, cloud.peers, start, access, rows[i..], loose, residue)
                  && (loose == {} ==> cloud.log.unclean == s0.unclean)
    {
      if cloud.Expired(limit) {
        RestLeft(s0, Now(cloud), rows, i, left, limit);
        left := left + rows[i..];
        return;
      }
      ghost var s1 := Now(cloud);
      var deleted := DestroyNext(cloud, access, rows[i..], limit, start, loose, residue);
      NextSwept(s0, s1, Now(cloud), rows, i, left, deleted, limit);
      if !deleted {
        left := left + [rows[i]];
      }
      i := i + 1;
      assert rows[i - 1..][1..] == rows[i..];
    }
    assert rows[i..] == [];
  }

  lemma RestLeft(s0: Snap, s: Snap, rows: seq<EntrypointRow>, i: nat, left: seq<EntrypointRow>, limit: Option<int>)
    requires i <= |rows| && Swept(s0, s, rows, i, left, limit) && Past(s.clock, limit)
    ensures Swept(s0, s, rows, |rows|, left + rows[i..], limit)
  {
    assert rows[..|rows|] == rows == rows[..i] + rows[i..];
    assert forall k :: 0 <= k < i ==> rows[..i][k] == rows[k];
  }

  /** `destroy_netbird_for_sandbox`: `left` and `accessLeft` are the rows that still exist afterwards.  A row is
      deleted only after a deletion was attempted for every id on it, and one is left only when the budget is
      exceeded; at most one call starts after the deadline; without failures and within the budget everything that
      the rows account for is removed, and no group deletion is issued while something refers to the group or a peer
      is in it. */
  method DestroySandbox(cloud: Cloud, rows: seq<EntrypointRow>, access: Option<AccessRow>, budget: int,
                        ghost start: Id, ghost loose: set<Id>, ghost residue: set<Id>)
    returns (left: seq<EntrypointRow>, accessLeft: Option<AccessRow>)
    requires cloud.Valid()
    modifies cloud`objs, cloud`peers, cloud`clock, cloud`log, cloud`deadline
    ensures cloud.Valid()
    ensures cloud.log.late <= old(cloud.log.late) + 1
    ensures AttemptedUnlessLeft(rows, left, cloud.log.attempted)
    ensures access.Some? ==> accessLeft == access || AccessIds(access.value) <= cloud.log.attempted
    ensures left != [] || accessLeft.Some? ==> cloud.clock > old(cloud.clock) + budget
    ensures OnlyRecordedRemoved(old(cloud.objs), cloud.objs, access, rows)
    ensures Smooth(old(Now(cloud)), Now(cloud), Some(old(cloud.clock) + budget))
            && Tracked(old(cloud.objs), old(cloud.peers), start, access, rows, loose, residue) ==>
              && left == [] && accessLeft == None
              && Tracked(cloud.objs, cloud.peers, start, None, [], loose, residue)
              && (loose == {} ==> cloud.log.unclean == old(cloud.log.unclean))
  {
    left, accessLeft := rows, access;
    if rows == [] && access == None {
      return;
    }
    var limit := Some(cloud.clock + budget);
    cloud.deadline := limit;
    ghost var s0 := Now(cloud);
    left := DestroyEntrypoints(cloud, rows, access, limit, start, loose, residue);
    ghost var s1 := Now(cloud);
    assert rows[..|rows|] == rows;
    if access.Some? {
      if cloud.Expired(limit) {
        return;
      }
      var deleted := DestroyAccess(cloud, access.value, limit);
      if deleted {
        accessLeft := None;
      }
      AllSwept(s0.objs, s1.objs, cloud.objs, access.value, rows);
      if Smooth(s0, Now(cloud), limit) && Tracked(s0.objs, s0.peers, start, access, rows, loose, residue) {
        AccessCleared(s1.objs, s1.peers, cloud.peers, start, access.value, loose, residue);
      }
    }
  }

  lemma AllSwept(o0: map<Id, Obj>, o1: map<Id, Obj>, o2: map<Id, Obj>, a: AccessRow, rows: seq<EntrypointRow>)
    requires OnlyRecordedRemoved(o0, o1, None, rows) && Shrunk(o1, o2, AccessIds(a))
    ensures OnlyRecordedRemoved(o0, o2, Some(a), rows)
  {
  }
}

/** When the rows of a sandbox account for everything it has in the cloud, and what clearing them leaves. */
module NetbirdTracking {
  import opened Wrappers
  import opened NetbirdCloud
  import opened NetbirdTeardown

  predicate Groups(access: Option<AccessRow>, rows: seq<EntrypointRow>, g: Id) {
    || (access.Some? && access.value.group == Some(g))
    || (exists i :: 0 <= i < |rows| && rows[i].group == Some(g))
  }

  /** Satellites of any of the rows. */
  predicate Satellite(rows: seq<EntrypointRow>, id: Id) {
    exists i :: 0 <= i < |rows| && id in Satellites(rows[i])
  }

  predicate Recorded(access: Option<AccessRow>, rows: seq<EntrypointRow>, id: Id) {
    || (access.Some? && id in AccessIds(access.value))
    || (exists i :: 0 <= i < |rows| && id in EntrypointIds(rows[i]))
  }

  /** Objects older than `start` are not the sandbox's and refer to none of its groups. */
  ghost predicate BaseClosed(objs: map<Id, Obj>, start: Id) {
    forall id, g :: id in objs && id < start && g in Refs(objs[id]) ==> g < start
  }

  /** Every object of the sandbox is recorded, or in the residue. */
  ghost predicate Accounted(objs: map<Id, Obj>, start: Id, access: Option<AccessRow>, rows: seq<EntrypointRow>,
                            residue: set<Id>)
  {
    forall id :: id in objs && start <= id ==> id in residue || Recorded(access, rows, id)
  }

  ghost predicate RecordedAfter(start: Id, access: Option<AccessRow>, rows: seq<EntrypointRow>) {
    forall id :: Recorded(access, rows, id) ==> start <= id
  }

  /** Only an entrypoint's own objects, or loose ones, refer to its group. */
  ghost predicate HostLinks(objs: map<Id, Obj>, rows: seq<EntrypointRow>, loose: set<Id>) {
    forall i, id :: 0 <= i < |rows| && id in objs && rows[i].group.Some? && rows[i].group.value in Refs(objs[id]) ==>
      id in Satellites(rows[i]) || id in loose
  }

  /** Only recorded or loose objects refer to the access group. */
  ghost predicate AccessLinks(objs: map<Id, Obj>, access: Option<AccessRow>, rows: seq<EntrypointRow>, loose: set<Id>) {
    access.Some? && access.value.group.Some? ==>
      forall id :: id in objs && access.value.group.value in Refs(objs[id]) ==>
        id in AccessSatellites(access.value) || Satellite(rows, id) || id in loose
  }

  ghost predicate LooseLinks(objs: map<Id, Obj>, start: Id, loose: set<Id>, residue: set<Id>) {
    forall id, g :: id in loose && id in objs && g in Refs(objs[id]) ==> g in residue || g < start
  }

  ghost predicate PeersAccounted(objs: map<Id, Obj>, peers: map<Id, Id>, start: Id,
                                 access: Option<AccessRow>, rows: seq<EntrypointRow>, residue: set<Id>) {
    && (forall p :: p in peers && start <= peers[p] ==> peers[p] in residue || Groups(access, rows, peers[p]))
    && (forall g :: Joinable(objs, g) && start <= g ==> g in residue || Groups(access, rows, g))
  }

  /** The rows account for the sandbox: what they do not record is in `residue`, which holds the `loose`
      objects and the groups those refer to. */
  ghost predicate Tracked(objs: map<Id, Obj>, peers: map<Id, Id>, start: Id, access: Option<AccessRow>,
                          rows: seq<EntrypointRow>, loose: set<Id>, residue: set<Id>) {
    && BaseClosed(objs, start) && Accounted(objs, start, access, rows, residue) && RecordedAfter(start, access, rows)
    && HostLinks(objs, rows, loose) && AccessLinks(objs, access, rows, loose) && LooseLinks(objs, start, loose, residue)
    && PeersAccounted(objs, peers, start, access, rows, residue)
  }

  // ---------------------------------------------------------------- clearing one row

  /** The group of a cleared row stays only if a loose object refers to it. */
  lemma GroupProtectedByLoose(objs: map<Id, Obj>, start: Id, rows: seq<EntrypointRow>, loose: set<Id>, residue: set<Id>)
    requires |rows| > 0 && rows[0].group.Some? && start <= rows[0].group.value
    requires HostLinks(objs, rows, loose) && LooseLinks(objs, start, loose, residue)
    requires Referenced(objs - Satellites(rows[0]), rows[0].group.value)
    ensures rows[0].group.value in residue && loose != {}
  {
  }

  lemma FewerRows(access: Option<AccessRow>, rows: seq<EntrypointRow>, id: Id)
    requires |rows| > 0
    ensures Recorded(access, rows, id) <==> id in EntrypointIds(rows[0]) || Recorded(access, rows[1..], id)
    ensures Groups(access, rows, id) <==> rows[0].group == Some(id) || Groups(access, rows[1..], id)
    ensures Satellite(rows, id) <==> id in Satellites(rows[0]) || Satellite(rows[1..], id)
  {
    assert forall i :: 0 < i < |rows| ==> rows[1..][i - 1] == rows[i];
  }

  lemma EntrypointCleared(objs: map<Id, Obj>, peers: map<Id, Id>, peers': map<Id, Id>, start: Id,
                          access: Option<AccessRow>, rows: seq<EntrypointRow>, loose: set<Id>, residue: set<Id>)
    requires Tracked(objs, peers, start, access, rows, loose, residue) && |rows| > 0
    requires PeersKept(objs, rows[0].group, peers, peers')
    requires var r := rows[0];
             r.group.Some? && !Referenced(objs - Satellites(r), r.group.value) ==> Members(peers', r.group.value) == {}
    ensures Tracked(Cleared(objs, Satellites(rows[0]), rows[0].group), peers', start, access, rows[1..], loose, residue)
  {
    var r := rows[0];
    var objs' := Cleared(objs, Satellites(r), r.group);
    assert r.group.Some? ==> start <= r.group.value by {
      if r.group.Some? { assert Recorded(access, rows, r.group.value); }
    }
    if r.group.Some? && Referenced(objs - Satellites(r), r.group.value) {
      GroupProtectedByLoose(objs, start, rows, loose, residue);
    }
    assert forall id :: id in objs' ==> id in objs && objs'[id] == objs[id] && id !in Satellites(r);
    forall id ensures Recorded(access, rows, id) <==> id in EntrypointIds(r) || Recorded(access, rows[1..], id) {
      FewerRows(access, rows, id);
    }
    assert Accounted(objs', start, access, rows[1..], residue);
    assert RecordedAfter(start, access, rows[1..]);
    ClearedLinks(objs, objs', access, rows, loose);
    ClearedPeers(objs, objs', peers, peers', start, access, rows, loose, residue);
  }

  lemma ClearedLinks(objs: map<Id, Obj>, objs': map<Id, Obj>, access: Option<AccessRow>, rows: seq<EntrypointRow>,
                     loose: set<Id>)
    requires |rows| > 0 && HostLinks(objs, rows, loose) && AccessLinks(objs, access, rows, loose)
    requires forall id :: id in objs' ==> id in objs && objs'[id] == objs[id] && id !in Satellites(rows[0])
    ensures HostLinks(objs', rows[1..], loose) && AccessLinks(objs', access, rows[1..], loose)
  {
    forall id ensures Satellite(rows, id) <==> id in Satellites(rows[0]) || Satellite(rows[1..], id) {
      FewerRows(access, rows, id);
    }
  }

  lemma ClearedPeers(objs: map<Id, Obj>, objs': map<Id, Obj>, peers: map<Id, Id>, peers': map<Id, Id>, start: Id,
                     access: Option<AccessRow>, rows: seq<EntrypointRow>, loose: set<Id>, residue: set<Id>)
    requires |rows| > 0 && PeersAccounted(objs, peers, start, access, rows, residue)
               && PeersKept(objs, rows[0].group, peers, peers')
    requires forall id :: id in objs' ==> id in objs && objs'[id] == objs[id]
    requires rows[0].group.Some? ==>
               var g := rows[0].group.value;
               g in residue || (!Referenced(objs', g) && Members(peers', g) == {})
    ensures PeersAccounted(objs', peers', start, access, rows[1..], residue)
  {
    forall g | start <= g && (Groups(access, rows, g) || g in residue)
      ensures Groups(access, rows[1..], g) || g in residue || rows[0].group == Some(g)
    {
      FewerRows(access, rows, g);
    }
    forall p | p in peers' && start <= peers'[p] ensures peers'[p] in residue || Groups(access, rows[1..], peers'[p]) {
      var g := peers'[p];
      assert g in residue || Groups(access, rows, g);
      if rows[0].group == Some(g) { assert p in Members(peers', g); }
    }
    forall g | Joinable(objs', g) && start <= g ensures g in residue || Groups(access, rows[1..], g) {
      assert Joinable(objs, g);
      assert Referenced(objs', g);
    }
  }

  /** The access row is cleared last, when no entrypoint row is left. */
  lemma AccessCleared(objs: map<Id, Obj>, peers: map<Id, Id>, peers': map<Id, Id>, start: Id, a: AccessRow,
                      loose: set<Id>, residue: set<Id>)
    requires Tracked(objs, peers, start, Some(a), [], loose, residue) && PeersKept(objs, a.group, peers, peers')
    requires a.group.Some? && !Referenced(objs - AccessSatellites(a), a.group.value) ==>
               Members(peers', a.group.value) == {}
    ensures Tracked(Cleared(objs, AccessSatellites(a), a.group), peers', start, None, [], loose, residue)
    ensures loose == {} && a.group.Some? ==> !Referenced(objs - AccessSatellites(a), a.group.value)
  {
    var objs' := Cleared(objs, AccessSatellites(a), a.group);
    assert forall id :: id in objs' ==> id in objs && objs'[id] == objs[id] && id !in AccessSatellites(a);
    if a.group.Some? {
      assert Recorded(Some(a), [], a.group.value);
      assert Referenced(objs - AccessSatellites(a), a.group.value) ==> a.group.value in residue && loose != {};
    }
    forall p | p in peers' && start <= peers'[p] ensures peers'[p] in residue {
      var g := peers'[p];
      assert g in residue || Groups(Some(a), [], g);
      if a.group == Some(g) { assert p in Members(peers', g); }
    }
    forall g | Joinable(objs', g) && start <= g ensures g in residue {
      assert Joinable(objs, g);
      assert Referenced(objs', g);
    }
  }
}

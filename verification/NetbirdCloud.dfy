/** The NetBird management API as the sandbox service uses it: objects that refer to groups, peers that join
    a group through a setup key at any time, a clock that advances during calls, and calls that may fail. */
module NetbirdCloud {
  import opened Wrappers

  type Id = nat

  datatype Obj =
    | Group
    | Key(group: Id)
    | Route(peerGroup: Id, clientGroup: Id)
    | Policy(source: Id, destination: Id)
    | Nameserver(group: Id)

  function Refs(o: Obj): set<Id> {
    match o
    case Group => {}
    case Key(g) => {g}
    case Route(p, c) => {p, c}
    case Policy(s, d) => {s, d}
    case Nameserver(g) => {g}
  }

  predicate Referenced(objs: map<Id, Obj>, g: Id) {
    exists id :: id in objs && g in Refs(objs[id])
  }

  /** A setup key whose holders join group `g`. */
  predicate Joinable(objs: map<Id, Obj>, g: Id) {
    exists id :: id in objs && objs[id] == Key(g)
  }

  function Members(peers: map<Id, Id>, g: Id): set<Id> {
    set p | p in peers && peers[p] == g
  }

  /** Bookkeeping about a run: calls that failed, calls started after the deadline, ids whose deletion was
      attempted, and groups whose deletion was issued while something referred to them or a peer was in them. */
  datatype Log = Log(faults: nat, late: nat, attempted: set<Id>, unclean: set<Id>)

  /** A creation that was asked for, and whether it was made. */
  datatype Creation = Creation(obj: Obj, made: bool)

  /** A route creation failed after another route to the same peers had been made. */
  ghost predicate RouteCut(cs: seq<Creation>) {
    exists i, j :: 0 <= i < j < |cs| && cs[i].obj.Route? && cs[j].obj.Route? && cs[i].made && !cs[j].made
                   && cs[i].obj.peerGroup == cs[j].obj.peerGroup
  }

  /** While a call is on its way peers may join through existing keys and time passes. */
  ghost predicate Elapsed(objs: map<Id, Obj>, peers: map<Id, Id>, peers': map<Id, Id>) {
    && (forall p :: p in peers ==> p in peers' && peers'[p] == peers[p])
    && (forall p :: p in peers' ==> (p in peers && peers[p] == peers'[p]) || Joinable(objs, peers'[p]))
  }

  class Cloud {
    var objs: map<Id, Obj>
    var peers: map<Id, Id>
    var nextId: Id
    var clock: int
    ghost var deadline: Option<int>
    ghost var log: Log
    ghost var creations: seq<Creation>

    /** Identifiers are handed out once, and only known ones are referred to. */
    ghost predicate Valid()
      reads this
    {
      && (forall id :: id in objs ==> id < nextId && forall g :: g in Refs(objs[id]) ==> g < nextId)
      && (forall p :: p in peers ==> peers[p] < nextId)
    }

    /** `_expired`. */
    predicate Expired(limit: Option<int>)
      reads this
    {
      limit.Some? && clock > limit.value
    }

    /** The start of every call. */
    method Call()
      requires Valid()
      modifies this`peers, this`clock, this`log
      ensures Valid() && old(clock) <= clock && Elapsed(objs, old(peers), peers)
      ensures log == old(log).(late := old(log.late) + (if old(Expired(deadline)) then 1 else 0))
    {
      if Expired(deadline) {
        log := log.(late := log.late + 1);
      }
      var wait: int := *;
      if wait > 0 {
        clock := clock + wait;
      }
      var joining: map<Id, Id> := *;
      if forall p :: p in joining ==> p !in peers && Joinable(objs, joining[p]) {
        forall g: Id | Joinable(objs, g) ensures g < nextId {
          var id :| id in objs && objs[id] == Key(g);
          assert g in Refs(objs[id]);
        }
        peers := peers + joining;
      }
    }

    method Create(o: Obj) returns (id: Option<Id>)
      requires Valid() && forall g :: g in Refs(o) ==> g < nextId
      modifies this`objs, this`peers, this`clock, this`log, this`nextId, this`creations
      ensures Valid() && old(clock) <= clock && old(nextId) <= nextId
      ensures creations == old(creations) + [Creation(o, id.Some?)]
      ensures Elapsed(old(objs), old(peers), peers)
      ensures log.late == old(log.late) + (if old(Expired(deadline)) then 1 else 0)
      ensures log.attempted == old(log.attempted) && log.unclean == old(log.unclean)
      ensures id.None? ==> objs == old(objs) && nextId == old(nextId) && log.faults == old(log.faults) + 1
      ensures id.Some? ==> id.value == old(nextId) && nextId == id.value + 1
      ensures id.Some? ==> objs == old(objs)[id.value := o] && log.faults == old(log.faults)
    {
      Call();
      var ok: bool := *;
      creations := creations + [Creation(o, ok)];
      if !ok {
        log := log.(faults := log.faults + 1);
        return None;
      }
      id := Some(nextId);
      objs := objs[nextId := o];
      nextId := nextId + 1;
    }

    /** Deleting anything but a group; an id that is already gone counts as deleted. */
    method Delete(id: Id)
      requires Valid()
      modifies this`objs, this`peers, this`clock, this`log
      ensures Valid() && old(clock) <= clock
      ensures Elapsed(old(objs), old(peers), peers)
      ensures log.late == old(log.late) + (if old(Expired(deadline)) then 1 else 0)
      ensures log.attempted == old(log.attempted) + {id} && log.unclean == old(log.unclean)
      ensures old(log.faults) <= log.faults
      ensures objs == old(objs) || objs == old(objs) - {id}
      ensures log.faults == old(log.faults) ==> objs == old(objs) - {id}
    {
      Call();
      log := log.(attempted := log.attempted + {id});
      var ok: bool := *;
      if ok {
        objs := objs - {id};
      } else {
        log := log.(faults := log.faults + 1);
      }
    }

    /** The cloud rejects the deletion of a group that something refers to. */
    method DeleteGroup(id: Id)
      requires Valid()
      modifies this`objs, this`peers, this`clock, this`log
      ensures Valid() && old(clock) <= clock
      ensures Elapsed(old(objs), old(peers), peers)
      ensures log.late == old(log.late) + (if old(Expired(deadline)) then 1 else 0)
      ensures log.attempted == old(log.attempted) + {id}
      ensures log.unclean == old(log.unclean)
                + (if Referenced(old(objs), id) || Members(peers, id) != {} then {id} else {})
      ensures old(log.faults) <= log.faults
      ensures objs == old(objs) || objs == old(objs) - {id}
      ensures Referenced(old(objs), id) ==> objs == old(objs)
      ensures log.faults == old(log.faults) && !Referenced(old(objs), id) ==> objs == old(objs) - {id}
    {
      Call();
      log := log.(attempted := log.attempted + {id},
                  unclean := log.unclean + (if Referenced(objs, id) || Members(peers, id) != {} then {id} else {}));
      var ok: bool := *;
      if !ok {
        log := log.(faults := log.faults + 1);
      } else if !Referenced(objs, id) {
        objs := objs - {id};
      }
    }

    method ListPeers(g: Id) returns (members: Option<set<Id>>)
      requires Valid()
      modifies this`peers, this`clock, this`log
      ensures Valid() && old(clock) <= clock && Elapsed(objs, old(peers), peers)
      ensures log.late == old(log.late) + (if old(Expired(deadline)) then 1 else 0)
      ensures log.attempted == old(log.attempted) && log.unclean == old(log.unclean)
      ensures members.None? ==> log.faults == old(log.faults) + 1
      ensures members.Some? ==> log.faults == old(log.faults) && members.value == Members(peers, g)
    {
      Call();
      var ok: bool := *;
      if !ok {
        log := log.(faults := log.faults + 1);
        return None;
      }
      members := Some(Members(peers, g));
    }

    method DeletePeer(p: Id)
      requires Valid()
      modifies this`peers, this`clock, this`log
      ensures Valid() && old(clock) <= clock
      ensures forall q :: q in old(peers) && q != p ==> q in peers && peers[q] == old(peers)[q]
      ensures forall q :: q in peers ==> (q in old(peers) && old(peers)[q] == peers[q]) || Joinable(objs, peers[q])
      ensures log.late == old(log.late) + (if old(Expired(deadline)) then 1 else 0)
      ensures log.attempted == old(log.attempted) && log.unclean == old(log.unclean)
      ensures old(log.faults) <= log.faults
      ensures log.faults == old(log.faults) ==> p !in peers
    {
      Call();
      var ok: bool := *;
      if ok {
        peers := peers - {p};
      } else {
        log := log.(faults := log.faults + 1);
      }
    }
  }
}

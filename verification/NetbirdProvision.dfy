/** Provisioning of a sandbox's NetBird objects while its database row may vanish at any moment. */
module NetbirdProvision {
  import opened Wrappers
  import opened NetbirdCloud
  import opened NetbirdTeardown
  import opened NetbirdTracking
  import opened NetbirdSandbox

  /** A VPN entrypoint of the topology definition: a node name and the number of routed networks. */
  datatype Entrypoint = Entrypoint(name: string, routes: nat)

  const NO_ACCESS := AccessRow(None, None, None)

  function NewRow(host: string): EntrypointRow {
    EntrypointRow(host, None, None, [], None)
  }

  /** The NetBird rows of one sandbox.  Deleting the sandbox deletes them, and may happen just before any
      access; saving or creating a row then fails. */
  class Rows {
    var alive: bool
    var access: Option<AccessRow>
    var entrypoints: seq<EntrypointRow>

    ghost predicate Valid()
      reads this
    {
      && (!alive ==> access == None && entrypoints == [])
      && (forall i, j :: 0 <= i < j < |entrypoints| ==> entrypoints[i].host != entrypoints[j].host)
    }

    /** The sandbox may be deleted by somebody else. */
    method Race()
      requires Valid()
      modifies this
      ensures Valid()
      ensures alive ==> old(alive) && access == old(access) && entrypoints == old(entrypoints)
    {
      var deleted: bool := *;
      if deleted {
        alive, access, entrypoints := false, None, [];
      }
    }

    /** `Sandbox.objects.filter(pk=...).exists()`. */
    method Exists() returns (exist: bool)
      requires Valid()
      modifies this
      ensures Valid() && exist == alive
      ensures alive ==> old(alive) && access == old(access) && entrypoints == old(entrypoints)
    {
      Race();
      exist := alive;
    }

    method GetOrCreateAccess() returns (row: Option<AccessRow>)
      requires Valid()
      modifies this
      ensures Valid() && (row.Some? <==> alive) && (alive ==> old(alive) && entrypoints == old(entrypoints))
      ensures alive ==> access == row && row.value == (if old(access).Some? then old(access).value else NO_ACCESS)
    {
      Race();
      if !alive {
        return None;
      }
      if access == None {
        access := Some(NO_ACCESS);
      }
      row := access;
    }

    method SaveAccess(row: AccessRow) returns (saved: bool)
      requires Valid()
      modifies this
      ensures Valid() && saved == alive
                && (alive ==> old(alive) && entrypoints == old(entrypoints) && access == Some(row))
    {
      Race();
      if alive {
        access := Some(row);
      }
      saved := alive;
    }

    method GetOrCreateEntrypoint(host: string) returns (row: Option<EntrypointRow>)
      requires Valid() && forall r :: r in entrypoints ==> r.host != host
      modifies this
      ensures Valid() && (row.Some? <==> alive) && (alive ==> old(alive) && access == old(access))
      ensures alive ==> row.value == NewRow(host) && entrypoints == old(entrypoints) + [row.value]
    {
      Race();
      if !alive {
        return None;
      }
      row := Some(NewRow(host));
      entrypoints := entrypoints + [row.value];
    }

    /** Saves the row that was created last. */
    method SaveEntrypoint(row: EntrypointRow) returns (saved: bool)
      requires Valid()
      requires alive ==> entrypoints != [] && entrypoints[|entrypoints| - 1].host == row.host
      modifies this
      ensures Valid() && saved == alive && (alive ==> old(alive) && access == old(access))
      ensures alive ==> entrypoints == old(entrypoints)[..|old(entrypoints)| - 1] + [row]
    {
      Race();
      if alive {
        entrypoints := entrypoints[..|entrypoints| - 1] + [row];
      }
      saved := alive;
    }

    /** `objects.get(...)` by host name. */
    method Find(host: string) returns (row: Option<EntrypointRow>)
      requires Valid()
      modifies this
      ensures Valid() && (alive ==> old(alive) && access == old(access) && entrypoints == old(entrypoints))
      ensures row.Some? <==> exists r :: r in entrypoints && r.host == host
      ensures row.Some? ==> row.value in entrypoints && row.value.host == host
    {
      Race();
      row := None;
      for i := 0 to |entrypoints|
        invariant row.None? ==> forall r :: r in entrypoints[..i] ==> r.host != host
        invariant row.Some? ==> row.value in entrypoints && row.value.host == host
      {
        if entrypoints[i].host == host {
          row := Some(entrypoints[i]);
        }
      }
    }
  }

  // ---------------------------------------------------------------- what a provisioning step adds

  /** The new objects are `made`, with identifiers from `lo` on, and refer to `refs` only. */
  ghost predicate Grown(objs: map<Id, Obj>, objs': map<Id, Obj>, lo: Id, made: set<Id>, refs: set<Id>) {
    && (forall id :: id in objs ==> id in objs' && objs'[id] == objs[id])
    && (forall id :: id in objs' && id !in objs ==> id in made && Refs(objs'[id]) <= refs)
    && (forall id :: id in made ==> lo <= id && id in objs' && id !in objs)
  }

  /** Objects are only added, with identifiers from `lo` on. */
  ghost predicate Extends(objs: map<Id, Obj>, objs': map<Id, Obj>, lo: Id) {
    && (forall id :: id in objs ==> id in objs' && objs'[id] == objs[id])
    && (forall id :: id in objs' && id !in objs ==> lo <= id)
  }

  /** The observable part of the log that provisioning does not touch, and the peers. */
  ghost predicate Quiet(s: Snap, s': Snap) {
    && s.faults <= s'.faults && s'.attempted == s.attempted && s'.unclean == s.unclean
    && PeersKept(s'.objs, None, s.peers, s'.peers)
  }

  /** The row records a key of its group. */
  ghost predicate HasKey(objs: map<Id, Obj>, group: Option<Id>, key: Option<Id>) {
    group.Some? && key.Some? && key.value in objs && objs[key.value] == Key(group.value)
  }

  /** These are `n` different routes from the users to the peers of the group. */
  ghost predicate HasRoutes(objs: map<Id, Obj>, routes: seq<Id>, n: nat, group: Id, access: Id) {
    && |routes| == n && (forall r :: r in routes ==> r in objs && objs[r] == Route(group, access))
    && forall i, j :: 0 <= i < j < |routes| ==> routes[i] != routes[j]
  }

  ghost predicate HasPolicy(objs: map<Id, Obj>, policy: Option<Id>, group: Id, access: Id) {
    policy.Some? && policy.value in objs && objs[policy.value] == Policy(access, group)
  }

  /** The row records everything that its entrypoint is meant to get: a group, a key of it, a route for every routed
      network, and a policy that lets the users in. */
  ghost predicate Equipped(objs: map<Id, Obj>, row: EntrypointRow, ep: Entrypoint, access: Id) {
    && row.host == ep.name
    && row.group.Some? && row.group.value in objs && objs[row.group.value] == Group
    && HasKey(objs, row.group, row.key)
    && HasRoutes(objs, row.routes, ep.routes, row.group.value, access)
    && HasPolicy(objs, row.policy, row.group.value, access)
  }

  /** The access row records a group and a key of it, and a nameserver group if the topology names servers. */
  ghost predicate SharedEquipped(objs: map<Id, Obj>, row: AccessRow, dns: Option<bool>) {
    && row.group.Some? && row.group.value in objs && objs[row.group.value] == Group
    && HasKey(objs, row.group, row.key)
    && (if dns == Some(true)
        then row.dns.Some? && row.dns.value in objs && objs[row.dns.value] == Nameserver(row.group.value)
        else row.dns.None?)
  }

  lemma StaysEquipped(objs: map<Id, Obj>, objs': map<Id, Obj>, row: EntrypointRow, ep: Entrypoint, access: Id)
    requires forall id :: id in objs ==> id in objs' && objs'[id] == objs[id]
    ensures Equipped(objs, row, ep, access) ==> Equipped(objs', row, ep, access)
  {
  }

  /** How many of the first rows lack something. */
  ghost function Lacking(objs: map<Id, Obj>, rows: seq<EntrypointRow>, eps: seq<Entrypoint>, access: Id): nat
    requires |rows| <= |eps|
  {
    if rows == [] then 0 else
    var i := |rows| - 1;
    Lacking(objs, rows[..i], eps, access) + (if Equipped(objs, rows[i], eps[i], access) then 0 else 1)
  }

  lemma {:induction false} LackingGrows(objs: map<Id, Obj>, objs': map<Id, Obj>, rows: seq<EntrypointRow>,
                                        eps: seq<Entrypoint>, access: Id)
    requires |rows| <= |eps| && forall id :: id in objs ==> id in objs' && objs'[id] == objs[id]
    ensures Lacking(objs', rows, eps, access) <= Lacking(objs, rows, eps, access)
  {
    if rows != [] {
      var i := |rows| - 1;
      LackingGrows(objs, objs', rows[..i], eps, access);
      StaysEquipped(objs, objs', rows[i], eps[i], access);
    }
  }

  lemma {:induction false} NothingLacking(objs: map<Id, Obj>, rows: seq<EntrypointRow>, eps: seq<Entrypoint>,
                                          access: Id)
    requires |rows| <= |eps|
    ensures Lacking(objs, rows, eps, access) == 0
            <==> forall i :: 0 <= i < |rows| ==> Equipped(objs, rows[i], eps[i], access)
  {
    if rows != [] {
      var i := |rows| - 1;
      NothingLacking(objs, rows[..i], eps, access);
      assert forall k :: 0 <= k < i ==> rows[..i][k] == rows[k];
    }
  }

  /** For every row that lacks something a call has failed. */
  ghost predicate Paid(objs: map<Id, Obj>, rows: seq<EntrypointRow>, eps: seq<Entrypoint>, access: Id, failed: int) {
    |rows| <= |eps| && Lacking(objs, rows, eps, access) <= failed
  }

  lemma PaidNext(objs: map<Id, Obj>, objs': map<Id, Obj>, rows: seq<EntrypointRow>, row: EntrypointRow,
                 eps: seq<Entrypoint>, access: Id, failed: int, failed': int)
    requires Paid(objs, rows, eps, access, failed) && |rows| < |eps| && failed <= failed'
    requires forall id :: id in objs ==> id in objs' && objs'[id] == objs[id]
    requires Equipped(objs', row, eps[|rows|], access) || failed < failed'
    ensures Paid(objs', rows + [row], eps, access, failed')
  {
    LackingGrows(objs, objs', rows, eps, access);
    assert (rows + [row])[..|rows|] == rows;
  }

  lemma PaidRound(objs: map<Id, Obj>, objs': map<Id, Obj>, rows: seq<EntrypointRow>, eps: seq<Entrypoint>, i: nat,
                  access: Id, failed: int, failed': int)
    requires i < |eps| && |rows| == i + 1 && Paid(objs, rows[..i], eps, access, failed) && failed <= failed'
    requires forall id :: id in objs ==> id in objs' && objs'[id] == objs[id]
    requires Equipped(objs', rows[i], eps[i], access) || failed < failed'
    ensures Paid(objs', rows, eps, access, failed')
  {
    PaidNext(objs, objs', rows[..i], rows[i], eps, access, failed, failed');
    assert rows[..i] + [rows[i]] == rows;
  }

  lemma GrownTwice(o0: map<Id, Obj>, o1: map<Id, Obj>, o2: map<Id, Obj>, lo: Id, lo': Id, m1: set<Id>, m2: set<Id>,
                   refs: set<Id>, refs': set<Id>)
    requires Grown(o0, o1, lo, m1, refs) && Grown(o1, o2, lo', m2, refs') && lo <= lo'
    ensures Grown(o0, o2, lo, m1 + m2, refs + refs')
  {
  }

  lemma GrownOn(o0: map<Id, Obj>, o1: map<Id, Obj>, o2: map<Id, Obj>, lo: Id, lo': Id, m1: set<Id>, m2: set<Id>,
                refs: set<Id>)
    requires Grown(o0, o1, lo, m1, refs) && Grown(o1, o2, lo', m2, refs) && lo <= lo'
    ensures Grown(o0, o2, lo, m1 + m2, refs)
  {
  }

  lemma QuietTwice(a: Snap, b: Snap, c: Snap)
    requires Quiet(a, b) && Quiet(b, c)
    requires forall id :: id in b.objs ==> id in c.objs && c.objs[id] == b.objs[id]
    ensures Quiet(a, c)
  {
    JoinableGrows(b.objs, c.objs);
  }

  /** What was asked for since then. */
  ghost function Since(before: seq<Creation>, after: seq<Creation>): seq<Creation> {
    if |before| <= |after| then after[|before|..] else []
  }

  /** Since then routes were asked for only to groups from `lo` up to `hi`. */
  ghost predicate Asked(before: seq<Creation>, after: seq<Creation>, lo: Id, hi: Id) {
    && before <= after
    && forall i :: 0 <= i < |Since(before, after)| && Since(before, after)[i].obj.Route? ==>
         lo <= Since(before, after)[i].obj.peerGroup < hi
  }

  /** Since then no route was asked for. */
  ghost predicate NoRoutes(before: seq<Creation>, after: seq<Creation>) {
    before <= after && forall i :: 0 <= i < |Since(before, after)| ==> !Since(before, after)[i].obj.Route?
  }

  /** Since then a route creation failed after another one of the same entrypoint. */
  ghost predicate Cut(before: seq<Creation>, after: seq<Creation>) {
    RouteCut(Since(before, after))
  }

  /** No route creation of one list goes to the peers of one of the other. */
  ghost predicate Apart(x: seq<Creation>, y: seq<Creation>) {
    forall i, j :: 0 <= i < |x| && 0 <= j < |y| && x[i].obj.Route? && y[j].obj.Route? ==>
      x[i].obj.peerGroup != y[j].obj.peerGroup
  }

  lemma CutLeft(x: seq<Creation>, y: seq<Creation>)
    ensures RouteCut(x) || RouteCut(y) ==> RouteCut(x + y)
  {
    var z := x + y;
    if RouteCut(x) {
      var i, j :| 0 <= i < j < |x| && x[i].obj.Route? && x[j].obj.Route? && x[i].made && !x[j].made
                  && x[i].obj.peerGroup == x[j].obj.peerGroup;
      assert z[i] == x[i] && z[j] == x[j];
    } else if RouteCut(y) {
      var i, j :| 0 <= i < j < |y| && y[i].obj.Route? && y[j].obj.Route? && y[i].made && !y[j].made
                  && y[i].obj.peerGroup == y[j].obj.peerGroup;
      assert z[|x| + i] == y[i] && z[|x| + j] == y[j];
    }
  }

  lemma CutJoin(x: seq<Creation>, y: seq<Creation>)
    requires Apart(x, y)
    ensures RouteCut(x + y) <==> RouteCut(x) || RouteCut(y)
  {
    CutLeft(x, y);
    var z := x + y;
    if i, j :| 0 <= i < j < |z| && z[i].obj.Route? && z[j].obj.Route? && z[i].made && !z[j].made
               && z[i].obj.peerGroup == z[j].obj.peerGroup {
      assert i < |x| ==> z[i] == x[i];
      assert j < |x| ==> z[j] == x[j];
      assert i >= |x| ==> z[i] == y[i - |x|];
      assert j >= |x| ==> z[j] == y[j - |x|];
    }
  }

  lemma SinceJoin(a: seq<Creation>, b: seq<Creation>, c: seq<Creation>)
    requires a <= b <= c
    ensures a <= c && Since(a, c) == Since(a, b) + Since(b, c)
  {
  }

  lemma AskedThenNone(a: seq<Creation>, b: seq<Creation>, c: seq<Creation>, lo: Id, hi: Id)
    requires Asked(a, b, lo, hi) && NoRoutes(b, c)
    ensures Asked(a, c, lo, hi) && (Cut(a, c) <==> Cut(a, b))
  {
    SinceJoin(a, b, c);
    CutJoin(Since(a, b), Since(b, c));
  }

  lemma NoneThenAsked(a: seq<Creation>, b: seq<Creation>, c: seq<Creation>, lo: Id, hi: Id)
    requires NoRoutes(a, b) && Asked(b, c, lo, hi)
    ensures Asked(a, c, lo, hi) && (Cut(a, c) <==> Cut(b, c))
  {
    SinceJoin(a, b, c);
    CutJoin(Since(a, b), Since(b, c));
  }

  lemma NoneTwice(a: seq<Creation>, b: seq<Creation>, c: seq<Creation>)
    requires NoRoutes(a, b) && NoRoutes(b, c)
    ensures NoRoutes(a, c)
  {
    SinceJoin(a, b, c);
  }

  lemma NoneAsked(a: seq<Creation>, b: seq<Creation>, lo: Id, hi: Id)
    requires NoRoutes(a, b)
    ensures Asked(a, b, lo, hi) && !Cut(a, b)
  {
  }

  lemma NothingAsked(a: seq<Creation>, lo: Id)
    ensures Asked(a, a, lo, lo) && !Cut(a, a)
  {
  }

  lemma AskedTwice(a: seq<Creation>, b: seq<Creation>, c: seq<Creation>, lo: Id, mid: Id, hi: Id)
    requires Asked(a, b, lo, mid) && Asked(b, c, mid, hi) && lo <= mid <= hi
    ensures Asked(a, c, lo, hi) && (Cut(a, c) <==> Cut(a, b) || Cut(b, c))
  {
    SinceJoin(a, b, c);
    CutJoin(Since(a, b), Since(b, c));
  }

  lemma OneAsked(a: seq<Creation>, o: Obj, made: bool)
    requires !o.Route?
    ensures NoRoutes(a, a + [Creation(o, made)])
  {
    assert Since(a, a + [Creation(o, made)]) == [Creation(o, made)];
  }

  /** The calls of a route loop: it was cut exactly if it failed after the first route. */
  function RouteCalls(route: Obj, n: nat, ok: bool): seq<Creation> {
    seq(n, _ => Creation(route, true)) + (if ok then [] else [Creation(route, false)])
  }

  lemma RouteCallsNone(a: seq<Creation>, route: Obj)
    ensures a + RouteCalls(route, 0, true) == a
  {
  }

  lemma RouteCallsNext(a: seq<Creation>, route: Obj, n: nat)
    ensures a + RouteCalls(route, n, true) + [Creation(route, true)] == a + RouteCalls(route, n + 1, true)
    ensures a + RouteCalls(route, n, true) + [Creation(route, false)] == a + RouteCalls(route, n, false)
  {
  }

  lemma RoutesAsked(a: seq<Creation>, route: Obj, n: nat, ok: bool)
    requires route.Route?
    ensures var b := a + RouteCalls(route, n, ok);
            Asked(a, b, route.peerGroup, route.peerGroup + 1) && (Cut(a, b) <==> !ok && n > 0)
  {
    var cs := RouteCalls(route, n, ok);
    assert Since(a, a + cs) == cs;
    if !ok && n > 0 {
      assert cs[0] == Creation(route, true) && cs[n] == Creation(route, false);
    }
  }

  /** One creation in these terms. */
  method CreateObject(cloud: Cloud, o: Obj) returns (id: Option<Id>)
    requires cloud.Valid() && forall g :: g in Refs(o) ==> g < cloud.nextId
    modifies cloud`objs, cloud`peers, cloud`clock, cloud`log, cloud`nextId, cloud`creations
    ensures cloud.Valid() && old(cloud.nextId) <= cloud.nextId
    ensures Quiet(old(Now(cloud)), Now(cloud))
    ensures Grown(old(cloud.objs), cloud.objs, old(cloud.nextId), Ids(id), Refs(o))
    ensures id.None? ==> cloud.log.faults > old(cloud.log.faults)
    ensures cloud.creations == old(cloud.creations) + [Creation(o, id.Some?)]
    ensures !o.Route? ==> NoRoutes(old(cloud.creations), cloud.creations)
    ensures id.Some? ==> id.value < cloud.nextId && id.value in cloud.objs && cloud.objs[id.value] == o
  {
    id := cloud.Create(o);
    JoinableGrows(old(cloud.objs), cloud.objs);
    if !o.Route? { OneAsked(old(cloud.creations), o, id.Some?); }
  }

  lemma JoinableGrows(objs: map<Id, Obj>, objs': map<Id, Obj>)
    requires forall id :: id in objs ==> id in objs' && objs'[id] == objs[id]
    ensures forall g :: Joinable(objs, g) ==> Joinable(objs', g)
  {
    forall g | Joinable(objs, g) ensures Joinable(objs', g) {
      var id :| id in objs && objs[id] == Key(g);
      assert id in objs' && objs'[id] == Key(g);
    }
  }

  /** `_provision_access`: the in-memory row keeps what was created even when saving it failed. */
  method ProvisionAccess(cloud: Cloud, db: Rows) returns (row: AccessRow, ok: bool)
    requires cloud.Valid() && db.Valid() && db.access == Some(NO_ACCESS)
    modifies cloud`objs, cloud`peers, cloud`clock, cloud`log, cloud`nextId, cloud`creations, db
    ensures cloud.Valid() && db.Valid() && old(cloud.nextId) <= cloud.nextId
    ensures Quiet(old(Now(cloud)), Now(cloud))
    ensures Grown(old(cloud.objs), cloud.objs, old(cloud.nextId), AccessIds(row), Ids(row.group)) && row.dns == None
    ensures if row.group.Some? then cloud.objs[row.group.value] == Group else row.key.None?
    ensures db.alive ==> old(db.alive) && db.entrypoints == old(db.entrypoints) && db.access == Some(row)
    ensures !ok ==> !db.alive || cloud.log.faults > old(cloud.log.faults)
    ensures ok ==> HasKey(cloud.objs, row.group, row.key)
    ensures NoRoutes(old(cloud.creations), cloud.creations)
  {
    ghost var s0, n0 := Now(cloud), cloud.nextId;
    row, ok := NO_ACCESS, false;
    var group := CreateObject(cloud, Group);
    if group.None? {
      return;
    }
    ghost var s1, n1, c1 := Now(cloud), cloud.nextId, cloud.creations;
    row := row.(group := group);
    var saved := db.SaveAccess(row);
    if !saved {
      return;
    }
    var key := CreateObject(cloud, Key(group.value));
    NoneTwice(old(cloud.creations), c1, cloud.creations);
    QuietTwice(s0, s1, Now(cloud));
    GrownTwice(s0.objs, s1.objs, cloud.objs, n0, n1, Ids(group), Ids(key), {}, {group.value});
    assert Ids(group) + Ids(key) == AccessIds(row.(key := key));
    if key.None? {
      return;
    }
    row := row.(key := key);
    ok := db.SaveAccess(row);
  }

  /** `_provision_dns`. */
  method ProvisionDns(cloud: Cloud, db: Rows, access: AccessRow, servers: bool) returns (row: AccessRow, ok: bool)
    requires cloud.Valid() && db.Valid() && access.group.Some? && access.group.value < cloud.nextId
               && access.dns == None
    requires db.alive ==> db.access == Some(access)
    modifies cloud`objs, cloud`peers, cloud`clock, cloud`log, cloud`nextId, cloud`creations, db
    ensures cloud.Valid() && db.Valid() && old(cloud.nextId) <= cloud.nextId
    ensures Quiet(old(Now(cloud)), Now(cloud)) && row == access.(dns := row.dns)
    ensures Grown(old(cloud.objs), cloud.objs, old(cloud.nextId), Ids(row.dns), Ids(access.group))
    ensures db.alive ==> old(db.alive) && db.entrypoints == old(db.entrypoints) && db.access == Some(row)
    ensures !ok ==> !db.alive || cloud.log.faults > old(cloud.log.faults)
    ensures ok && servers ==>
              row.dns.Some? && row.dns.value in cloud.objs
              && cloud.objs[row.dns.value] == Nameserver(access.group.value)
    ensures !servers ==> row.dns == None
    ensures NoRoutes(old(cloud.creations), cloud.creations)
  {
    row, ok := access, true;
    if !servers {
      return;
    }
    var dns := CreateObject(cloud, Nameserver(access.group.value));
    if dns.None? {
      return row, false;
    }
    row := row.(dns := dns);
    ok := db.SaveAccess(row);
  }

  ghost predicate AreRoutes(objs: map<Id, Obj>, ids: set<Id>) {
    forall id :: id in ids ==> id in objs && objs[id].Route?
  }

  /** Every object belongs to the entrypoint whose group is `group`. */
  ghost predicate OfEntrypoint(objs: map<Id, Obj>, made: set<Id>, group: Option<Id>) {
    forall id :: id in made ==> group.Some? && id in objs && (id == group.value || group.value in Refs(objs[id]))
  }

  /** The routes made so far in a route loop that began in `s0`. */
  ghost predicate RoutesMade(cloud: Cloud, s0: Snap, n0: Id, routes: seq<Id>, group: Id, access: Id)
    reads cloud
  {
    && cloud.Valid() && n0 <= cloud.nextId && Quiet(s0, Now(cloud))
    && Grown(s0.objs, cloud.objs, n0, RouteIds(routes), {group, access})
    && HasRoutes(cloud.objs, routes, |routes|, group, access)
  }

  lemma OneMoreRoute(objs: map<Id, Obj>, objs': map<Id, Obj>, routes: seq<Id>, id: Option<Id>, group: Id, access: Id)
    requires HasRoutes(objs, routes, |routes|, group, access)
    requires Grown(objs, objs', 0, Ids(id), {group, access})
    requires id.Some? ==> objs'[id.value] == Route(group, access)
    ensures HasRoutes(objs', routes, |routes|, group, access)
    ensures id.Some? ==> HasRoutes(objs', routes + [id.value], |routes| + 1, group, access)
  {
  }

  /** One turn of the route loop. */
  method NextRoute(cloud: Cloud, group: Id, access: Id, routes: seq<Id>, ghost s0: Snap, ghost n0: Id)
    returns (more: seq<Id>, ok: bool)
    requires RoutesMade(cloud, s0, n0, routes, group, access) && group < cloud.nextId && access < cloud.nextId
    modifies cloud`objs, cloud`peers, cloud`clock, cloud`log, cloud`nextId, cloud`creations
    ensures RoutesMade(cloud, s0, n0, more, group, access) && old(cloud.nextId) <= cloud.nextId
    ensures if ok then |more| == |routes| + 1 else more == routes && cloud.log.faults > old(cloud.log.faults)
    ensures old(cloud.log.faults) <= cloud.log.faults
    ensures cloud.creations == old(cloud.creations) + [Creation(Route(group, access), ok)]
  {
    ghost var s1, n1 := Now(cloud), cloud.nextId;
    var id := CreateObject(cloud, Route(group, access));
    QuietTwice(s0, s1, Now(cloud));
    GrownOn(s0.objs, s1.objs, cloud.objs, n0, n1, RouteIds(routes), Ids(id), {group, access});
    OneMoreRoute(s1.objs, cloud.objs, routes, id, group, access);
    more, ok := routes, id.Some?;
    if ok {
      assert RouteIds(routes) + Ids(id) == RouteIds(routes + [id.value]);
      more := routes + [id.value];
    } else {
      assert RouteIds(routes) + Ids(id) == RouteIds(routes);
    }
  }

  /** The route loop of an entrypoint: the routes made before a failing creation are returned as well. */
  method CreateRoutes(cloud: Cloud, group: Id, access: Id, n: nat) returns (routes: seq<Id>, ok: bool)
    requires cloud.Valid() && group < cloud.nextId && access < cloud.nextId
    modifies cloud`objs, cloud`peers, cloud`clock, cloud`log, cloud`nextId, cloud`creations
    ensures cloud.Valid() && old(cloud.nextId) <= cloud.nextId && Quiet(old(Now(cloud)), Now(cloud))
    ensures Grown(old(cloud.objs), cloud.objs, old(cloud.nextId), RouteIds(routes), {group, access})
    ensures HasRoutes(cloud.objs, routes, |routes|, group, access)
    ensures if ok then |routes| == n else |routes| < n && cloud.log.faults > old(cloud.log.faults)
    ensures Asked(old(cloud.creations), cloud.creations, group, group + 1)
    ensures Cut(old(cloud.creations), cloud.creations) <==> !ok && routes != []
  {
    ghost var s0, n0, c0 := Now(cloud), cloud.nextId, cloud.creations;
    routes, ok := [], true;
    RouteCallsNone(c0, Route(group, access));
    while |routes| < n
      invariant RoutesMade(cloud, s0, n0, routes, group, access) && |routes| <= n && ok
      invariant cloud.creations == c0 + RouteCalls(Route(group, access), |routes|, true)
    {
      RouteCallsNext(c0, Route(group, access), |routes|);
      routes, ok := NextRoute(cloud, group, access, routes, s0, n0);
      if !ok {
        RoutesAsked(c0, Route(group, access), |routes|, false);
        return;
      }
    }
    RoutesAsked(c0, Route(group, access), |routes|, true);
  }

  /** A saved row is the last row of the sandbox. */
  ghost predicate RowSaved(db: Rows, others: seq<EntrypointRow>, row: EntrypointRow)
    reads db
  {
    db.alive ==> db.entrypoints == others + [row]
  }

  /** The setup key of a host group. */
  method ProvisionHostKey(cloud: Cloud, db: Rows, grouped: EntrypointRow, ghost others: seq<EntrypointRow>)
    returns (row: EntrypointRow, ok: bool)
    requires cloud.Valid() && db.Valid() && RowSaved(db, others, grouped)
    requires grouped.group.Some? && grouped.group.value < cloud.nextId && grouped.key == None
    modifies cloud`objs, cloud`peers, cloud`clock, cloud`log, cloud`nextId, cloud`creations, db
    ensures cloud.Valid() && db.Valid() && old(cloud.nextId) <= cloud.nextId && Quiet(old(Now(cloud)), Now(cloud))
    ensures row == grouped.(key := row.key)
    ensures Grown(old(cloud.objs), cloud.objs, old(cloud.nextId), Ids(row.key), Ids(grouped.group))
    ensures row.key.Some? ==> cloud.objs[row.key.value] == Key(grouped.group.value)
    ensures ok ==> db.alive && row.key.Some?
    ensures NoRoutes(old(cloud.creations), cloud.creations)
    ensures db.alive ==> old(db.alive) && db.access == old(db.access)
    ensures RowSaved(db, others, row)
    ensures db.alive && !ok ==> cloud.log.faults > old(cloud.log.faults)
  {
    row, ok := grouped, false;
    var key := CreateObject(cloud, Key(grouped.group.value));
    if key.None? {
      return;
    }
    row := row.(key := key);
    ok := db.SaveEntrypoint(row);
  }

  /** The group of a host. */
  method ProvisionHostGroup(cloud: Cloud, db: Rows, host: string, ghost others: seq<EntrypointRow>)
    returns (row: EntrypointRow, ok: bool)
    requires cloud.Valid() && db.Valid() && RowSaved(db, others, NewRow(host))
    modifies cloud`objs, cloud`peers, cloud`clock, cloud`log, cloud`nextId, cloud`creations, db
    ensures cloud.Valid() && db.Valid() && old(cloud.nextId) <= cloud.nextId && Quiet(old(Now(cloud)), Now(cloud))
    ensures row == NewRow(host).(group := row.group)
    ensures Grown(old(cloud.objs), cloud.objs, old(cloud.nextId), Ids(row.group), {})
    ensures row.group.Some? ==> cloud.objs[row.group.value] == Group && row.group.value < cloud.nextId
    ensures ok ==> db.alive && row.group.Some?
    ensures NoRoutes(old(cloud.creations), cloud.creations)
    ensures db.alive ==> old(db.alive) && db.access == old(db.access)
    ensures RowSaved(db, others, row)
    ensures db.alive && !ok ==> cloud.log.faults > old(cloud.log.faults)
  {
    row, ok := NewRow(host), false;
    var group := CreateObject(cloud, Group);
    if group.None? {
      return;
    }
    row := row.(group := group);
    ok := db.SaveEntrypoint(row);
  }

  /** First part of `_provision_single_entrypoint`: the group and the setup key of the host. */
  method ProvisionHost(cloud: Cloud, db: Rows, host: string, ghost others: seq<EntrypointRow>)
    returns (row: EntrypointRow, ok: bool)
    requires cloud.Valid() && db.Valid() && RowSaved(db, others, NewRow(host))
    modifies cloud`objs, cloud`peers, cloud`clock, cloud`log, cloud`nextId, cloud`creations, db
    ensures cloud.Valid() && db.Valid() && old(cloud.nextId) <= cloud.nextId && Quiet(old(Now(cloud)), Now(cloud))
    ensures row == NewRow(host).(group := row.group, key := row.key)
    ensures Grown(old(cloud.objs), cloud.objs, old(cloud.nextId), EntrypointIds(row), Ids(row.group))
    ensures OfEntrypoint(cloud.objs, EntrypointIds(row), row.group)
    ensures row.group.Some? ==> cloud.objs[row.group.value] == Group
    ensures ok ==> db.alive && row.group.Some? && HasKey(cloud.objs, row.group, row.key)
    ensures NoRoutes(old(cloud.creations), cloud.creations)
    ensures db.alive ==> old(db.alive) && db.access == old(db.access)
    ensures RowSaved(db, others, row)
    ensures db.alive && !ok ==> cloud.log.faults > old(cloud.log.faults)
  {
    ghost var s0, n0, c0 := Now(cloud), cloud.nextId, cloud.creations;
    row, ok := ProvisionHostGroup(cloud, db, host, others);
    if !ok {
      assert EntrypointIds(row) == Ids(row.group);
      return;
    }
    ghost var s1, n1, c1, group := Now(cloud), cloud.nextId, cloud.creations, row.group;
    row, ok := ProvisionHostKey(cloud, db, row, others);
    QuietTwice(s0, s1, Now(cloud));
    GrownTwice(s0.objs, s1.objs, cloud.objs, n0, n1, Ids(group), Ids(row.key), {}, Ids(group));
    NoneTwice(c0, c1, cloud.creations);
    assert EntrypointIds(row) == Ids(group) + Ids(row.key);
  }

  /** The policy between the users and a host. */
  method ProvisionPolicy(cloud: Cloud, db: Rows, routed: EntrypointRow, access: Id, ghost others: seq<EntrypointRow>)
    returns (row: EntrypointRow, ok: bool)
    requires cloud.Valid() && db.Valid() && access < cloud.nextId && RowSaved(db, others, routed)
    requires routed.group.Some? && routed.group.value < cloud.nextId && routed.policy == None
    modifies cloud`objs, cloud`peers, cloud`clock, cloud`log, cloud`nextId, cloud`creations, db
    ensures cloud.Valid() && db.Valid() && old(cloud.nextId) <= cloud.nextId && Quiet(old(Now(cloud)), Now(cloud))
    ensures row == routed.(policy := row.policy)
    ensures Grown(old(cloud.objs), cloud.objs, old(cloud.nextId), Ids(row.policy), {access, routed.group.value})
    ensures row.policy.Some? ==> HasPolicy(cloud.objs, row.policy, routed.group.value, access)
    ensures ok ==> db.alive && row.policy.Some?
    ensures NoRoutes(old(cloud.creations), cloud.creations)
    ensures db.alive ==> old(db.alive) && db.access == old(db.access)
    ensures RowSaved(db, others, row)
    ensures db.alive && !ok ==> cloud.log.faults > old(cloud.log.faults)
  {
    row, ok := routed, false;
    var policy := CreateObject(cloud, Policy(access, routed.group.value));
    if policy.None? {
      return;
    }
    row := row.(policy := policy);
    ok := db.SaveEntrypoint(row);
  }

  /** The routes of a host, recorded only when all were made. */
  method ProvisionRoutes(cloud: Cloud, db: Rows, hosted: EntrypointRow, n: nat, access: Id,
                         ghost others: seq<EntrypointRow>)
    returns (row: EntrypointRow, ok: bool, ghost made: set<Id>, ghost stray: set<Id>)
    requires cloud.Valid() && db.Valid() && access < cloud.nextId && RowSaved(db, others, hosted)
    requires hosted.group.Some? && hosted.group.value < cloud.nextId && hosted.routes == []
    modifies cloud`objs, cloud`peers, cloud`clock, cloud`log, cloud`nextId, cloud`creations, db
    ensures cloud.Valid() && db.Valid() && old(cloud.nextId) <= cloud.nextId && Quiet(old(Now(cloud)), Now(cloud))
    ensures row == hosted.(routes := row.routes)
    ensures if stray == {} then RouteIds(row.routes) == made else stray == made && row == hosted
    ensures Grown(old(cloud.objs), cloud.objs, old(cloud.nextId), made, {access, hosted.group.value})
    ensures forall id :: id in made ==> cloud.objs[id] == Route(hosted.group.value, access)
    ensures ok ==> db.alive && stray == {} && HasRoutes(cloud.objs, row.routes, n, hosted.group.value, access)
    ensures Asked(old(cloud.creations), cloud.creations, hosted.group.value, hosted.group.value + 1)
    ensures Cut(old(cloud.creations), cloud.creations) <==> stray != {}
    ensures db.alive ==> old(db.alive) && db.access == old(db.access)
    ensures RowSaved(db, others, row)
    ensures db.alive && !ok ==> cloud.log.faults > old(cloud.log.faults)
  {
    row, ok := hosted, false;
    var routes, all := CreateRoutes(cloud, hosted.group.value, access, n);
    assert {hosted.group.value, access} == {access, hosted.group.value};
    made, stray := RouteIds(routes), RouteIds(routes);
    assert routes != [] ==> routes[0] in made;
    if !all {
      return;
    }
    row, stray := row.(routes := routes), {};
    ok := db.SaveEntrypoint(row);
  }

  lemma RoutesStay(objs: map<Id, Obj>, objs': map<Id, Obj>, routes: seq<Id>, n: nat, group: Id, access: Id)
    requires forall id :: id in objs ==> id in objs' && objs'[id] == objs[id]
    ensures HasRoutes(objs, routes, n, group, access) ==> HasRoutes(objs', routes, n, group, access)
  {
  }

  /** The recorded objects are those of the host, the routes and the policy. */
  lemma LinksMade(objs: map<Id, Obj>, hosted: EntrypointRow, row: EntrypointRow, routes: set<Id>)
    requires row == hosted.(routes := row.routes, policy := row.policy) && RouteIds(row.routes) == routes
    requires hosted.routes == [] && hosted.policy == None
    ensures EntrypointIds(row) == EntrypointIds(hosted) + (routes + Ids(row.policy))
  {
  }

  /** Second part: the routes and the policy. */
  method ProvisionLinks(cloud: Cloud, db: Rows, hosted: EntrypointRow, n: nat, access: Id,
                        ghost others: seq<EntrypointRow>)
    returns (row: EntrypointRow, ok: bool, ghost made: set<Id>, ghost stray: set<Id>)
    requires cloud.Valid() && db.Valid() && access < cloud.nextId && RowSaved(db, others, hosted)
    requires hosted.group.Some? && hosted.group.value < cloud.nextId && hosted.routes == [] && hosted.policy == None
    modifies cloud`objs, cloud`peers, cloud`clock, cloud`log, cloud`nextId, cloud`creations, db
    ensures cloud.Valid() && db.Valid() && old(cloud.nextId) <= cloud.nextId && Quiet(old(Now(cloud)), Now(cloud))
    ensures row == hosted.(routes := row.routes, policy := row.policy)
    ensures EntrypointIds(row) + stray == EntrypointIds(hosted) + made
    ensures Grown(old(cloud.objs), cloud.objs, old(cloud.nextId), made, {access, hosted.group.value})
    ensures OfEntrypoint(cloud.objs, made, hosted.group)
    ensures stray <= made && (stray != {} ==> row == hosted) && AreRoutes(cloud.objs, stray)
    ensures ok ==> db.alive && stray == {}
    ensures ok ==> HasRoutes(cloud.objs, row.routes, n, hosted.group.value, access)
                   && HasPolicy(cloud.objs, row.policy, hosted.group.value, access)
    ensures Asked(old(cloud.creations), cloud.creations, hosted.group.value, hosted.group.value + 1)
    ensures Cut(old(cloud.creations), cloud.creations) <==> stray != {}
    ensures db.alive ==> old(db.alive) && db.access == old(db.access)
    ensures RowSaved(db, others, row)
    ensures db.alive && !ok ==> cloud.log.faults > old(cloud.log.faults)
  {
    var group := hosted.group.value;
    ghost var s0, n0, c0 := Now(cloud), cloud.nextId, cloud.creations;
    row, ok, made, stray := ProvisionRoutes(cloud, db, hosted, n, access, others);
    if !ok {
      return;
    }
    ghost var s1, n1, c1 := Now(cloud), cloud.nextId, cloud.creations;
    row, ok := ProvisionPolicy(cloud, db, row, access, others);
    QuietTwice(s0, s1, Now(cloud));
    GrownOn(s0.objs, s1.objs, cloud.objs, n0, n1, made, Ids(row.policy), {access, group});
    AskedThenNone(c0, c1, cloud.creations, group, group + 1);
    RoutesStay(s1.objs, cloud.objs, row.routes, n, group, access);
    LinksMade(cloud.objs, hosted, row, made);
    made := made + Ids(row.policy);
  }

  /** `_provision_single_entrypoint`: `row` is the in-memory row and `stray` the routes it does not record. */
  method ProvisionEntrypoint(cloud: Cloud, db: Rows, ep: Entrypoint, access: Id)
    returns (row: EntrypointRow, ok: bool, ghost stray: set<Id>)
    requires cloud.Valid() && db.Valid() && access < cloud.nextId
               && forall r :: r in db.entrypoints ==> r.host != ep.name
    modifies cloud`objs, cloud`peers, cloud`clock, cloud`log, cloud`nextId, cloud`creations, db
    ensures cloud.Valid() && db.Valid() && old(cloud.nextId) <= cloud.nextId
    // without the sandbox row no call is made
    ensures !old(db.alive) ==> !ok && Now(cloud) == old(Now(cloud)) && EntrypointIds(row) == stray == {}
    ensures Quiet(old(Now(cloud)), Now(cloud)) && row.host == ep.name
    ensures Grown(old(cloud.objs), cloud.objs, old(cloud.nextId), EntrypointIds(row) + stray, {access} + Ids(row.group))
    ensures OfEntrypoint(cloud.objs, EntrypointIds(row) + stray, row.group) && stray !! EntrypointIds(row)
              && AreRoutes(cloud.objs, stray)
    ensures row.group.Some? ==> cloud.objs[row.group.value] == Group
    ensures ok ==> db.alive && stray == {} && Equipped(cloud.objs, row, ep, access)
    ensures Asked(old(cloud.creations), cloud.creations, old(cloud.nextId), cloud.nextId)
    // some routes are not recorded exactly if a route creation failed after another one
    ensures Cut(old(cloud.creations), cloud.creations) <==> stray != {}
    ensures db.alive ==> old(db.alive) && db.access == old(db.access) && db.entrypoints == old(db.entrypoints) + [row]
    ensures db.alive && !ok ==> cloud.log.faults > old(cloud.log.faults)
  {
    row, ok, stray := NewRow(ep.name), false, {};
    ghost var others := db.entrypoints;
    ghost var s0, n0, c0 := Now(cloud), cloud.nextId, cloud.creations;
    var created := db.GetOrCreateEntrypoint(ep.name);
    if created.None? {
      NoneAsked(c0, cloud.creations, n0, n0);
      return;
    }
    row, ok := ProvisionHost(cloud, db, ep.name, others);
    GrownMore(s0.objs, cloud.objs, n0, EntrypointIds(row), Ids(row.group), {access} + Ids(row.group));
    assert EntrypointIds(row) + stray == EntrypointIds(row);
    if !ok {
      NoneAsked(c0, cloud.creations, n0, cloud.nextId);
      return;
    }
    ghost var s1, n1, c1, hosted := Now(cloud), cloud.nextId, cloud.creations, row;
    ghost var made;
    row, ok, made, stray := ProvisionLinks(cloud, db, row, ep.routes, access, others);
    NoneThenAsked(c0, c1, cloud.creations, hosted.group.value, hosted.group.value + 1);
    assert hosted.group.value in EntrypointIds(hosted);
    QuietTwice(s0, s1, Now(cloud));
    GrownTwice(s0.objs, s1.objs, cloud.objs, n0, n1, EntrypointIds(hosted), made, {access} + Ids(row.group),
        {access, row.group.value});
    assert {access} + Ids(row.group) + {access, row.group.value} == {access} + Ids(row.group);
  }

  lemma GrownMore(objs: map<Id, Obj>, objs': map<Id, Obj>, lo: Id, made: set<Id>, refs: set<Id>, more: set<Id>)
    requires Grown(objs, objs', lo, made, refs) && refs <= more
    ensures Grown(objs, objs', lo, made, more)
  {
  }

  // ---------------------------------------------------------------- the account during provisioning

  /** The groups that the given objects refer to. */
  function RefsFrom(objs: map<Id, Obj>, ids: set<Id>): set<Id> {
    set id, g | id in ids && id in objs && g in Refs(objs[id]) :: g
  }

  function Residue(objs: map<Id, Obj>, loose: set<Id>): set<Id> {
    loose + RefsFrom(objs, loose)
  }

  /** Provisioning so far: the rows account for everything but the loose objects and what those refer to. */
  ghost predicate Ledger(objs: map<Id, Obj>, peers: map<Id, Id>, start: Id, next: Id, a: AccessRow,
                         rows: seq<EntrypointRow>, loose: set<Id>) {
    && start <= next && Tracked(objs, peers, start, Some(a), rows, loose, Residue(objs, loose))
    && (forall id: Id :: Recorded(Some(a), rows, id) ==> id < next && id !in loose)
    && (forall i :: 0 <= i < |rows| && rows[i].group.Some? ==> rows[i].group != a.group)
    && (forall id :: id in loose ==> id in objs && start <= id)
  }

  lemma ResidueGrows(objs: map<Id, Obj>, objs': map<Id, Obj>, loose: set<Id>, more: set<Id>)
    requires forall id :: id in objs ==> id in objs' && objs'[id] == objs[id]
    ensures Residue(objs, loose) <= Residue(objs', loose + more)
    ensures LooseLinks(objs', 0, loose + more, Residue(objs', loose + more))
  {
  }

  lemma MoreRows(a: Option<AccessRow>, rows: seq<EntrypointRow>, r: EntrypointRow, id: Id)
    ensures Recorded(a, rows + [r], id) <==> Recorded(a, rows, id) || id in EntrypointIds(r)
    ensures Groups(a, rows + [r], id) <==> Groups(a, rows, id) || r.group == Some(id)
    ensures Satellite(rows + [r], id) <==> Satellite(rows, id) || id in Satellites(r)
  {
    var more := rows + [r];
    assert forall i :: 0 <= i < |rows| ==> more[i] == rows[i];
    assert more[|rows|] == r;
  }

  /** What one entrypoint's provisioning has added to the cloud. */
  ghost predicate Added(objs: map<Id, Obj>, objs': map<Id, Obj>, next: Id, access: Id, r: EntrypointRow, stray: set<Id>)
  {
    && Grown(objs, objs', next, EntrypointIds(r) + stray, {access} + Ids(r.group))
    && OfEntrypoint(objs', EntrypointIds(r) + stray, r.group) && stray !! EntrypointIds(r)
    && (r.group.Some? ==> objs'[r.group.value] == Group)
  }

  ghost predicate KnownRefs(objs: map<Id, Obj>, next: Id) {
    forall id :: id in objs ==> id < next && forall g :: g in Refs(objs[id]) ==> g < next
  }

  lemma HostLinksKept(objs: map<Id, Obj>, objs': map<Id, Obj>, start: Id, next: Id, a: AccessRow,
                      rows: seq<EntrypointRow>, r: EntrypointRow, loose: set<Id>, stray: set<Id>)
    requires HostLinks(objs, rows, loose) && a.group.Some? && Added(objs, objs', next, a.group.value, r, stray)
               && KnownRefs(objs, next)
    requires forall i :: 0 <= i < |rows| && rows[i].group.Some? ==>
               rows[i].group != a.group && rows[i].group.value < next
    ensures HostLinks(objs', rows, loose) && (a.group.value < next ==> HostLinks(objs', rows + [r], loose + stray))
  {
    forall i, id | 0 <= i < |rows| && id in objs' && rows[i].group.Some? && rows[i].group.value in Refs(objs'[id])
      ensures id in Satellites(rows[i]) || id in loose
    {
      assert id in objs;
    }
    assert r.group.Some? ==> r.group.value in EntrypointIds(r) + stray && next <= r.group.value;
    assert forall id :: id in objs' && r.group.Some? && r.group.value in Refs(objs'[id]) ==>
             id in Satellites(r) || id in stray;
    var more := rows + [r];
    assert forall i :: 0 <= i < |more| ==> more[i] == if i < |rows| then rows[i] else r;
  }

  lemma AccessLinksKept(objs: map<Id, Obj>, objs': map<Id, Obj>, next: Id, a: AccessRow, rows: seq<EntrypointRow>,
                        r: EntrypointRow, loose: set<Id>, stray: set<Id>)
    requires AccessLinks(objs, Some(a), rows, loose) && a.group.Some?
               && Added(objs, objs', next, a.group.value, r, stray)
    ensures AccessLinks(objs', Some(a), rows + [r], loose + stray)
    ensures AccessLinks(objs', Some(a), rows, loose + (EntrypointIds(r) + stray))
  {
    forall id ensures Satellite(rows + [r], id) <==> Satellite(rows, id) || id in Satellites(r) {
      MoreRows(Some(a), rows, r, id);
    }
  }

  lemma PeersGrown(objs: map<Id, Obj>, objs': map<Id, Obj>, peers: map<Id, Id>, peers': map<Id, Id>, start: Id,
                   next: Id, a: AccessRow, rows: seq<EntrypointRow>, rows': seq<EntrypointRow>, r: EntrypointRow,
                   stray: set<Id>, residue: set<Id>, residue': set<Id>)
    requires PeersAccounted(objs, peers, start, Some(a), rows, residue) && PeersKept(objs', None, peers, peers')
    requires a.group.Some? && Added(objs, objs', next, a.group.value, r, stray) && residue <= residue'
    requires forall g :: Groups(Some(a), rows, g) ==> Groups(Some(a), rows', g)
    requires r.group.Some? ==> Groups(Some(a), rows', r.group.value) || r.group.value in residue'
    ensures PeersAccounted(objs', peers', start, Some(a), rows', residue')
  {
    forall g | Joinable(objs', g) && start <= g ensures g in residue' || Groups(Some(a), rows', g) {
      var id :| id in objs' && objs'[id] == Key(g);
      if id in objs {
        assert Joinable(objs, g);
      } else {
        assert g in Refs(objs'[id]) && Groups(Some(a), rows, a.group.value);
      }
    }
  }

  lemma AccountedGrown(objs: map<Id, Obj>, objs': map<Id, Obj>, start: Id, next: Id, a: AccessRow,
                       rows: seq<EntrypointRow>, rows': seq<EntrypointRow>, r: EntrypointRow, stray: set<Id>,
                       residue: set<Id>, residue': set<Id>)
    requires start <= next && BaseClosed(objs, start) && Accounted(objs, start, Some(a), rows, residue)
               && residue <= residue'
    requires a.group.Some? && Added(objs, objs', next, a.group.value, r, stray)
    requires forall id: Id :: Recorded(Some(a), rows, id) ==> Recorded(Some(a), rows', id)
    requires forall id :: id in EntrypointIds(r) + stray ==> id in residue' || Recorded(Some(a), rows', id)
    ensures BaseClosed(objs', start) && Accounted(objs', start, Some(a), rows', residue')
  {
  }

  lemma LooseLinksFrom(objs: map<Id, Obj>, start: Id, loose: set<Id>)
    ensures LooseLinks(objs, start, loose, Residue(objs, loose))
  {
  }

  /** The entrypoint's row is recorded; routes of an interrupted route loop become loose. */
  lemma LedgerRecorded(objs: map<Id, Obj>, objs': map<Id, Obj>, peers: map<Id, Id>, peers': map<Id, Id>, start: Id,
                       next: Id, next': Id, a: AccessRow, rows: seq<EntrypointRow>, r: EntrypointRow,
                       loose: set<Id>, stray: set<Id>)
    requires Ledger(objs, peers, start, next, a, rows, loose) && KnownRefs(objs, next) && KnownRefs(objs', next')
               && next <= next'
    requires a.group.Some? && Added(objs, objs', next, a.group.value, r, stray) && PeersKept(objs', None, peers, peers')
    ensures Ledger(objs', peers', start, next', a, rows + [r], loose + stray)
  {
    forall id: Id
      ensures Recorded(Some(a), rows + [r], id) <==> Recorded(Some(a), rows, id) || id in EntrypointIds(r)
      ensures Groups(Some(a), rows + [r], id) <==> Groups(Some(a), rows, id) || r.group == Some(id)
    {
      MoreRows(Some(a), rows, r, id);
    }
    var residue, residue' := Residue(objs, loose), Residue(objs', loose + stray);
    ResidueGrows(objs, objs', loose, stray);
    GroupsKnown(a, rows, next);
    assert Accounted(objs', start, Some(a), rows + [r], residue') && BaseClosed(objs', start) by {
      AccountedGrown(objs, objs', start, next, a, rows, rows + [r], r, stray, residue, residue');
    }
    HostLinksKept(objs, objs', start, next, a, rows, r, loose, stray);
    AccessLinksKept(objs, objs', next, a, rows, r, loose, stray);
    LooseLinksFrom(objs', start, loose + stray);
    PeersGrown(objs, objs', peers, peers', start, next, a, rows, rows + [r], r, stray, residue, residue');
    SeparateRows(objs, objs', next, a, rows, r, stray);
  }

  lemma GroupsKnown(a: AccessRow, rows: seq<EntrypointRow>, next: Id)
    requires forall id: Id :: Recorded(Some(a), rows, id) ==> id < next
    ensures a.group.Some? ==> a.group.value < next
    ensures forall i :: 0 <= i < |rows| && rows[i].group.Some? ==> rows[i].group.value < next
  {
    if a.group.Some? { assert Recorded(Some(a), rows, a.group.value); }
    forall i | 0 <= i < |rows| && rows[i].group.Some? ensures rows[i].group.value < next {
      assert Recorded(Some(a), rows, rows[i].group.value);
    }
  }

  lemma SeparateRows(objs: map<Id, Obj>, objs': map<Id, Obj>, next: Id, a: AccessRow, rows: seq<EntrypointRow>,
                     r: EntrypointRow, stray: set<Id>)
    requires a.group.Some? && a.group.value < next && Added(objs, objs', next, a.group.value, r, stray)
    requires forall i :: 0 <= i < |rows| && rows[i].group.Some? ==> rows[i].group != a.group
    ensures forall i :: 0 <= i < |rows + [r]| && (rows + [r])[i].group.Some? ==> (rows + [r])[i].group != a.group
  {
    assert r.group.Some? ==> r.group.value in EntrypointIds(r) + stray;
  }

  /** The sandbox row vanished meanwhile: everything the entrypoint has made is loose. */
  lemma LedgerLost(objs: map<Id, Obj>, objs': map<Id, Obj>, peers: map<Id, Id>, peers': map<Id, Id>, start: Id,
                   next: Id, next': Id, a: AccessRow, rows: seq<EntrypointRow>, r: EntrypointRow,
                   loose: set<Id>, stray: set<Id>)
    requires Ledger(objs, peers, start, next, a, rows, loose) && KnownRefs(objs, next) && KnownRefs(objs', next')
               && next <= next'
    requires a.group.Some? && Added(objs, objs', next, a.group.value, r, stray) && PeersKept(objs', None, peers, peers')
    ensures Ledger(objs', peers', start, next', a, rows, loose + (EntrypointIds(r) + stray))
  {
    var more := EntrypointIds(r) + stray;
    var residue, residue' := Residue(objs, loose), Residue(objs', loose + more);
    ResidueGrows(objs, objs', loose, more);
    GroupsKnown(a, rows, next);
    assert Accounted(objs', start, Some(a), rows, residue') && BaseClosed(objs', start) by {
      AccountedGrown(objs, objs', start, next, a, rows, rows, r, stray, residue, residue');
    }
    HostLinksKept(objs, objs', start, next, a, rows, r, loose, stray);
    AccessLinksKept(objs, objs', next, a, rows, r, loose, stray);
    LooseLinksFrom(objs', start, loose + more);
    PeersGrown(objs, objs', peers, peers', start, next, a, rows, rows, r, stray, residue, residue');
  }

  lemma AccessLedger(objs: map<Id, Obj>, objs': map<Id, Obj>, peers: map<Id, Id>, peers': map<Id, Id>, start: Id,
                     next': Id, a: AccessRow)
    requires KnownRefs(objs, start) && (forall p :: p in peers ==> peers[p] < start) && KnownRefs(objs', next')
               && start <= next'
    requires Grown(objs, objs', start, AccessIds(a), Ids(a.group)) && PeersKept(objs', None, peers, peers')
    requires a.group.Some? ==> objs'[a.group.value] == Group
    ensures Ledger(objs', peers', start, next', a, [], {})
  {
    assert Residue(objs', {}) == {};
    assert a.group.Some? ==> a.group.value in AccessIds(a);
    forall g: Id | Joinable(objs', g) && start <= g ensures Groups(Some(a), [], g) {
      var id :| id in objs' && objs'[id] == Key(g);
      assert g in Refs(objs'[id]);
    }
  }

  predicate DistinctNames(eps: seq<Entrypoint>) {
    forall i, j :: 0 <= i < j < |eps| ==> eps[i].name != eps[j].name
  }

  /** The rows of the database are those of the first entrypoints. */
  ghost predicate InStep(db: Rows, a: AccessRow, created: seq<EntrypointRow>, eps: seq<Entrypoint>, n: nat)
    requires n <= |eps|
    reads db
  {
    db.alive ==> && db.access == Some(a) && db.entrypoints == created && |created| == n
                 && forall k :: 0 <= k < n ==> created[k].host == eps[k].name
  }

  lemma FreshName(rows: seq<EntrypointRow>, eps: seq<Entrypoint>, i: nat)
    requires i < |eps| && DistinctNames(eps) && |rows| == i && forall k :: 0 <= k < i ==> rows[k].host == eps[k].name
    ensures forall r :: r in rows ==> r.host != eps[i].name
  {
  }

  lemma GrownExtends(objs: map<Id, Obj>, objs': map<Id, Obj>, lo: Id, made: set<Id>, refs: set<Id>)
    requires Grown(objs, objs', lo, made, refs)
    ensures Extends(objs, objs', lo)
  {
  }

  /** The creations of one round, and the look for a partially created row: `kept` says that the row is there. */
  method ProvisionOne(cloud: Cloud, db: Rows, ep: Entrypoint, access: Id)
    returns (row: EntrypointRow, kept: bool, ghost stray: set<Id>)
    requires cloud.Valid() && db.Valid() && access < cloud.nextId
               && forall r :: r in db.entrypoints ==> r.host != ep.name
    modifies cloud`objs, cloud`peers, cloud`clock, cloud`log, cloud`nextId, cloud`creations, db
    ensures cloud.Valid() && db.Valid() && old(cloud.nextId) <= cloud.nextId
    ensures !old(db.alive) ==> !kept && Now(cloud) == old(Now(cloud)) && EntrypointIds(row) == stray == {}
    ensures Quiet(old(Now(cloud)), Now(cloud)) && row.host == ep.name
    ensures Added(old(cloud.objs), cloud.objs, old(cloud.nextId), access, row, stray) && AreRoutes(cloud.objs, stray)
    ensures Extends(old(cloud.objs), cloud.objs, old(cloud.nextId))
    ensures KnownRefs(old(cloud.objs), old(cloud.nextId)) && KnownRefs(cloud.objs, cloud.nextId)
    ensures Asked(old(cloud.creations), cloud.creations, old(cloud.nextId), cloud.nextId)
    ensures Cut(old(cloud.creations), cloud.creations) <==> stray != {}
    ensures db.alive ==> kept
    ensures db.alive ==> old(db.alive) && db.access == old(db.access) && db.entrypoints == old(db.entrypoints) + [row]
    ensures kept && stray != {} ==> cloud.log.faults > old(cloud.log.faults)
    ensures db.alive && !Equipped(cloud.objs, row, ep, access) ==> cloud.log.faults > old(cloud.log.faults)
  {
    ghost var s0, n0 := Now(cloud), cloud.nextId;
    var ok;
    row, ok, stray := ProvisionEntrypoint(cloud, db, ep, access);
    GrownExtends(s0.objs, cloud.objs, n0, EntrypointIds(row) + stray, {access} + Ids(row.group));
    kept := ok;
    if !ok {
      var partial := db.Find(ep.name);
      kept := partial.Some?;
      assert kept ==> partial.value == row;
    }
  }

  /** One round of the entrypoint loop; `lost` is what it made for a sandbox that vanished meanwhile. */
  method ProvisionNext(cloud: Cloud, db: Rows, a: AccessRow, eps: seq<Entrypoint>, i: nat, before: seq<EntrypointRow>,
                       ghost start: Id, ghost loose: set<Id>)
    returns (created: seq<EntrypointRow>, ghost stray: set<Id>, ghost lost: set<Id>, ghost home: Option<Id>)
    requires cloud.Valid() && db.Valid() && i < |eps| && DistinctNames(eps)
    requires a.group.Some? && InStep(db, a, before, eps, i)
    requires Ledger(cloud.objs, cloud.peers, start, cloud.nextId, a, before, loose)
    modifies cloud`objs, cloud`peers, cloud`clock, cloud`log, cloud`nextId, cloud`creations, db
    ensures cloud.Valid() && db.Valid() && InStep(db, a, created, eps, i + 1) && Quiet(old(Now(cloud)), Now(cloud))
    ensures old(cloud.nextId) <= cloud.nextId && Extends(old(cloud.objs), cloud.objs, old(cloud.nextId))
    ensures Ledger(cloud.objs, cloud.peers, start, cloud.nextId, a, created, loose + stray + lost)
    ensures !old(db.alive) ==> lost == {} && cloud.objs == old(cloud.objs) && !db.alive
    ensures stray != {} ==> cloud.log.faults > old(cloud.log.faults)
    ensures lost != {} ==> !db.alive
    ensures Asked(old(cloud.creations), cloud.creations, old(cloud.nextId), cloud.nextId)
    ensures db.alive ==> (Cut(old(cloud.creations), cloud.creations) <==> stray != {})
    ensures OfEntrypoint(cloud.objs, lost, home) && AreRoutes(cloud.objs, stray)
    ensures db.alive ==> created[..i] == before && old(cloud.log.faults) <= cloud.log.faults
    ensures db.alive && !Equipped(cloud.objs, created[i], eps[i], a.group.value) ==>
              cloud.log.faults > old(cloud.log.faults)
  {
    GroupsKnown(a, before, cloud.nextId);
    if db.alive { FreshName(before, eps, i); }
    ghost var s0, n0 := Now(cloud), cloud.nextId;
    var row, kept;
    row, kept, stray := ProvisionOne(cloud, db, eps[i], a.group.value);
    lost, home := {}, row.group;
    if kept {
      created := before + [row];
      LedgerRecorded(s0.objs, cloud.objs, s0.peers, cloud.peers, start, n0, cloud.nextId, a, before, row, loose, stray);
      assert loose + stray + lost == loose + stray;
    } else {
      created := before;
      LedgerLost(s0.objs, cloud.objs, s0.peers, cloud.peers, start, n0, cloud.nextId, a, before, row, loose, stray);
      lost, stray := EntrypointIds(row) + stray, {};
      assert loose + stray + lost == loose + lost;
    }
  }

  /** The routes that no row records, and what was made for the one entrypoint during which the sandbox vanished. */
  ghost predicate Leaks(objs: map<Id, Obj>, alive: bool, loose: set<Id>, flight: set<Id>, home: Option<Id>) {
    OfEntrypoint(objs, flight, home) && (flight != {} ==> !alive) && AreRoutes(objs, loose - flight)
  }

  /** The entrypoint loop has dealt with the first `i` entrypoints; it began in `s0`. */
  ghost predicate Progress(cloud: Cloud, db: Rows, a: AccessRow, eps: seq<Entrypoint>, i: nat,
                           created: seq<EntrypointRow>, start: Id, loose: set<Id>, flight: set<Id>, home: Option<Id>,
                           s0: Snap, n0: Id, c0: seq<Creation>)
    requires i <= |eps| && a.group.Some?
    reads cloud, db
  {
    && cloud.Valid() && db.Valid() && InStep(db, a, created, eps, i) && Quiet(s0, Now(cloud))
    && n0 <= cloud.nextId && Extends(s0.objs, cloud.objs, n0)
    && Ledger(cloud.objs, cloud.peers, start, cloud.nextId, a, created, loose)
    && (cloud.log.faults == s0.faults ==> loose == flight) && Leaks(cloud.objs, db.alive, loose, flight, home)
    && Asked(c0, cloud.creations, n0, cloud.nextId)
    && (db.alive ==> (Cut(c0, cloud.creations) <==> loose != {}))
    && (db.alive ==> Paid(cloud.objs, created, eps, a.group.value, cloud.log.faults - s0.faults))
  }

  /** One round of the entrypoint loop in these terms. */
  method ProvisionRound(cloud: Cloud, db: Rows, a: AccessRow, eps: seq<Entrypoint>, i: nat, before: seq<EntrypointRow>,
                        ghost start: Id, ghost loose: set<Id>, ghost flight: set<Id>, ghost home: Option<Id>,
                        ghost s0: Snap, ghost n0: Id, ghost c0: seq<Creation>)
    returns (created: seq<EntrypointRow>, ghost loose': set<Id>, ghost flight': set<Id>, ghost home': Option<Id>)
    requires i < |eps| && DistinctNames(eps) && a.group.Some?
    requires Progress(cloud, db, a, eps, i, before, start, loose, flight, home, s0, n0, c0)
    modifies cloud`objs, cloud`peers, cloud`clock, cloud`log, cloud`nextId, cloud`creations, db
    ensures Progress(cloud, db, a, eps, i + 1, created, start, loose', flight', home', s0, n0, c0)
    ensures db.alive ==> old(db.alive)
  {
    ghost var s1, n1, c1 := Now(cloud), cloud.nextId, cloud.creations;
    ghost var stray, lost, h;
    created, stray, lost, h := ProvisionNext(cloud, db, a, eps, i, before, start, loose);
    if db.alive {
      PaidRound(s1.objs, cloud.objs, created, eps, i, a.group.value, s1.faults - s0.faults,
                cloud.log.faults - s0.faults);
    }
    AskedTwice(c0, c1, cloud.creations, n0, n1, cloud.nextId);
    QuietTwice(s0, s1, Now(cloud));
    loose', flight', home' := loose + stray + lost, flight, home;
    if lost != {} {
      flight', home' := lost, h;
    }
  }

  /** The entrypoint loop. */
  method ProvisionEntrypoints(cloud: Cloud, db: Rows, a: AccessRow, eps: seq<Entrypoint>, ghost start: Id)
    returns (created: seq<EntrypointRow>, ghost loose: set<Id>, ghost flight: set<Id>, ghost home: Option<Id>)
    requires cloud.Valid() && db.Valid() && DistinctNames(eps) && a.group.Some? && InStep(db, a, [], eps, 0)
    requires Ledger(cloud.objs, cloud.peers, start, cloud.nextId, a, [], {})
    modifies cloud`objs, cloud`peers, cloud`clock, cloud`log, cloud`nextId, cloud`creations, db
    ensures Progress(cloud, db, a, eps, |eps|, created, start, loose, flight, home, old(Now(cloud)), old(cloud.nextId),
                     old(cloud.creations))
    ensures db.alive ==> old(db.alive)
  {
    ghost var s0, n0, c0 := Now(cloud), cloud.nextId, cloud.creations;
    created, loose, flight, home := [], {}, {}, None;
    NothingAsked(c0, n0);
    for i := 0 to |eps|
      invariant Progress(cloud, db, a, eps, i, created, start, loose, flight, home, s0, n0, c0)
      invariant db.alive ==> old(db.alive)
    {
      created, loose, flight, home :=
        ProvisionRound(cloud, db, a, eps, i, created, start, loose, flight, home, s0, n0, c0);
    }
  }

  /** What a fresh provisioning run leaves behind. */
  ghost predicate Provisioned(cloud: Cloud, db: Rows, start: Id, base: map<Id, Obj>, loose: set<Id>)
    reads cloud, db
  {
    && cloud.Valid() && start <= cloud.nextId
    && Extends(base, cloud.objs, start)
    && Tracked(cloud.objs, cloud.peers, start, db.access, db.entrypoints, loose, Residue(cloud.objs, loose))
    && (forall id :: id in loose ==> id in cloud.objs && start <= id && !Recorded(db.access, db.entrypoints, id))
  }

  /** `_teardown_provisioned_resources`: the end guard's teardown, which has no deadline. */
  method TeardownProvisioned(cloud: Cloud, created: seq<EntrypointRow>, access: Option<AccessRow>,
                             ghost start: Id, ghost loose: set<Id>, ghost residue: set<Id>)
    requires cloud.Valid()
    modifies cloud`objs, cloud`peers, cloud`clock, cloud`log, cloud`deadline
    ensures cloud.Valid() && old(cloud.log.faults) <= cloud.log.faults
    ensures OnlyRecordedRemoved(old(cloud.objs), cloud.objs, access, created)
    ensures cloud.log.faults == old(cloud.log.faults)
            && Tracked(old(cloud.objs), old(cloud.peers), start, access, created, loose, residue) ==>
              Tracked(cloud.objs, cloud.peers, start, None, [], loose, residue)
  {
    cloud.deadline := None;
    ghost var s0 := Now(cloud);
    var left := DestroyEntrypoints(cloud, created, access, None, start, loose, residue);
    ghost var s1 := Now(cloud);
    if access.Some? {
      var deleted := DestroyAccess(cloud, access.value, None);
      AllSwept(s0.objs, s1.objs, cloud.objs, access.value, created);
      if Smooth(s0, Now(cloud), None) && Tracked(s0.objs, s0.peers, start, access, created, loose, residue) {
        AccessCleared(s1.objs, s1.peers, cloud.peers, start, access.value, loose, residue);
      }
    }
  }

  /** The access group, its setup key, and the DNS nameserver group. */
  method ProvisionShared(cloud: Cloud, db: Rows, dns: Option<bool>) returns (row: AccessRow)
    requires cloud.Valid() && db.Valid() && db.access == Some(NO_ACCESS)
    modifies cloud`objs, cloud`peers, cloud`clock, cloud`log, cloud`nextId, cloud`creations, db
    ensures cloud.Valid() && db.Valid() && old(cloud.nextId) <= cloud.nextId && Quiet(old(Now(cloud)), Now(cloud))
    ensures db.alive ==> old(db.alive) && db.access == Some(row) && db.entrypoints == old(db.entrypoints)
    ensures Grown(old(cloud.objs), cloud.objs, old(cloud.nextId), AccessIds(row), Ids(row.group))
    ensures row.group.Some? ==> cloud.objs[row.group.value] == Group
    ensures db.alive && cloud.log.faults == old(cloud.log.faults) ==> SharedEquipped(cloud.objs, row, dns)
    ensures NoRoutes(old(cloud.creations), cloud.creations)
  {
    ghost var s0, n0 := Now(cloud), cloud.nextId;
    var ok;
    row, ok := ProvisionAccess(cloud, db);
    ghost var s1, n1, c1, a1 := Now(cloud), cloud.nextId, cloud.creations, row;
    if row.group.Some? && dns.Some? {
      assert row.group.value in AccessIds(row);
      row, ok := ProvisionDns(cloud, db, row, dns.value);
      NoneTwice(old(cloud.creations), c1, cloud.creations);
      QuietTwice(s0, s1, Now(cloud));
      GrownTwice(s0.objs, s1.objs, cloud.objs, n0, n1, AccessIds(a1), Ids(row.dns), Ids(row.group), Ids(row.group));
      assert AccessIds(a1) + Ids(row.dns) == AccessIds(row);
      assert Ids(row.group) + Ids(row.group) == Ids(row.group);
    }
  }

  /** Every entrypoint has its row, in order, and what a row lacks a failed call accounts for; if none failed, nothing
      is lacking. */
  ghost predicate Served(objs: map<Id, Obj>, access: Option<AccessRow>, rows: seq<EntrypointRow>, eps: seq<Entrypoint>,
                         dns: Option<bool>, failed: int)
  {
    && access.Some? && (failed == 0 ==> SharedEquipped(objs, access.value, dns))
    && (access.value.group.None? ==> rows == [] && failed > 0)
    && (access.value.group.Some? ==> HostsServed(objs, rows, eps, access.value.group.value, failed))
  }

  ghost predicate HostsServed(objs: map<Id, Obj>, rows: seq<EntrypointRow>, eps: seq<Entrypoint>, access: Id,
                              failed: int)
  {
    && |rows| == |eps| && (forall i :: 0 <= i < |eps| ==> rows[i].host == eps[i].name)
    && Paid(objs, rows, eps, access, failed)
  }

  /** The shared objects stay, and the failures add up. */
  lemma ServedBy(objs: map<Id, Obj>, objs': map<Id, Obj>, access: AccessRow, rows: seq<EntrypointRow>,
                 eps: seq<Entrypoint>, dns: Option<bool>, f0: nat, f1: nat, f2: nat)
    requires f0 <= f1 <= f2 && (f1 == f0 ==> SharedEquipped(objs, access, dns))
    requires forall id :: id in objs ==> id in objs' && objs'[id] == objs[id]
    requires if access.group.Some? then HostsServed(objs', rows, eps, access.group.value, f2 - f1) else rows == []
    ensures Served(objs', Some(access), rows, eps, dns, f2 - f0)
  {
  }

  /** The entrypoints, unless there is no access group. */
  method ProvisionHosts(cloud: Cloud, db: Rows, row: AccessRow, eps: seq<Entrypoint>, ghost start: Id)
    returns (created: seq<EntrypointRow>, ghost loose: set<Id>, ghost flight: set<Id>, ghost home: Option<Id>)
    requires cloud.Valid() && db.Valid() && DistinctNames(eps) && InStep(db, row, [], eps, 0)
    requires Ledger(cloud.objs, cloud.peers, start, cloud.nextId, row, [], {})
    modifies cloud`objs, cloud`peers, cloud`clock, cloud`log, cloud`nextId, cloud`creations, db
    ensures cloud.Valid() && db.Valid() && old(cloud.nextId) <= cloud.nextId
    ensures old(cloud.log.faults) <= cloud.log.faults && Extends(old(cloud.objs), cloud.objs, old(cloud.nextId))
    ensures db.alive ==> old(db.alive) && db.access == Some(row) && db.entrypoints == created
    ensures Ledger(cloud.objs, cloud.peers, start, cloud.nextId, row, created, loose)
    ensures Asked(old(cloud.creations), cloud.creations, old(cloud.nextId), cloud.nextId)
    ensures db.alive ==> (Cut(old(cloud.creations), cloud.creations) <==> loose != {})
    ensures cloud.log.faults == old(cloud.log.faults) ==> loose == flight
    ensures Leaks(cloud.objs, db.alive, loose, flight, home)
    ensures row.group.None? ==> created == []
    ensures db.alive && row.group.Some? ==>
              HostsServed(cloud.objs, created, eps, row.group.value, cloud.log.faults - old(cloud.log.faults))
  {
    NothingAsked(cloud.creations, cloud.nextId);
    created, loose, flight, home := [], {}, {}, None;
    if row.group.Some? {
      created, loose, flight, home := ProvisionEntrypoints(cloud, db, row, eps, start);
    }
  }

  /** The shared objects with their account. */
  method ProvisionAccessRow(cloud: Cloud, db: Rows, dns: Option<bool>) returns (row: AccessRow)
    requires cloud.Valid() && db.Valid() && db.access == Some(NO_ACCESS)
    modifies cloud`objs, cloud`peers, cloud`clock, cloud`log, cloud`nextId, cloud`creations, db
    ensures cloud.Valid() && db.Valid() && old(cloud.nextId) <= cloud.nextId
    ensures old(cloud.log.faults) <= cloud.log.faults && Extends(old(cloud.objs), cloud.objs, old(cloud.nextId))
    ensures db.alive ==> old(db.alive) && db.access == Some(row) && db.entrypoints == old(db.entrypoints)
    ensures Ledger(cloud.objs, cloud.peers, old(cloud.nextId), cloud.nextId, row, [], {})
    ensures db.alive && cloud.log.faults == old(cloud.log.faults) ==> SharedEquipped(cloud.objs, row, dns)
    ensures NoRoutes(old(cloud.creations), cloud.creations)
  {
    ghost var s0, n0 := Now(cloud), cloud.nextId;
    row := ProvisionShared(cloud, db, dns);
    AccessLedger(s0.objs, cloud.objs, s0.peers, cloud.peers, n0, cloud.nextId, row);
    GrownExtends(s0.objs, cloud.objs, n0, AccessIds(row), Ids(row.group));
  }

  /** The shared objects, then the entrypoints. */
  method ProvisionAll(cloud: Cloud, db: Rows, eps: seq<Entrypoint>, dns: Option<bool>)
    returns (access: Option<AccessRow>, created: seq<EntrypointRow>,
             ghost loose: set<Id>, ghost flight: set<Id>, ghost home: Option<Id>)
    requires cloud.Valid() && db.Valid() && db.access == None && db.entrypoints == [] && DistinctNames(eps)
    modifies cloud`objs, cloud`peers, cloud`clock, cloud`log, cloud`nextId, cloud`creations, db
    ensures cloud.Valid() && db.Valid() && old(cloud.nextId) <= cloud.nextId
              && old(cloud.log.faults) <= cloud.log.faults
    ensures db.alive ==> db.access == access && db.entrypoints == created
    ensures Extends(old(cloud.objs), cloud.objs, old(cloud.nextId))
    ensures access.Some? ==> Ledger(cloud.objs, cloud.peers, old(cloud.nextId), cloud.nextId, access.value, created,
              loose)
    ensures access.None? ==> !db.alive && created == [] && Now(cloud) == old(Now(cloud)) && loose == flight == {}
    ensures old(cloud.creations) <= cloud.creations
    ensures db.alive ==> (Cut(old(cloud.creations), cloud.creations) <==> loose != {})
    ensures cloud.log.faults == old(cloud.log.faults) ==> loose == flight
    ensures Leaks(cloud.objs, db.alive, loose, flight, home)
    ensures db.alive ==>
              Served(cloud.objs, access, created, eps, dns, cloud.log.faults - old(cloud.log.faults))
  {
    ghost var s0, n0, c0 := Now(cloud), cloud.nextId, cloud.creations;
    created, loose, flight, home := [], {}, {}, None;
    access := db.GetOrCreateAccess();
    if access.None? {
      return;
    }
    var row := ProvisionAccessRow(cloud, db, dns);
    access := Some(row);
    ghost var s1, n1, c1 := Now(cloud), cloud.nextId, cloud.creations;
    created, loose, flight, home := ProvisionHosts(cloud, db, row, eps, n0);
    ExtendsTwice(s0.objs, s1.objs, cloud.objs, n0, n1);
    NoneThenAsked(c0, c1, cloud.creations, n1, cloud.nextId);
    if db.alive {
      ServedBy(s1.objs, cloud.objs, row, created, eps, dns, s0.faults, s1.faults, cloud.log.faults);
    }
  }

  lemma ExtendsTwice(o0: map<Id, Obj>, o1: map<Id, Obj>, o2: map<Id, Obj>, lo: Id, lo': Id)
    requires Extends(o0, o1, lo) && Extends(o1, o2, lo') && lo <= lo'
    ensures Extends(o0, o2, lo)
  {
  }

  /** Nothing is lacking: the access row and every entrypoint's row record all they are meant to. */
  ghost predicate FullyServed(objs: map<Id, Obj>, access: Option<AccessRow>, rows: seq<EntrypointRow>,
                              eps: seq<Entrypoint>, dns: Option<bool>)
  {
    && access.Some? && SharedEquipped(objs, access.value, dns) && |rows| == |eps|
    && forall i :: 0 <= i < |eps| ==> Equipped(objs, rows[i], eps[i], access.value.group.value)
  }

  lemma NoneFailedServes(objs: map<Id, Obj>, access: Option<AccessRow>, rows: seq<EntrypointRow>, eps: seq<Entrypoint>,
                         dns: Option<bool>)
    requires Served(objs, access, rows, eps, dns, 0)
    ensures FullyServed(objs, access, rows, eps, dns)
  {
    NothingLacking(objs, rows, eps, access.value.group.value);
  }

  /** `_provision_netbird_for_sandbox`.  Objects that were there before stay.  If the sandbox is still there at the end,
      its rows account for every object made except the `loose` ones: routes made before a failing route creation of
      the same entrypoint, so there are some exactly if such a creation failed.  If the sandbox vanished, then without
      failing calls nothing is left but objects of the one entrypoint in flight and a group that these refer to. */
  method Provision(cloud: Cloud, db: Rows, eps: seq<Entrypoint>, dns: Option<bool>)
    returns (ghost loose: set<Id>, ghost flight: set<Id>, ghost home: Option<Id>)
    requires cloud.Valid() && db.Valid() && db.access == None && db.entrypoints == [] && DistinctNames(eps)
    modifies cloud, db
    ensures db.Valid() && old(cloud.creations) <= cloud.creations
    ensures forall id :: id in old(cloud.objs) ==> id in cloud.objs && cloud.objs[id] == old(cloud.objs)[id]
    ensures db.alive ==> Provisioned(cloud, db, old(cloud.nextId), old(cloud.objs), loose)
    ensures db.alive ==> AreRoutes(cloud.objs, loose) && (Cut(old(cloud.creations), cloud.creations) <==> loose != {})
    ensures OfEntrypointLeft(cloud.objs, flight, home)
    // without entrypoints and nameservers nothing is done
    ensures eps == [] && dns == None ==> Now(cloud) == old(Now(cloud)) && cloud.creations == old(cloud.creations)
    // otherwise nothing is lacking that no failed call accounts for
    ensures db.alive && (eps != [] || dns.Some?) ==>
              Served(cloud.objs, db.access, db.entrypoints, eps, dns, cloud.log.faults - old(cloud.log.faults))
    ensures db.alive && (eps != [] || dns.Some?) && cloud.log.faults == old(cloud.log.faults) ==>
              FullyServed(cloud.objs, db.access, db.entrypoints, eps, dns)
    ensures !db.alive && cloud.log.faults == old(cloud.log.faults) ==>
              forall id :: id in cloud.objs && old(cloud.nextId) <= id ==>
                  id in flight || id in RefsFrom(cloud.objs, flight)
  {
    ghost var start, s0 := cloud.nextId, Now(cloud);
    loose, flight, home := {}, {}, None;
    assert Residue(cloud.objs, {}) == {};
    NothingRecorded(cloud.objs, cloud.peers, start);
    NothingAsked(cloud.creations, 0);
    if eps == [] && dns == None {
      db.Race();
      return;
    }
    // start guard
    var exist := db.Exists();
    if !exist {
      return;
    }
    var access, created;
    access, created, loose, flight, home := ProvisionAll(cloud, db, eps, dns);
    EndGuard(cloud, db, access, created, start, s0.objs, loose, flight, home);
    if db.alive && cloud.log.faults == s0.faults {
      NoneFailedServes(cloud.objs, db.access, db.entrypoints, eps, dns);
    }
  }

  /** The end guard: if the sandbox is gone, everything recorded in memory is torn down. */
  method EndGuard(cloud: Cloud, db: Rows, access: Option<AccessRow>, created: seq<EntrypointRow>, ghost start: Id,
                  ghost base: map<Id, Obj>, ghost loose: set<Id>, ghost flight: set<Id>, ghost home: Option<Id>)
    requires cloud.Valid() && db.Valid() && Extends(base, cloud.objs, start) && forall id :: id in base ==> id < start
    requires access.Some? ==> Ledger(cloud.objs, cloud.peers, start, cloud.nextId, access.value, created, loose)
    requires access.None? ==> created == [] && loose == {} && cloud.objs == base
    requires OfEntrypoint(cloud.objs, flight, home)
    modifies cloud`objs, cloud`peers, cloud`clock, cloud`log, cloud`deadline, db
    ensures cloud.Valid() && db.Valid() && old(cloud.log.faults) <= cloud.log.faults
    ensures db.alive ==> old(db.alive) && db.access == old(db.access) && db.entrypoints == old(db.entrypoints)
    ensures db.alive ==> cloud.objs == old(cloud.objs) && cloud.peers == old(cloud.peers)
    ensures forall id :: id in base ==> id in cloud.objs && cloud.objs[id] == base[id]
    ensures OfEntrypointLeft(cloud.objs, flight, home)
    ensures !db.alive && cloud.log.faults == old(cloud.log.faults) ==>
              forall id :: id in cloud.objs && start <= id ==> id in loose || id in RefsFrom(cloud.objs, loose)
  {
    ghost var s1 := Now(cloud);
    var exist := db.Exists();
    if exist {
      return;
    }
    TeardownProvisioned(cloud, created, access, start, loose, Residue(s1.objs, loose));
    FlightLeft(s1.objs, cloud.objs, access, created, flight, home);
    if access.Some? {
      OldStay(base, s1.objs, cloud.objs, s1.peers, start, cloud.nextId, access.value, created, loose);
    }
  }

  /** Recorded objects are new, so removing only those keeps the old ones. */
  lemma OldStay(base: map<Id, Obj>, mid: map<Id, Obj>, end: map<Id, Obj>, peers: map<Id, Id>, start: Id, next: Id,
                access: AccessRow, created: seq<EntrypointRow>, loose: set<Id>)
    requires Extends(base, mid, start) && OnlyRecordedRemoved(mid, end, Some(access), created)
    requires Ledger(mid, peers, start, next, access, created, loose) && forall id :: id in base ==> id < start
    ensures forall id :: id in base ==> id in end && end[id] == base[id]
  {
  }

  /** Teardown of recorded rows leaves the unrecorded objects of a flight as they are. */
  lemma FlightLeft(objs: map<Id, Obj>, objs': map<Id, Obj>, access: Option<AccessRow>, created: seq<EntrypointRow>,
                   flight: set<Id>, home: Option<Id>)
    requires OnlyRecordedRemoved(objs, objs', access, created) && OfEntrypoint(objs, flight, home)
    ensures OfEntrypointLeft(objs', flight, home)
  {
  }

  /** The objects among `made` that still exist belong to the entrypoint with that group. */
  ghost predicate OfEntrypointLeft(objs: map<Id, Obj>, made: set<Id>, group: Option<Id>) {
    forall id :: id in made && id in objs ==> group.Some? && (id == group.value || group.value in Refs(objs[id]))
  }

  lemma NothingRecorded(objs: map<Id, Obj>, peers: map<Id, Id>, start: Id)
    requires KnownRefs(objs, start) && (forall p :: p in peers ==> peers[p] < start)
    ensures Tracked(objs, peers, start, None, [], {}, {})
  {
    forall g: Id | Joinable(objs, g) ensures g < start {
      var id :| id in objs && objs[id] == Key(g);
      assert g in Refs(objs[id]);
    }
  }

  /** What a teardown without failures leaves of a provisioned sandbox. */
  lemma RestoredIff(base: map<Id, Obj>, start: Id, mid: map<Id, Obj>, end: map<Id, Obj>, peers: map<Id, Id>,
                    access: Option<AccessRow>, rows: seq<EntrypointRow>, loose: set<Id>)
    requires KnownRefs(base, start) && Extends(base, mid, start)
    requires RecordedAfter(start, access, rows) && OnlyRecordedRemoved(mid, end, access, rows)
    requires forall id :: id in loose ==> id in mid && start <= id && !Recorded(access, rows, id)
    requires Tracked(end, peers, start, None, [], loose, Residue(mid, loose))
    ensures end == base <==> loose == {}
    ensures loose == {} ==> forall p :: p in peers ==> peers[p] < start
  {
    if loose == {} {
      assert Residue(mid, loose) == {};
      assert end.Keys == base.Keys;
    } else {
      var id :| id in loose;
      assert id in end && id !in base;
    }
  }

  /** Teardown undoes provisioning: when the sandbox outlives its provisioning, whatever creations failed, a
      teardown without failures within its budget returns the cloud to its prior objects exactly when no
      route creation failed after another one of the same entrypoint; then also no peer is left in a
      group of the sandbox, and no group deletion was issued while something referred to the group or a
      peer was in it. */
  method ProvisionThenDestroy(cloud: Cloud, db: Rows, eps: seq<Entrypoint>, dns: Option<bool>, budget: int)
    returns (ghost survived: bool, ghost mid: Snap)
    requires cloud.Valid() && db.Valid() && db.access == None && db.entrypoints == [] && DistinctNames(eps)
    modifies cloud, db
    ensures survived && Smooth(mid, Now(cloud), Some(mid.clock + budget)) ==>
              && (cloud.objs == old(cloud.objs) <==> !Cut(old(cloud.creations), cloud.creations))
              && (!Cut(old(cloud.creations), cloud.creations) ==>
                    && (forall p :: p in cloud.peers ==> cloud.peers[p] < old(cloud.nextId))
                    && cloud.log.unclean == mid.unclean)
  {
    ghost var base, start := cloud.objs, cloud.nextId;
    ghost var loose, flight, home := Provision(cloud, db, eps, dns);
    survived, mid := db.alive, Now(cloud);
    if db.alive {
      ghost var rows, access := db.entrypoints, db.access;
      var left, accessLeft := DestroySandbox(cloud, db.entrypoints, db.access, budget, start, loose,
                                             Residue(mid.objs, loose));
      if Smooth(mid, Now(cloud), Some(mid.clock + budget)) {
        RestoredIff(base, start, mid.objs, cloud.objs, cloud.peers, access, rows, loose);
      }
    }
  }
}

/** Routing of the management node: which router serves a network, and the routes to the networks. */
module Routing {
  import opened Wrappers
  import opened TopologyModel
  import opened TopologyInstances
  import opened LinkQueries
  import Cidr
  import Validators

  datatype Route = Route(net: Cidr.Block, gateway: nat)

  // ---------------------------------------------------------------- alphabetical order

  /** String comparison: by the first character that differs. */
  predicate Le(a: string, b: string) {
    a == "" || (b != "" && (a[0] < b[0] || (a[0] == b[0] && Le(a[1..], b[1..]))))
  }

  lemma {:induction false} LeTotal(a: string, b: string)
    ensures Le(a, b) || Le(b, a)
  {
    if a != "" && b != "" && a[0] == b[0] {
      LeTotal(a[1..], b[1..]);
    }
  }

  lemma {:induction false} LeTrans(a: string, b: string, c: string)
    requires Le(a, b) && Le(b, c)
    ensures Le(a, c)
  {
    if a != "" && a[0] == b[0] == c[0] {
      LeTrans(a[1..], b[1..], c[1..]);
    }
  }

  /** Alphabetical order: one string begins with the other, or at the first difference has the smaller character. */
  ghost predicate Alphabetical(a: string, b: string) {
    a <= b || exists k :: 0 <= k < |a| && k < |b| && a[..k] == b[..k] && a[k] < b[k]
  }

  lemma PrefixTail(a: string, b: string)
    requires a != "" && b != ""
    ensures a <= b <==> a[0] == b[0] && a[1..] <= b[1..]
  {
    if a[0] == b[0] && a[1..] <= b[1..] {
      forall i | 0 <= i < |a| ensures a[i] == b[i] {
        if i > 0 { assert a[i] == a[1..][i - 1] && b[i] == b[1..][i - 1]; }
      }
    }
  }

  lemma DifferenceTail(a: string, b: string, k: nat)
    requires a != "" && b != "" && a[0] == b[0] && k < |a| - 1 && k < |b| - 1
    ensures a[1..][..k] == b[1..][..k] <==> a[..k + 1] == b[..k + 1]
    ensures a[1..][k] == a[k + 1] && b[1..][k] == b[k + 1]
  {
    assert a[..k + 1] == [a[0]] + a[1..][..k] && b[..k + 1] == [b[0]] + b[1..][..k];
    if a[..k + 1] == b[..k + 1] {
      assert a[1..][..k] == a[..k + 1][1..] && b[1..][..k] == b[..k + 1][1..];
    }
  }

  lemma AlphabeticalTail(a: string, b: string)
    requires a != "" && b != "" && a[0] == b[0]
    ensures Alphabetical(a, b) <==> Alphabetical(a[1..], b[1..])
  {
    PrefixTail(a, b);
    if k :| 0 <= k < |a| && k < |b| && a[..k] == b[..k] && a[k] < b[k] {
      DifferenceTail(a, b, k - 1);
    }
    if k :| 0 <= k < |a| - 1 && k < |b| - 1 && a[1..][..k] == b[1..][..k] && a[1..][k] < b[1..][k] {
      DifferenceTail(a, b, k);
    }
  }

  lemma {:induction false} LeIff(a: string, b: string)
    ensures Le(a, b) <==> Alphabetical(a, b)
  {
    if a != "" && b != "" {
      PrefixTail(a, b);
      if a[0] == b[0] {
        AlphabeticalTail(a, b);
        LeIff(a[1..], b[1..]);
      } else {
        assert a[..0] == b[..0];
        if k :| 0 <= k < |a| && k < |b| && a[..k] == b[..k] && a[k] < b[k] {
          if k > 0 { assert a[..k][0] == b[..k][0]; }
        }
      }
    }
  }

  // ---------------------------------------------------------------- sorting, greatest router first

  /** Equal routers keep their order. */
  function Insert(m: Mapping, s: seq<Mapping>): seq<Mapping> {
    if s == [] then [m]
    else if Le(m.node, s[0].node) then [s[0]] + Insert(m, s[1..])
    else [m] + s
  }

  function Sorted(ms: seq<Mapping>): seq<Mapping> {
    if ms == [] then [] else Insert(ms[|ms| - 1], Sorted(ms[..|ms| - 1]))
  }

  ghost predicate Descending(s: seq<Mapping>) {
    forall i, j :: 0 <= i < j < |s| ==> Le(s[j].node, s[i].node)
  }

  lemma {:induction false} InsertIn(m: Mapping, s: seq<Mapping>, x: Mapping)
    ensures x in Insert(m, s) <==> x == m || x in s
  {
    if s != [] && Le(m.node, s[0].node) {
      InsertIn(m, s[1..], x);
    }
  }

  lemma InsertBelow(m: Mapping, s: seq<Mapping>, j: nat, bound: string)
    requires j < |Insert(m, s)| && Le(m.node, bound) && forall i :: 0 <= i < |s| ==> Le(s[i].node, bound)
    ensures Le(Insert(m, s)[j].node, bound)
  {
    var x := Insert(m, s)[j];
    InsertIn(m, s, x);
    if x != m {
      var i :| 0 <= i < |s| && s[i] == x;
    }
  }

  lemma InsertInFront(m: Mapping, s: seq<Mapping>, i: nat)
    requires Descending(s) && s != [] && !Le(m.node, s[0].node) && i < |s|
    ensures Le(s[i].node, m.node)
  {
    LeTotal(m.node, s[0].node);
    if i > 0 {
      LeTrans(s[i].node, s[0].node, m.node);
    }
  }

  lemma {:induction false} InsertDescending(m: Mapping, s: seq<Mapping>)
    requires Descending(s)
    ensures Descending(Insert(m, s))
  {
    if s != [] && Le(m.node, s[0].node) {
      var rest := Insert(m, s[1..]);
      InsertDescending(m, s[1..]);
      forall j | 0 <= j < |rest| ensures Le(rest[j].node, s[0].node) { InsertBelow(m, s[1..], j, s[0].node); }
    } else if s != [] {
      forall i | 0 <= i < |s| ensures Le(s[i].node, m.node) { InsertInFront(m, s, i); }
    }
  }

  lemma {:induction false} SortedDescending(ms: seq<Mapping>)
    ensures Descending(Sorted(ms))
  {
    if ms != [] {
      SortedDescending(ms[..|ms| - 1]);
      InsertDescending(ms[|ms| - 1], Sorted(ms[..|ms| - 1]));
    }
  }

  lemma {:induction false} InsertSame(m: Mapping, s: seq<Mapping>)
    ensures multiset(Insert(m, s)) == multiset(s) + multiset{m}
  {
    if s != [] && Le(m.node, s[0].node) {
      InsertSame(m, s[1..]);
      assert s == [s[0]] + s[1..];
    }
  }

  lemma LastElement(ms: seq<Mapping>)
    requires ms != []
    ensures multiset(ms) == multiset(ms[..|ms| - 1]) + multiset{ms[|ms| - 1]}
  {
    assert ms == ms[..|ms| - 1] + [ms[|ms| - 1]];
  }

  lemma {:induction false} SortedSame(ms: seq<Mapping>)
    ensures multiset(Sorted(ms)) == multiset(ms)
  {
    if ms != [] {
      var init, last := ms[..|ms| - 1], ms[|ms| - 1];
      SortedSame(init);
      InsertSame(last, Sorted(init));
      LastElement(ms);
    }
  }

  /** The sorted mappings are the given ones, the alphabetically last router first. */
  lemma SortedReversed(ms: seq<Mapping>)
    ensures multiset(Sorted(ms)) == multiset(ms)
    ensures forall i, j :: 0 <= i < j < |Sorted(ms)| ==> Alphabetical(Sorted(ms)[j].node, Sorted(ms)[i].node)
  {
    SortedSame(ms);
    SortedDescending(ms);
    forall i, j | 0 <= i < j < |Sorted(ms)| ensures Alphabetical(Sorted(ms)[j].node, Sorted(ms)[i].node) {
      LeIff(Sorted(ms)[j].node, Sorted(ms)[i].node);
    }
  }

  lemma {:induction false} MappingsJoin(a: seq<Mapping>, b: seq<Mapping>, node: string)
    ensures MappingsOf(a + b, node) == MappingsOf(a, node) + MappingsOf(b, node)
  {
    if b == [] {
      assert a + b == a;
    } else {
      assert (a + b)[..|a + b| - 1] == a + b[..|b| - 1];
      MappingsJoin(a, b[..|b| - 1], node);
    }
  }

  lemma OneMapping(m: Mapping, node: string)
    ensures MappingsOf([m], node) == if m.node == node then [m] else []
  {
    assert [m][..0] == [];
  }

  lemma {:induction false} NoneOf(s: seq<Mapping>, node: string)
    requires forall i :: 0 <= i < |s| ==> s[i].node != node
    ensures MappingsOf(s, node) == []
  {
    if s != [] { NoneOf(s[..|s| - 1], node); }
  }

  lemma {:induction false} InsertStable(m: Mapping, s: seq<Mapping>, node: string)
    requires Descending(s)
    ensures MappingsOf(Insert(m, s), node) == MappingsOf(s, node) + MappingsOf([m], node)
  {
    if s != [] && Le(m.node, s[0].node) {
      InsertStable(m, s[1..], node);
      MappingsJoin([s[0]], s[1..], node);
      MappingsJoin([s[0]], Insert(m, s[1..]), node);
      assert s == [s[0]] + s[1..];
    } else {
      FrontStable(m, s, node);
    }
  }

  lemma FrontStable(m: Mapping, s: seq<Mapping>, node: string)
    requires Descending(s) && (s != [] ==> !Le(m.node, s[0].node))
    ensures MappingsOf([m] + s, node) == MappingsOf(s, node) + MappingsOf([m], node)
  {
    MappingsJoin([m], s, node);
    OneMapping(m, node);
    if s != [] && m.node == node { SmallerNodes(m, s); }
    if m.node == node { NoneOf(s, node); }
  }

  lemma SmallerNodes(m: Mapping, s: seq<Mapping>)
    requires Descending(s) && s != [] && !Le(m.node, s[0].node)
    ensures forall i :: 0 <= i < |s| ==> s[i].node != m.node
  {
    forall i | 0 <= i < |s| ensures s[i].node != m.node {
      LeTotal(m.node, m.node);
    }
  }

  /** The sort is stable: the mappings of a router keep their order. */
  lemma {:induction false} SortedStable(ms: seq<Mapping>, node: string)
    ensures MappingsOf(Sorted(ms), node) == MappingsOf(ms, node)
  {
    if ms != [] {
      var init, last := ms[..|ms| - 1], ms[|ms| - 1];
      SortedStable(init, node);
      SortedDescending(init);
      InsertStable(last, Sorted(init), node);
      OneMapping(last, node);
    }
  }

  lemma {:induction false} SortedIn(ms: seq<Mapping>, x: Mapping)
    ensures x in Sorted(ms) <==> x in ms
  {
    if ms != [] {
      SortedIn(ms[..|ms| - 1], x);
      InsertIn(ms[|ms| - 1], Sorted(ms[..|ms| - 1]), x);
      assert ms == ms[..|ms| - 1] + [ms[|ms| - 1]];
    }
  }

  // ---------------------------------------------------------------- the router of a network

  /** The router is attached to the network, and no router attached to it comes first in the alphabet. */
  ghost predicate Least(ms: seq<Mapping>, network: string, router: string) {
    && (exists m :: m in ms && m.network == network && m.node == router)
    && forall m :: m in ms && m.network == network ==> Alphabetical(router, m.node)
  }

  /** Exactly the networks with a mapping, each with its least router. */
  ghost predicate Owners(ms: seq<Mapping>, owners: map<string, string>) {
    && (forall m :: m in ms ==> m.network in owners)
    && forall n :: n in owners ==> Least(ms, n, owners[n])
  }

  lemma OwnersNext(s: seq<Mapping>, i: nat, owners: map<string, string>)
    requires Descending(s) && i < |s| && Owners(s[..i], owners)
    ensures Owners(s[..i + 1], owners[s[i].network := s[i].node])
  {
    var m, after := s[i], owners[s[i].network := s[i].node];
    assert s[..i + 1] == s[..i] + [m];
    forall x | x in s[..i] ensures Alphabetical(m.node, x.node) {
      var j :| 0 <= j < i && s[j] == x;
      LeIff(m.node, x.node);
    }
    assert m in s[..i + 1];
    forall n | n in after && n != m.network ensures Least(s[..i + 1], n, after[n]) {
      assert Least(s[..i], n, owners[n]);
    }
  }

  // ---------------------------------------------------------------- the routes

  /** The address of a router on the WAN. */
  function Gateway(d: Definition, ips: map<nat, nat>, i: nat): nat
    requires i < |d.routers|
  {
    var number := WanLink(d, i).number;
    if number in ips then ips[number] else 0
  }

  /** Routes through one router, for those of its mappings whose network it serves. */
  function RoutesVia(d: Definition, owners: map<string, string>, ms: seq<Mapping>, gateway: nat): seq<Route> {
    if ms == [] then [] else
    var last := ms[|ms| - 1];
    RoutesVia(d, owners, ms[..|ms| - 1], gateway)
    + (if last.network in owners && owners[last.network] == last.node
       then [Route(NetworkOf(d, last.network).cidr, gateway)] else [])
  }

  /** The routes of the management node through one router. */
  function RoutesThrough(d: Definition, ips: map<nat, nat>, owners: map<string, string>, j: nat): seq<Route>
    requires j < |d.routers|
  {
    RoutesVia(d, owners, MappingsOf(d.routerMappings, d.routers[j].name), Gateway(d, ips, j))
  }

  function Concat(parts: seq<seq<Route>>): seq<Route> {
    if parts == [] then [] else Concat(parts[..|parts| - 1]) + parts[|parts| - 1]
  }

  function Parts(d: Definition, ips: map<nat, nat>, owners: map<string, string>, n: nat): seq<seq<Route>>
    requires n <= |d.routers|
  {
    seq(n, j requires 0 <= j < n => RoutesThrough(d, ips, owners, j))
  }

  /** The routes of the management node through the first `n` routers. */
  function Routes(d: Definition, ips: map<nat, nat>, owners: map<string, string>, n: nat): seq<Route>
    requires n <= |d.routers|
  {
    Concat(Parts(d, ips, owners, n))
  }

  lemma RoutesNext(d: Definition, ips: map<nat, nat>, owners: map<string, string>, n: nat)
    requires n < |d.routers|
    ensures Routes(d, ips, owners, n + 1) == Routes(d, ips, owners, n) + RoutesThrough(d, ips, owners, n)
  {
    assert Parts(d, ips, owners, n + 1)[..n] == Parts(d, ips, owners, n);
  }

  /** Every link has an address. */
  ghost predicate Enriched(d: Definition, ips: map<nat, nat>) {
    forall k :: 1 <= k <= |LinksOf(d)| ==> k in ips
  }

  /** The router has one link to the WAN, and this is the address on it. */
  ghost predicate WanAddress(d: Definition, ips: map<nat, nat>, router: string, address: nat) {
    exists l :: l in LinksOf(d) && OnlyBetween(LinksOf(d), l, router, d.wan.name)
                && l.number in ips && ips[l.number] == address
  }

  /** The only link between the node and the network. */
  ghost predicate OnlyBetween(links: seq<Link>, l: Link, node: string, network: string) {
    l.node == node && l.network == network
    && forall x :: x in links && x.node == node && x.network == network ==> x == l
  }

  lemma FoundBetween(links: seq<Link>, node: string, network: string, l: Link)
    ensures l in OnNetworks(AtNode(links, node), [network]) <==> l in links && l.node == node && l.network == network
  {
    OnNetworksExact(AtNode(links, node), [network], l);
    InNodeScan(links, l, node);
  }

  lemma GatewayAddress(d: Definition, ips: map<nat, nat>, i: nat)
    requires Separate(d) && i < |d.routers| && Enriched(d, ips)
    ensures WanAddress(d, ips, d.routers[i].name, Gateway(d, ips, i))
  {
    var wan, links, name := WanLink(d, i), LinksOf(d), d.routers[i].name;
    RouterWanLink(d, i);
    WanNumber(d, i);
    FoundBetween(links, name, d.wan.name, wan);
    forall x | x in links && x.node == name && x.network == d.wan.name ensures x == wan {
      FoundBetween(links, name, d.wan.name, x);
    }
    assert OnlyBetween(links, wan, name, d.wan.name);
  }

  class SandboxRouting {
    const instance: TopologyInstance
    const ips: map<nat, nat>
    var networkToRouter: map<string, string>
    var manRoutes: seq<Route>

    constructor (instance: TopologyInstance, ips: map<nat, nat>)
      ensures this.instance == instance && this.ips == ips && manRoutes == [] && networkToRouter == map[]
    {
      this.instance, this.ips, networkToRouter, manRoutes := instance, ips, map[], [];
    }

    /** `_get_network_to_router_mapping`: greatest router first, and the last assignment wins. */
    static method GetNetworkToRouterMapping(ms: seq<Mapping>) returns (owners: map<string, string>)
      ensures Owners(ms, owners)
    {
      var sorted := Sorted(ms);
      SortedDescending(ms);
      owners := map[];
      for i := 0 to |sorted|
        invariant Owners(sorted[..i], owners)
      {
        OwnersNext(sorted, i, owners);
        owners := owners[sorted[i].network := sorted[i].node];
      }
      assert sorted[..|sorted|] == sorted;
      forall m ensures m in sorted <==> m in ms { SortedIn(ms, m); }
    }

    /** `_get_host_networks_for_routing` over the links found, and the routes added for it. */
    method RoutesOver(links: seq<Link>, gateway: nat, ghost ms: seq<Mapping>) returns (routes: seq<Route>)
      requires Same(links, ms) && forall j :: 0 <= j < |ms| ==> ms[j].network in networkToRouter
      ensures routes == RoutesVia(instance.definition, networkToRouter, ms, gateway)
    {
      routes := [];
      for j := 0 to |links|
        invariant routes == RoutesVia(instance.definition, networkToRouter, ms[..j], gateway)
      {
        assert ms[..j + 1][..j] == ms[..j];
        if links[j].node == networkToRouter[links[j].network] {
          routes := routes + [Route(NetworkOf(instance.definition, links[j].network).cidr, gateway)];
        }
      }
      assert ms[..|ms|] == ms;
    }

    /** The networks of one router that are routed through it. */
    method RouterRoutes(i: nat, gateway: nat) returns (routes: seq<Route>)
      requires instance.Indexed() && Separate(instance.definition) && i < |instance.definition.routers|
      requires Owners(instance.definition.routerMappings, networkToRouter)
      ensures routes == RoutesVia(instance.definition, networkToRouter,
                                  MappingsOf(instance.definition.routerMappings, instance.definition.routers[i].name),
                                  gateway)
    {
      var d := instance.definition;
      RouterNode(d, i);
      var links := instance.GetNodeLinks(d.routers[i].name, NetworkNames(d.networks));
      RouterLinksMapped(d, i);
      OwnMappings(d, networkToRouter, d.routers[i].name);
      routes := RoutesOver(links, gateway, MappingsOf(d.routerMappings, d.routers[i].name));
    }

    /** The one link of a router to the WAN has an address. */
    method RouterGateway(i: nat) returns (gateway: nat)
      requires instance.Indexed() && Separate(instance.definition) && i < |instance.definition.routers|
      requires Enriched(instance.definition, ips)
      ensures gateway == Gateway(instance.definition, ips, i)
    {
      var d := instance.definition;
      RouterNode(d, i);
      RouterWanLink(d, i);
      WanNumber(d, i);
      var raised, link := instance.GetLinkBetween(d.routers[i].name, d.wan.name);
      gateway := ips[link.value.number];
    }

    /** `_set_sandbox_routing`, the routes of the management node. */
    method SetSandboxRouting()
      requires instance.Indexed() && Separate(instance.definition) && Enriched(instance.definition, ips)
      modifies this`manRoutes, this`networkToRouter
      ensures Owners(instance.definition.routerMappings, networkToRouter)
      ensures manRoutes == Routes(instance.definition, ips, networkToRouter, |instance.definition.routers|)
    {
      var owners := GetNetworkToRouterMapping(instance.definition.routerMappings);
      networkToRouter := owners;
      var all := AllRoutes();
      manRoutes := all;
    }

    /** The loop over the links from the WAN to the routers. */
    method AllRoutes() returns (all: seq<Route>)
      requires instance.Indexed() && Separate(instance.definition) && Enriched(instance.definition, ips)
      requires Owners(instance.definition.routerMappings, networkToRouter)
      ensures all == Routes(instance.definition, ips, networkToRouter, |instance.definition.routers|)
    {
      all := [];
      for i := 0 to |instance.definition.routers|
        invariant all == Routes(instance.definition, ips, networkToRouter, i)
      {
        var gateway := RouterGateway(i);
        var routes := RouterRoutes(i, gateway);
        RoutesNext(instance.definition, ips, networkToRouter, i);
        all := all + routes;
      }
    }
  }

  lemma RouterNode(d: Definition, i: nat)
    requires i < |d.routers|
    ensures d.routers[i].name in NodeNames(d)
  {
    assert RouterNames(d)[i] in RouterNames(d);
  }

  lemma WanNumber(d: Definition, i: nat)
    requires i < |d.routers|
    ensures 1 <= WanLink(d, i).number <= |LinksOf(d)|
  {
  }

  // ---------------------------------------------------------------- matching

  /** The routes whose network contains the address. */
  function Matching(routes: seq<Route>, a: nat): seq<Route> {
    if routes == [] then [] else
    var last := routes[|routes| - 1];
    Matching(routes[..|routes| - 1], a) + (if last.net.Contains(a) then [last] else [])
  }

  lemma {:induction false} MatchingSplit(p: seq<Route>, q: seq<Route>, a: nat)
    ensures Matching(p + q, a) == Matching(p, a) + Matching(q, a)
  {
    if q == [] {
      assert p + q == p;
    } else {
      assert (p + q)[..|p + q| - 1] == p + q[..|q| - 1];
      MatchingSplit(p, q[..|q| - 1], a);
    }
  }

  function Repeat(r: Route, k: nat): seq<Route> { seq(k, _ => r) }

  /** How often a router is mapped to a network. */
  function Count(ms: seq<Mapping>, router: string, network: string): nat {
    if ms == [] then 0 else
    var last := ms[|ms| - 1];
    Count(ms[..|ms| - 1], router, network) + (if last.node == router && last.network == network then 1 else 0)
  }

  lemma {:induction false} CountOf(ms: seq<Mapping>, router: string, network: string)
    ensures Count(MappingsOf(ms, router), router, network) == Count(ms, router, network)
  {
    if ms != [] {
      var own := MappingsOf(ms[..|ms| - 1], router);
      CountOf(ms[..|ms| - 1], router, network);
      if ms[|ms| - 1].node == router {
        assert (own + [ms[|ms| - 1]])[..|own|] == own;
      } else {
        assert MappingsOf(ms, router) == own;
      }
    }
  }

  /** The address lies in this network and in no other. */
  ghost predicate In(d: Definition, a: nat, network: string) {
    forall n :: n in NetworkNames(d.networks) ==> (NetworkOf(d, n).cidr.Contains(a) <==> n == network)
  }

  /** Networks of an accepted definition are disjoint. */
  lemma AddressIn(d: Definition, a: nat, network: string)
    requires Validators.AddressDisjoint(d.networks + [d.wan])
    requires network in NetworkNames(d.networks) && NetworkOf(d, network).cidr.Contains(a)
    ensures In(d, a, network)
  {
    var i := FindNetwork(d, network);
    forall n | n in NetworkNames(d.networks) && NetworkOf(d, n).cidr.Contains(a) ensures n == network {
      var j := FindNetwork(d, n);
      var all := d.networks + [d.wan];
      assert all[i] == d.networks[i] && all[j] == d.networks[j];
    }
  }

  lemma RepeatNext(r: Route, k: nat)
    ensures Repeat(r, k) + [r] == Repeat(r, k + 1)
  {
  }

  lemma MatchingNext(routes: seq<Route>, r: Route, a: nat)
    ensures Matching(routes + [r], a) == Matching(routes, a) + if r.net.Contains(a) then [r] else []
  {
    assert (routes + [r])[..|routes|] == routes;
  }

  /** What the step for the last mapping adds. */
  lemma ViaNext(d: Definition, owners: map<string, string>, ms: seq<Mapping>, gateway: nat, a: nat, network: string,
                k: nat)
    requires ms != [] && In(d, a, network) && network in owners
    requires ms[|ms| - 1].network in NetworkNames(d.networks) && ms[|ms| - 1].network in owners
    requires var r := Route(NetworkOf(d, network).cidr, gateway);
             Matching(RoutesVia(d, owners, ms[..|ms| - 1], gateway), a) == Repeat(r, k)
    ensures var r, last := Route(NetworkOf(d, network).cidr, gateway), ms[|ms| - 1];
            Matching(RoutesVia(d, owners, ms, gateway), a)
            == Repeat(r, if last.network == network && owners[network] == last.node then k + 1 else k)
  {
    var r, last := Route(NetworkOf(d, network).cidr, gateway), ms[|ms| - 1];
    if owners[last.network] == last.node {
      MatchingNext(RoutesVia(d, owners, ms[..|ms| - 1], gateway), Route(NetworkOf(d, last.network).cidr, gateway), a);
      RepeatNext(r, k);
    } else {
      assert RoutesVia(d, owners, ms, gateway) == RoutesVia(d, owners, ms[..|ms| - 1], gateway);
    }
  }

  /** Through one router: one route for each of its mappings to the network, if it serves the network. */
  lemma {:induction false} MatchingVia(d: Definition, owners: map<string, string>, ms: seq<Mapping>, router: string,
                                       gateway: nat, a: nat, network: string)
    requires In(d, a, network) && network in owners
    requires forall i :: 0 <= i < |ms| ==>
               ms[i].node == router && ms[i].network in NetworkNames(d.networks) && ms[i].network in owners
    ensures Matching(RoutesVia(d, owners, ms, gateway), a)
            == Repeat(Route(NetworkOf(d, network).cidr, gateway),
                      if owners[network] == router then Count(ms, router, network) else 0)
  {
    if ms != [] {
      MatchingVia(d, owners, ms[..|ms| - 1], router, gateway, a, network);
      ViaNext(d, owners, ms, gateway, a, network,
              if owners[network] == router then Count(ms[..|ms| - 1], router, network) else 0);
    }
  }

  /** The mappings of a router name known networks that have an owner. */
  lemma OwnMappings(d: Definition, owners: map<string, string>, router: string)
    requires Separate(d) && Owners(d.routerMappings, owners)
    ensures forall i :: 0 <= i < |MappingsOf(d.routerMappings, router)| ==>
              && MappingsOf(d.routerMappings, router)[i].node == router
              && MappingsOf(d.routerMappings, router)[i].network in NetworkNames(d.networks)
              && MappingsOf(d.routerMappings, router)[i].network in owners
  {
    MappingsOfIn(d.routerMappings, router);
  }

  /** Through one router, by name. */
  lemma MatchingRouter(d: Definition, ips: map<nat, nat>, owners: map<string, string>, j: nat, a: nat, network: string)
    requires Separate(d) && Owners(d.routerMappings, owners) && In(d, a, network) && network in owners
               && j < |d.routers|
    ensures Matching(RoutesThrough(d, ips, owners, j), a)
            == Repeat(Route(NetworkOf(d, network).cidr, Gateway(d, ips, j)),
                      if owners[network] == d.routers[j].name
                      then Count(d.routerMappings, owners[network], network) else 0)
  {
    OwnMappings(d, owners, d.routers[j].name);
    MatchingVia(d, owners, MappingsOf(d.routerMappings, d.routers[j].name), d.routers[j].name, Gateway(d, ips, j), a,
        network);
    CountOf(d.routerMappings, d.routers[j].name, network);
  }

  ghost predicate Silent(d: Definition, ips: map<nat, nat>, owners: map<string, string>, a: nat, j: nat) {
    j < |d.routers| && Matching(RoutesThrough(d, ips, owners, j), a) == []
  }

  lemma OtherSilent(d: Definition, ips: map<nat, nat>, owners: map<string, string>, j: nat, a: nat, network: string)
    requires Separate(d) && Owners(d.routerMappings, owners) && In(d, a, network) && network in owners
               && j < |d.routers|
    requires owners[network] != d.routers[j].name
    ensures Silent(d, ips, owners, a, j)
  {
    MatchingRouter(d, ips, owners, j, a, network);
  }

  lemma MatchingAdd(p: seq<Route>, q: seq<Route>, a: nat)
    ensures Matching(p, a) == [] ==> Matching(p + q, a) == Matching(q, a)
    ensures Matching(q, a) == [] ==> Matching(p + q, a) == Matching(p, a)
  {
    MatchingSplit(p, q, a);
  }

  lemma {:induction false} MatchingNone(parts: seq<seq<Route>>, a: nat)
    requires forall j :: 0 <= j < |parts| ==> Matching(parts[j], a) == []
    ensures Matching(Concat(parts), a) == []
  {
    if parts != [] {
      MatchingNone(parts[..|parts| - 1], a);
      MatchingAdd(Concat(parts[..|parts| - 1]), parts[|parts| - 1], a);
    }
  }

  /** If only one part has routes that match, those are the routes that match. */
  lemma {:induction false} MatchingOne(parts: seq<seq<Route>>, i: nat, a: nat)
    requires i < |parts| && forall j :: 0 <= j < |parts| && j != i ==> Matching(parts[j], a) == []
    ensures Matching(Concat(parts), a) == Matching(parts[i], a)
  {
    MatchingAdd(Concat(parts[..|parts| - 1]), parts[|parts| - 1], a);
    if i < |parts| - 1 {
      MatchingOne(parts[..|parts| - 1], i, a);
    } else {
      MatchingNone(parts[..|parts| - 1], a);
    }
  }

  lemma MatchingRoutes(d: Definition, ips: map<nat, nat>, owners: map<string, string>, i: nat, a: nat)
    requires i < |d.routers|
    requires forall j: nat :: j < |d.routers| && j != i ==> Silent(d, ips, owners, a, j)
    ensures Matching(Routes(d, ips, owners, |d.routers|), a) == Matching(RoutesThrough(d, ips, owners, i), a)
  {
    var parts := Parts(d, ips, owners, |d.routers|);
    forall j | 0 <= j < |parts| && j != i ensures Matching(parts[j], a) == [] {
      assert Silent(d, ips, owners, a, j);
    }
    MatchingOne(parts, i, a);
  }

  /** A router, found by name. */
  lemma FindRouter(d: Definition, name: string) returns (i: nat)
    requires Separate(d) && name in RouterNames(d)
    ensures OnlyRouter(d, i) && d.routers[i].name == name
  {
    i :| 0 <= i < |d.routers| && RouterNames(d)[i] == name;
    RouterNamesApart(d, i);
  }

  ghost predicate DistinctMappings(ms: seq<Mapping>) {
    forall i, j :: 0 <= i < j < |ms| ==> ms[i].node != ms[j].node || ms[i].network != ms[j].network
  }

  lemma {:induction false} CountNone(ms: seq<Mapping>, router: string, network: string)
    requires forall i :: 0 <= i < |ms| ==> ms[i].node != router || ms[i].network != network
    ensures Count(ms, router, network) == 0
  {
    if ms != [] {
      CountNone(ms[..|ms| - 1], router, network);
    }
  }

  lemma {:induction false} CountOne(ms: seq<Mapping>, i: nat)
    requires DistinctMappings(ms) && i < |ms|
    ensures Count(ms, ms[i].node, ms[i].network) == 1
  {
    var init := ms[..|ms| - 1];
    if i == |ms| - 1 {
      CountNone(init, ms[i].node, ms[i].network);
    } else {
      CountOne(init, i);
      assert init[i] == ms[i];
    }
  }

  lemma ByOwner(d: Definition, ips: map<nat, nat>, owners: map<string, string>, a: nat, network: string, i: nat)
    requires Separate(d) && Owners(d.routerMappings, owners) && In(d, a, network) && network in owners
    requires OnlyRouter(d, i) && d.routers[i].name == owners[network]
    ensures Matching(Routes(d, ips, owners, |d.routers|), a)
            == Repeat(Route(NetworkOf(d, network).cidr, Gateway(d, ips, i)),
                Count(d.routerMappings, owners[network], network))
  {
    forall j: nat | j < |d.routers| && j != i ensures Silent(d, ips, owners, a, j) {
      OtherSilent(d, ips, owners, j, a, network);
    }
    MatchingRoutes(d, ips, owners, i, a);
    MatchingRouter(d, ips, owners, i, a, network);
  }

  lemma RoutesTo(d: Definition, ips: map<nat, nat>, owners: map<string, string>, a: nat, network: string)
    returns (i: nat)
    requires Separate(d) && Owners(d.routerMappings, owners) && In(d, a, network)
    requires exists m :: m in d.routerMappings && m.network == network
    ensures i < |d.routers| && Least(d.routerMappings, network, d.routers[i].name)
    ensures Matching(Routes(d, ips, owners, |d.routers|), a)
            == Repeat(Route(NetworkOf(d, network).cidr, Gateway(d, ips, i)),
                Count(d.routerMappings, d.routers[i].name, network))
    ensures DistinctMappings(d.routerMappings) ==> Count(d.routerMappings, d.routers[i].name, network) == 1
  {
    var j :| 0 <= j < |d.routerMappings| && d.routerMappings[j].network == network
        && d.routerMappings[j].node == owners[network];
    i := FindRouter(d, owners[network]);
    ByOwner(d, ips, owners, a, network, i);
    if DistinctMappings(d.routerMappings) {
      CountOne(d.routerMappings, j);
    }
  }

  /** The routing of an accepted topology. Every address of a network that has a router mapping matches as
      many routes as the alphabetically least router has mappings to the network, all through that router's
      address on the WAN; exactly one when no router is mapped to a network twice. */
  lemma ManRoutingCorrect(d: Definition, ips: map<nat, nat>, owners: map<string, string>, a: nat, network: string)
    returns (router: string, gateway: nat)
    requires Validators.AcceptedTopology(d) && Unreserved(d) && Owners(d.routerMappings, owners) && Enriched(d, ips)
    requires network in NetworkNames(d.networks) && NetworkOf(d, network).cidr.Contains(a)
    requires exists m :: m in d.routerMappings && m.network == network
    ensures Least(d.routerMappings, network, router) && WanAddress(d, ips, router, gateway)
    ensures Matching(Routes(d, ips, owners, |d.routers|), a)
            == Repeat(Route(NetworkOf(d, network).cidr, gateway), Count(d.routerMappings, router, network))
    ensures DistinctMappings(d.routerMappings) ==>
              Matching(Routes(d, ips, owners, |d.routers|), a) == [Route(NetworkOf(d, network).cidr, gateway)]
  {
    AcceptedSeparate(d);
    AddressIn(d, a, network);
    var i := RoutesTo(d, ips, owners, a, network);
    GatewayAddress(d, ips, i);
    router, gateway := d.routers[i].name, Gateway(d, ips, i);
  }

  /** Every route is to a network that has a router mapping, through the address of the router that serves it. */
  lemma NoStrayRoute(d: Definition, ips: map<nat, nat>, owners: map<string, string>, r: Route) returns (m: Mapping)
    requires Separate(d) && Owners(d.routerMappings, owners) && Enriched(d, ips)
    requires r in Routes(d, ips, owners, |d.routers|)
    ensures m in d.routerMappings && Least(d.routerMappings, m.network, m.node)
    ensures r.net == NetworkOf(d, m.network).cidr && WanAddress(d, ips, m.node, r.gateway)
  {
    var i;
    m, i := RouteOf(d, ips, owners, |d.routers|, r);
    GatewayAddress(d, ips, i);
  }

  lemma {:induction false} RouteOf(d: Definition, ips: map<nat, nat>, owners: map<string, string>, n: nat, r: Route)
    returns (m: Mapping, i: nat)
    requires n <= |d.routers| && Separate(d) && Owners(d.routerMappings, owners) && r in Routes(d, ips, owners, n)
    ensures m in d.routerMappings && i < n && d.routers[i].name == m.node == owners[m.network]
    ensures r == Route(NetworkOf(d, m.network).cidr, Gateway(d, ips, i))
  {
    if n > 0 {
      RoutesNext(d, ips, owners, n - 1);
    }
    if n > 0 && r in Routes(d, ips, owners, n - 1) {
      m, i := RouteOf(d, ips, owners, n - 1, r);
    } else {
      i := n - 1;
      m := NoStrayVia(d, owners, MappingsOf(d.routerMappings, d.routers[i].name), Gateway(d, ips, i), r);
      MappingsOfIn(d.routerMappings, d.routers[i].name);
    }
  }

  lemma {:induction false} NoStrayVia(d: Definition, owners: map<string, string>, ms: seq<Mapping>, gateway: nat,
                                      r: Route)
    returns (m: Mapping)
    requires r in RoutesVia(d, owners, ms, gateway)
    ensures m in ms && m.network in owners && owners[m.network] == m.node
    ensures r == Route(NetworkOf(d, m.network).cidr, gateway)
  {
    var init := ms[..|ms| - 1];
    if r in RoutesVia(d, owners, init, gateway) {
      m := NoStrayVia(d, owners, init, gateway, r);
    } else {
      m := ms[|ms| - 1];
    }
  }
}

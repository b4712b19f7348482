/** What the link indexes hold for user networks and for routers. */
module LinkQueries {
  import opened Wrappers
  import opened TopologyModel
  import opened TopologyInstances
  import Validators

  /** The names of an accepted definition that stays clear of the reserved names. */
  ghost predicate Separate(d: Definition) {
    && Known(d) && Unreserved(d)
    && d.wan.name !in NetworkNames(d.networks)
    && (forall i :: 0 <= i < |d.routers| ==> d.routers[i].name !in HostNames(d))
    && Distinct(RouterNames(d)) && Distinct(HostNames(d)) && Distinct(NetworkNames(d.networks))
  }

  lemma AcceptedSeparate(d: Definition)
    requires Validators.AcceptedTopology(d) && Unreserved(d)
    ensures Separate(d)
  {
    var all, h, r, n := Validators.AllNames(d), |d.hosts|, |d.routers|, |d.networks|;
    Validators.NamesApart(d);
    forall i | 0 <= i < r ensures d.routers[i].name !in HostNames(d) {
      assert all[1 + h + i] == d.routers[i].name;
      assert forall j :: 0 <= j < h ==> all[1 + j] == HostNames(d)[j];
    }
    assert all[1 + h + r + n] == d.wan.name;
    assert forall j :: 0 <= j < n ==> all[1 + h + r + j] == NetworkNames(d.networks)[j];
  }

  /** The number of the first link of a router. */
  function FirstRouterLink(d: Definition): nat { 3 + |d.hosts| + |d.netMappings| }

  function HostPorts(d: Definition): seq<Link> { MappingLinks(3 + |d.hosts|, d.netMappings) }
  function RouterPorts(d: Definition): seq<Link> {
    MappingLinks(FirstRouterLink(d) + 2 * |d.routers|, d.routerMappings)
  }
  function OwnLinks(d: Definition): seq<Link> { RouterLinks(FirstRouterLink(d), d, |d.routers|) }

  /** The network of that name: a user network, or else the WAN. */
  function NetworkOf(d: Definition, name: string): Network {
    var index := IndexOf(d.networks, NetworkName);
    if name in index then index[name] else d.wan
  }

  lemma FindNetwork(d: Definition, name: string) returns (i: nat)
    requires name in NetworkNames(d.networks)
    ensures i < |d.networks| && d.networks[i].name == name && NetworkOf(d, name) == d.networks[i]
  {
    var j :| 0 <= j < |d.networks| && NetworkNames(d.networks)[j] == name;
    assert NetworkName(d.networks[j]) == name;
    IndexFinds(d.networks, NetworkName, name);
    i :| 0 <= i < |d.networks| && NetworkName(d.networks[i]) == name
        && IndexOf(d.networks, NetworkName)[name] == d.networks[i];
  }

  // ---------------------------------------------------------------- on a user network

  lemma ScanMapped(a: seq<Link>, n: seq<Link>, r: seq<Link>, m: seq<Link>, network: string)
    requires NoneOn(a, network) && NoneOn(r, network)
    ensures AtNetwork((a + n) + (r + m), network) == AtNetwork(n, network) + AtNetwork(m, network)
  {
    AtNetworkSplit(a + n, r + m, network);
    ScanAfter(a, n, network);
    ScanAfter(r, m, network);
  }

  lemma ScanAfter(a: seq<Link>, b: seq<Link>, network: string)
    requires NoneOn(a, network)
    ensures AtNetwork(a + b, network) == AtNetwork(b, network)
  {
    AtNetworkSplit(a, b, network);
    AtNetworkUniform(a, network);
  }

  lemma NotByMapping(d: Definition, network: string)
    requires Separate(d) && network in NetworkNames(d.networks)
    ensures NoneOn(ManLinks(d) + HostLinks(d, |d.hosts|), network) && NoneOn(OwnLinks(d), network)
  {
    RouterLinkFacts(FirstRouterLink(d), d, |d.routers|);
  }

  lemma LinksSplit(d: Definition)
    ensures LinksOf(d) == ((ManLinks(d) + HostLinks(d, |d.hosts|)) + HostPorts(d)) + (OwnLinks(d) + RouterPorts(d))
  {
  }

  /** On a user network are the links of its mappings: the hosts', then the routers'. */
  lemma AtUserNetwork(d: Definition, network: string)
    requires Separate(d) && network in NetworkNames(d.networks)
    ensures AtNetwork(LinksOf(d), network) == AtNetwork(HostPorts(d), network) + AtNetwork(RouterPorts(d), network)
  {
    LinksSplit(d);
    NotByMapping(d, network);
    ScanMapped(ManLinks(d) + HostLinks(d, |d.hosts|), HostPorts(d), OwnLinks(d), RouterPorts(d), network);
  }

  // ---------------------------------------------------------------- at a router

  lemma NodeAfter(a: seq<Link>, b: seq<Link>, node: string)
    requires NoneAt(a, node)
    ensures AtNode(a + b, node) == AtNode(b, node)
  {
    AtNodeSplit(a, b, node);
    AtNodeUniform(a, node);
  }

  lemma HostsApart(d: Definition, name: string)
    requires Separate(d) && name !in HostNames(d) && name != MAN
    ensures NoneAt(ManLinks(d), name) && NoneAt(HostLinks(d, |d.hosts|), name) && NoneAt(HostPorts(d), name)
  {
    forall j | 0 <= j < |d.hosts| ensures d.hosts[j].name != name { assert HostNames(d)[j] in HostNames(d); }
    forall j | 0 <= j < |d.netMappings| ensures d.netMappings[j].node != name {
      assert d.netMappings[j].node in HostNames(d);
    }
  }

  lemma NotAtHost(d: Definition, i: nat)
    requires Separate(d) && i < |d.routers|
    ensures NoneAt((ManLinks(d) + HostLinks(d, |d.hosts|)) + HostPorts(d), d.routers[i].name)
  {
    var name := d.routers[i].name;
    assert RouterNames(d)[i] == name;
    HostsApart(d, name);
    NoneAtJoin(ManLinks(d), HostLinks(d, |d.hosts|), name);
    NoneAtJoin(ManLinks(d) + HostLinks(d, |d.hosts|), HostPorts(d), name);
  }

  /** The two links every router has. */
  function OwnPair(d: Definition, i: nat): seq<Link>
    requires i < |d.routers|
  {
    [Nth(FirstRouterLink(d) + 2 * i, d.routers[i].name, MAN_NET, None)] + [WanLink(d, i)]
  }

  function WanLink(d: Definition, i: nat): Link
    requires i < |d.routers|
  {
    Nth(FirstRouterLink(d) + 2 * i + 1, d.routers[i].name, d.wan.name, None)
  }

  ghost predicate OnlyRouter(d: Definition, i: nat) {
    i < |d.routers| && forall j :: 0 <= j < |d.routers| ==> (d.routers[j].name == d.routers[i].name <==> j == i)
  }

  lemma RouterNamesApart(d: Definition, i: nat)
    requires Distinct(RouterNames(d)) && i < |d.routers|
    ensures OnlyRouter(d, i)
  {
    forall j | 0 <= j < |d.routers| && d.routers[j].name == d.routers[i].name ensures j == i {
      assert RouterNames(d)[j] == RouterNames(d)[i];
    }
  }

  lemma OtherRouter(d: Definition, i: nat, j: nat)
    requires OnlyRouter(d, i) && j < 2 * |d.routers| && j != 2 * i && j != 2 * i + 1
    ensures OwnLinks(d)[j].node != d.routers[i].name
  {
    RouterLinkAt(FirstRouterLink(d), d, |d.routers|, j / 2);
    assert j == 2 * (j / 2) || j == 2 * (j / 2) + 1;
  }

  lemma MiddleAt(a: seq<Link>, x: Link, y: Link, b: seq<Link>, node: string)
    requires NoneAt(a, node) && NoneAt(b, node) && x.node == node && y.node == node
    ensures AtNode(a + ([x] + [y]) + b, node) == [x] + [y]
  {
    SkipNode(a + ([x] + [y]), b, node);
    NodeAfter(a, [x] + [y], node);
    assert ([x] + [y])[..1] == [x] && [x][..0] == [];
    assert AtNode([x], node) == [x];
  }

  lemma OwnLinksAt(d: Definition, i: nat)
    requires OnlyRouter(d, i)
    ensures AtNode(OwnLinks(d), d.routers[i].name) == OwnPair(d, i)
  {
    var links := OwnLinks(d);
    var a, b := links[..2 * i], links[2 * i + 2..];
    forall j | 0 <= j < |a| ensures a[j].node != d.routers[i].name { OtherRouter(d, i, j); }
    forall j | 0 <= j < |b| ensures b[j].node != d.routers[i].name { OtherRouter(d, i, 2 * i + 2 + j); }
    RouterLinkAt(FirstRouterLink(d), d, |d.routers|, i);
    assert links == a + OwnPair(d, i) + b;
    MiddleAt(a, OwnPair(d, i)[0], WanLink(d, i), b, d.routers[i].name);
  }

  /** A router has its link to the management network, its link to the WAN, then those of its mappings. */
  lemma AtRouter(d: Definition, i: nat)
    requires Separate(d) && i < |d.routers|
    ensures AtNode(LinksOf(d), d.routers[i].name) == OwnPair(d, i) + AtNode(RouterPorts(d), d.routers[i].name)
  {
    LinksSplit(d);
    NotAtHost(d, i);
    NodeAfter((ManLinks(d) + HostLinks(d, |d.hosts|)) + HostPorts(d), OwnLinks(d) + RouterPorts(d), d.routers[i].name);
    AtNodeSplit(OwnLinks(d), RouterPorts(d), d.routers[i].name);
    RouterNamesApart(d, i);
    OwnLinksAt(d, i);
  }

  // ---------------------------------------------------------------- filters

  lemma {:induction false} OnNetworksSplit(a: seq<Link>, b: seq<Link>, networks: seq<string>)
    ensures OnNetworks(a + b, networks) == OnNetworks(a, networks) + OnNetworks(b, networks)
  {
    if b == [] {
      assert a + b == a;
    } else {
      assert (a + b)[..|a + b| - 1] == a + b[..|b| - 1];
      OnNetworksSplit(a, b[..|b| - 1], networks);
    }
  }

  lemma {:induction false} AtNodesSplit(a: seq<Link>, b: seq<Link>, nodes: set<string>)
    ensures AtNodes(a + b, nodes) == AtNodes(a, nodes) + AtNodes(b, nodes)
  {
    if b == [] {
      assert a + b == a;
    } else {
      assert (a + b)[..|a + b| - 1] == a + b[..|b| - 1];
      AtNodesSplit(a, b[..|b| - 1], nodes);
    }
  }

  lemma PairOnNetworks(x: Link, y: Link, networks: seq<string>)
    ensures OnNetworks([x] + [y], networks)
            == (if x.network in networks then [x] else []) + (if y.network in networks then [y] else [])
  {
    assert ([x] + [y])[..1] == [x] && [x][..0] == [];
    assert OnNetworks([x], networks) == if x.network in networks then [x] else [];
  }

  /** Scan results are links of the list. */
  lemma {:induction false} AtNodeIn(links: seq<Link>, node: string, i: nat)
    requires i < |AtNode(links, node)|
    ensures AtNode(links, node)[i] in links && AtNode(links, node)[i].node == node
  {
    var init := links[..|links| - 1];
    if i < |AtNode(init, node)| {
      AtNodeIn(init, node, i);
    }
  }

  lemma {:induction false} KeepAll(links: seq<Link>, networks: seq<string>)
    requires forall i :: 0 <= i < |links| ==> links[i].network in networks
    ensures OnNetworks(links, networks) == links
  {
    if links != [] {
      KeepAll(links[..|links| - 1], networks);
      assert links == links[..|links| - 1] + [links[|links| - 1]];
    }
  }

  lemma {:induction false} KeepNone(links: seq<Link>, networks: seq<string>)
    requires forall i :: 0 <= i < |links| ==> links[i].network !in networks
    ensures OnNetworks(links, networks) == []
  {
    if links != [] {
      KeepNone(links[..|links| - 1], networks);
    }
  }

  lemma PortsMapped(d: Definition, node: string)
    requires Separate(d)
    ensures forall i :: 0 <= i < |AtNode(RouterPorts(d), node)| ==>
              AtNode(RouterPorts(d), node)[i].network in NetworkNames(d.networks)
  {
    forall i | 0 <= i < |AtNode(RouterPorts(d), node)|
      ensures AtNode(RouterPorts(d), node)[i].network in NetworkNames(d.networks)
    {
      AtNodeIn(RouterPorts(d), node, i);
      assert forall l :: l in RouterPorts(d) ==> l.network in NetworkNames(d.networks);
    }
  }

  /** A router's links to user networks are those of its mappings. */
  lemma RouterUserLinks(d: Definition, i: nat)
    requires Separate(d) && i < |d.routers|
    ensures OnNetworks(AtNode(LinksOf(d), d.routers[i].name), NetworkNames(d.networks)) ==
              AtNode(RouterPorts(d), d.routers[i].name)
  {
    var ports := AtNode(RouterPorts(d), d.routers[i].name);
    AtRouter(d, i);
    OnNetworksSplit(OwnPair(d, i), ports, NetworkNames(d.networks));
    PairOnNetworks(OwnPair(d, i)[0], WanLink(d, i), NetworkNames(d.networks));
    PortsMapped(d, d.routers[i].name);
    KeepAll(ports, NetworkNames(d.networks));
  }

  /** A router has exactly one link to the WAN. */
  lemma RouterWanLink(d: Definition, i: nat)
    requires Separate(d) && i < |d.routers|
    ensures OnNetworks(AtNode(LinksOf(d), d.routers[i].name), [d.wan.name]) == [WanLink(d, i)]
  {
    var ports := AtNode(RouterPorts(d), d.routers[i].name);
    AtRouter(d, i);
    OnNetworksSplit(OwnPair(d, i), ports, [d.wan.name]);
    PairOnNetworks(OwnPair(d, i)[0], WanLink(d, i), [d.wan.name]);
    PortsMapped(d, d.routers[i].name);
    KeepNone(ports, [d.wan.name]);
  }

  // ---------------------------------------------------------------- links of mappings

  /** The mappings of a node, in order. */
  function MappingsOf(ms: seq<Mapping>, node: string): seq<Mapping> {
    if ms == [] then [] else
    var last := ms[|ms| - 1];
    MappingsOf(ms[..|ms| - 1], node) + (if last.node == node then [last] else [])
  }

  /** The mappings of the given nodes to a network, in order. */
  function MappingsOn(ms: seq<Mapping>, network: string, nodes: set<string>): seq<Mapping> {
    if ms == [] then [] else
    var last := ms[|ms| - 1];
    MappingsOn(ms[..|ms| - 1], network, nodes) + (if last.network == network && last.node in nodes then [last] else [])
  }

  /** The links are those of the mappings, one by one. */
  ghost predicate Same(links: seq<Link>, ms: seq<Mapping>) {
    && |links| == |ms|
    && forall i :: 0 <= i < |ms| ==>
         links[i].node == ms[i].node && links[i].network == ms[i].network && links[i].ip == Some(ms[i].ip)
  }

  function PortOf(k: nat, m: Mapping): Link { Nth(k, m.node, m.network, Some(m.ip)) }

  lemma PortsNext(k: nat, ms: seq<Mapping>)
    requires ms != []
    ensures MappingLinks(k, ms) == MappingLinks(k, ms[..|ms| - 1]) + [PortOf(k + |ms| - 1, ms[|ms| - 1])]
  {
  }

  lemma AtNodeNext(links: seq<Link>, l: Link, node: string)
    ensures AtNode(links + [l], node) == AtNode(links, node) + if l.node == node then [l] else []
  {
    assert (links + [l])[..|links|] == links;
  }

  lemma AtNetworkNext(links: seq<Link>, l: Link, network: string)
    ensures AtNetwork(links + [l], network) == AtNetwork(links, network) + if l.network == network then [l] else []
  {
    assert (links + [l])[..|links|] == links;
  }

  lemma AtNodesNext(links: seq<Link>, l: Link, nodes: set<string>)
    ensures AtNodes(links + [l], nodes) == AtNodes(links, nodes) + if l.node in nodes then [l] else []
  {
    assert (links + [l])[..|links|] == links;
  }

  lemma {:induction false} PortsAt(k: nat, ms: seq<Mapping>, node: string)
    ensures Same(AtNode(MappingLinks(k, ms), node), MappingsOf(ms, node))
  {
    if ms == [] {
      assert MappingLinks(k, ms) == [];
    } else {
      PortsAt(k, ms[..|ms| - 1], node);
      PortsNext(k, ms);
      AtNodeNext(MappingLinks(k, ms[..|ms| - 1]), PortOf(k + |ms| - 1, ms[|ms| - 1]), node);
    }
  }

  lemma PortsOnNext(k: nat, ms: seq<Mapping>, network: string, nodes: set<string>)
    requires ms != []
    ensures var l := PortOf(k + |ms| - 1, ms[|ms| - 1]);
            AtNodes(AtNetwork(MappingLinks(k, ms), network), nodes)
            == AtNodes(AtNetwork(MappingLinks(k, ms[..|ms| - 1]), network), nodes)
               + if l.network == network && l.node in nodes then [l] else []
  {
    var l, init := PortOf(k + |ms| - 1, ms[|ms| - 1]), MappingLinks(k, ms[..|ms| - 1]);
    PortsNext(k, ms);
    AtNetworkNext(init, l, network);
    if l.network == network {
      AtNodesNext(AtNetwork(init, network), l, nodes);
    } else {
      assert AtNetwork(init + [l], network) == AtNetwork(init, network);
    }
  }

  lemma {:induction false} PortsOn(k: nat, ms: seq<Mapping>, network: string, nodes: set<string>)
    ensures Same(AtNodes(AtNetwork(MappingLinks(k, ms), network), nodes), MappingsOn(ms, network, nodes))
  {
    if ms == [] {
      assert MappingLinks(k, ms) == [];
    } else {
      PortsOn(k, ms[..|ms| - 1], network, nodes);
      PortsOnNext(k, ms, network, nodes);
    }
  }

  lemma {:induction false} NoNodes(links: seq<Link>, nodes: set<string>)
    requires forall i :: 0 <= i < |links| ==> links[i].node !in nodes
    ensures AtNodes(links, nodes) == []
  {
    if links != [] {
      NoNodes(links[..|links| - 1], nodes);
    }
  }

  lemma {:induction false} AtNetworkIn(links: seq<Link>, network: string, i: nat)
    requires i < |AtNetwork(links, network)|
    ensures AtNetwork(links, network)[i] in links && AtNetwork(links, network)[i].network == network
  {
    var init := links[..|links| - 1];
    if i < |AtNetwork(init, network)| {
      AtNetworkIn(init, network, i);
    }
  }

  lemma RoutersNotHosts(d: Definition, network: string, nodes: set<string>)
    requires Separate(d) && forall n :: n in nodes ==> n in HostNames(d)
    ensures AtNodes(AtNetwork(RouterPorts(d), network), nodes) == []
  {
    var ports := AtNetwork(RouterPorts(d), network);
    forall i | 0 <= i < |ports| ensures ports[i].node !in nodes {
      AtNetworkIn(RouterPorts(d), network, i);
      RouterPortNode(d, ports[i]);
    }
    NoNodes(ports, nodes);
  }

  lemma RouterPortNode(d: Definition, l: Link)
    requires Separate(d) && l in RouterPorts(d)
    ensures l.node !in HostNames(d)
  {
    var j :| 0 <= j < |RouterPorts(d)| && RouterPorts(d)[j] == l;
    assert d.routerMappings[j].node in RouterNames(d);
    NotHostName(d, l.node);
  }

  /** The links of the given hosts to a user network are those of their mappings. */
  lemma HostsOnNetwork(d: Definition, network: string, nodes: set<string>)
    requires Separate(d) && network in NetworkNames(d.networks) && forall n :: n in nodes ==> n in HostNames(d)
    ensures Same(AtNodes(AtNetwork(LinksOf(d), network), nodes), MappingsOn(d.netMappings, network, nodes))
  {
    AtUserNetwork(d, network);
    AtNodesSplit(AtNetwork(HostPorts(d), network), AtNetwork(RouterPorts(d), network), nodes);
    RoutersNotHosts(d, network, nodes);
    PortsOn(3 + |d.hosts|, d.netMappings, network, nodes);
  }

  /** The links of a router to user networks are those of its mappings. */
  lemma RouterLinksMapped(d: Definition, i: nat)
    requires Separate(d) && i < |d.routers|
    ensures Same(OnNetworks(AtNode(LinksOf(d), d.routers[i].name), NetworkNames(d.networks)),
                 MappingsOf(d.routerMappings, d.routers[i].name))
  {
    RouterUserLinks(d, i);
    PortsAt(FirstRouterLink(d) + 2 * |d.routers|, d.routerMappings, d.routers[i].name);
  }

  /** No host has a link to the WAN. */
  lemma NoHostsOnWan(d: Definition, nodes: set<string>)
    requires Separate(d) && forall n :: n in nodes ==> n in HostNames(d)
    ensures AtNodes(AtNetwork(LinksOf(d), d.wan.name), nodes) == []
  {
    var found := AtNetwork(LinksOf(d), d.wan.name);
    LinksSplit(d);
    HostSideForeign(d);
    RouterSideForeign(d);
    forall i | 0 <= i < |found| ensures found[i].node !in nodes {
      AtNetworkIn(LinksOf(d), d.wan.name, i);
    }
    NoNodes(found, nodes);
  }

  ghost predicate Foreign(d: Definition, links: seq<Link>) {
    forall i :: 0 <= i < |links| ==> links[i].network != d.wan.name || links[i].node !in HostNames(d)
  }

  lemma HostSideForeign(d: Definition)
    requires Separate(d)
    ensures Foreign(d, (ManLinks(d) + HostLinks(d, |d.hosts|)) + HostPorts(d))
  {
    assert Foreign(d, ManLinks(d)) && Foreign(d, HostLinks(d, |d.hosts|)) && Foreign(d, HostPorts(d));
  }

  lemma RouterSideForeign(d: Definition)
    requires Separate(d)
    ensures Foreign(d, OwnLinks(d) + RouterPorts(d))
  {
    RouterLinkFacts(FirstRouterLink(d), d, |d.routers|);
    forall i | 0 <= i < |OwnLinks(d)| ensures OwnLinks(d)[i].node !in HostNames(d) {
      NotHostName(d, OwnLinks(d)[i].node);
    }
    assert Foreign(d, RouterPorts(d));
  }

  lemma NotHostName(d: Definition, name: string)
    requires Separate(d) && name in RouterNames(d)
    ensures name !in HostNames(d)
  {
    var i :| 0 <= i < |d.routers| && RouterNames(d)[i] == name;
    assert d.routers[i].name == name;
  }

  lemma {:induction false} MappingsOfIn(ms: seq<Mapping>, node: string)
    ensures forall i :: 0 <= i < |MappingsOf(ms, node)| ==>
              MappingsOf(ms, node)[i] in ms && MappingsOf(ms, node)[i].node == node
    ensures forall m :: m in ms && m.node == node ==> m in MappingsOf(ms, node)
  {
    if ms != [] {
      MappingsOfIn(ms[..|ms| - 1], node);
      assert ms == ms[..|ms| - 1] + [ms[|ms| - 1]];
    }
  }

  lemma {:induction false} MappingsOnIn(ms: seq<Mapping>, network: string, nodes: set<string>)
    ensures forall m :: m in MappingsOn(ms, network, nodes) <==> m in ms && m.network == network && m.node in nodes
  {
    if ms != [] {
      MappingsOnIn(ms[..|ms| - 1], network, nodes);
      assert ms == ms[..|ms| - 1] + [ms[|ms| - 1]];
    }
  }

  /** Two sets of nodes that agree on the mapped nodes of a network select the same mappings. */
  lemma {:induction false} MappingsOnAgree(ms: seq<Mapping>, network: string, a: set<string>, b: set<string>)
    requires forall i :: 0 <= i < |ms| && ms[i].network == network ==> (ms[i].node in a <==> ms[i].node in b)
    ensures MappingsOn(ms, network, a) == MappingsOn(ms, network, b)
  {
    if ms != [] {
      MappingsOnAgree(ms[..|ms| - 1], network, a, b);
    }
  }
}

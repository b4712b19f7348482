/** Links of a topology instance, the indexes over them, and the link pairs from the management node. */
module TopologyInstances {
  import opened Wrappers
  import opened TopologyModel
  import opened Names
  import Validators

  const MAN := "man"
  const MAN_NET := "man-network"

  /** A link, with the number that its name carries. */
  datatype Link = Link(number: nat, node: string, network: string, ip: Option<nat>) {

    /** The key under which the dictionary of links holds it. */
    function Name(): string { "link-" + Dec(number) }
  }

  datatype LinkPair = LinkPair(first: Link, second: Link)

  // ---------------------------------------------------------------- the links, in creation order

  /** The `k`-th link created. */
  function Nth(k: nat, node: string, network: string, ip: Option<nat>): Link {
    Link(k, node, network, ip)
  }

  function ManLinks(d: Definition): seq<Link> {
    [Nth(1, MAN, MAN_NET, None), Nth(2, MAN, d.wan.name, None)]
  }

  function HostLinks(d: Definition, n: nat): seq<Link>
    requires n <= |d.hosts|
  {
    seq(n, i requires 0 <= i < n => Nth(3 + i, d.hosts[i].name, MAN_NET, None))
  }

  /** Links for mappings, numbered from `k`. */
  function MappingLinks(k: nat, ms: seq<Mapping>): seq<Link> {
    seq(|ms|, i requires 0 <= i < |ms| => Nth(k + i, ms[i].node, ms[i].network, Some(ms[i].ip)))
  }

  /** Each router is linked to the management network and to the WAN. */
  function RouterLinks(k: nat, d: Definition, n: nat): (links: seq<Link>)
    requires n <= |d.routers|
    ensures |links| == 2 * n
  {
    if n == 0 then [] else
    RouterLinks(k, d, n - 1)
    + [Nth(k + 2 * (n - 1), d.routers[n - 1].name, MAN_NET, None)]
    + [Nth(k + 2 * (n - 1) + 1, d.routers[n - 1].name, d.wan.name, None)]
  }

  function HostPart(d: Definition): seq<Link> {
    ManLinks(d) + HostLinks(d, |d.hosts|) + MappingLinks(3 + |d.hosts|, d.netMappings)
  }

  function RouterPart(d: Definition): seq<Link> {
    var k := 3 + |d.hosts| + |d.netMappings|;
    RouterLinks(k, d, |d.routers|) + MappingLinks(k + 2 * |d.routers|, d.routerMappings)
  }

  function LinksOf(d: Definition): seq<Link> {
    HostPart(d) + RouterPart(d)
  }

  ghost predicate Numbered(links: seq<Link>, k: nat) {
    forall i :: 0 <= i < |links| ==> links[i].number == k + i
  }

  lemma NumberedJoin(a: seq<Link>, b: seq<Link>, k: nat)
    requires Numbered(a, k) && Numbered(b, k + |a|)
    ensures Numbered(a + b, k)
  {
    forall i | 0 <= i < |a + b| ensures (a + b)[i].number == k + i {
      if i >= |a| { assert (a + b)[i] == b[i - |a|]; }
    }
  }

  lemma {:induction false} RouterLinkFacts(k: nat, d: Definition, n: nat)
    requires n <= |d.routers|
    ensures Numbered(RouterLinks(k, d, n), k)
    ensures forall j :: 0 <= j < 2 * n ==>
              && RouterLinks(k, d, n)[j].node in RouterNames(d)
              && (RouterLinks(k, d, n)[j].network == MAN_NET || RouterLinks(k, d, n)[j].network == d.wan.name)
  {
    if n > 0 {
      RouterLinkFacts(k, d, n - 1);
      assert RouterNames(d)[n - 1] in RouterNames(d);
    }
  }

  lemma PartsNumbered(d: Definition, k: nat, ms: seq<Mapping>)
    ensures Numbered(ManLinks(d), 1) && Numbered(HostLinks(d, |d.hosts|), 3)
    ensures Numbered(MappingLinks(k, ms), k) && Numbered(RouterLinks(k, d, |d.routers|), k)
  {
    RouterLinkFacts(k, d, |d.routers|);
  }

  lemma HostPartNumbered(d: Definition)
    ensures Numbered(HostPart(d), 1)
  {
    var hosts, mappings := HostLinks(d, |d.hosts|), MappingLinks(3 + |d.hosts|, d.netMappings);
    PartsNumbered(d, 3 + |d.hosts|, d.netMappings);
    NumberedJoin(ManLinks(d), hosts, 1);
    NumberedJoin(ManLinks(d) + hosts, mappings, 1);
  }

  lemma RouterPartNumbered(d: Definition)
    ensures Numbered(RouterPart(d), 3 + |d.hosts| + |d.netMappings|)
  {
    var k := 3 + |d.hosts| + |d.netMappings|;
    PartsNumbered(d, k, d.routerMappings);
    PartsNumbered(d, k + 2 * |d.routers|, d.routerMappings);
    NumberedJoin(RouterLinks(k, d, |d.routers|), MappingLinks(k + 2 * |d.routers|, d.routerMappings), k);
  }

  lemma LinksNumbered(d: Definition)
    ensures Numbered(LinksOf(d), 1)
  {
    HostPartNumbered(d);
    RouterPartNumbered(d);
    NumberedJoin(HostPart(d), RouterPart(d), 1);
  }

  /** There are two links of the management node, one per host and net mapping, two per router, one per
      router mapping; they are numbered in creation order, so no dictionary key is used twice. */
  lemma LinkCount(d: Definition)
    ensures |LinksOf(d)| == 2 + |d.hosts| + |d.netMappings| + 2 * |d.routers| + |d.routerMappings|
    ensures Numbered(LinksOf(d), 1)
    ensures forall i, j :: 0 <= i < j < |LinksOf(d)| ==> LinksOf(d)[i].Name() != LinksOf(d)[j].Name()
  {
    LinksNumbered(d);
    NumberedDistinct(LinksOf(d));
  }

  lemma {:induction false} RouterLinkPositions(k: nat, d: Definition, n: nat, i: nat)
    requires i < n <= |d.routers|
    ensures RouterLinks(k, d, n)[2 * i] == Link(k + 2 * i, d.routers[i].name, "man-network", None)
    ensures RouterLinks(k, d, n)[2 * i + 1] == Link(k + 2 * i + 1, d.routers[i].name, d.wan.name, None)
  {
    if i < n - 1 { RouterLinkPositions(k, d, n - 1, i); }
  }

  lemma HostPositions(d: Definition)
    ensures var h, links := |d.hosts|, HostPart(d);
            && |links| == 2 + h + |d.netMappings|
            && links[0] == Link(1, "man", "man-network", None) && links[1] == Link(2, "man", d.wan.name, None)
            && (forall i :: 0 <= i < h ==> links[2 + i] == Link(3 + i, d.hosts[i].name, "man-network", None))
            && forall i :: 0 <= i < |d.netMappings| ==>
                 links[2 + h + i]
                 == Link(3 + h + i, d.netMappings[i].node, d.netMappings[i].network, Some(d.netMappings[i].ip))
  {
  }

  lemma RouterPositions(d: Definition)
    ensures var k, r, links := 2 + |d.hosts| + |d.netMappings|, |d.routers|, RouterPart(d);
            && |links| == 2 * r + |d.routerMappings|
            && (forall i :: 0 <= i < r ==>
                  links[2 * i] == Link(k + 2 * i + 1, d.routers[i].name, "man-network", None)
                  && links[2 * i + 1] == Link(k + 2 * i + 2, d.routers[i].name, d.wan.name, None))
            && forall i :: 0 <= i < |d.routerMappings| ==>
                 links[2 * r + i] == Link(k + 2 * r + i + 1, d.routerMappings[i].node, d.routerMappings[i].network,
                                          Some(d.routerMappings[i].ip))
  {
    forall i | 0 <= i < |d.routers|
      ensures RouterPart(d)[2 * i]
              == Link(3 + |d.hosts| + |d.netMappings| + 2 * i, d.routers[i].name, "man-network", None)
      ensures RouterPart(d)[2 * i + 1]
              == Link(3 + |d.hosts| + |d.netMappings| + 2 * i + 1, d.routers[i].name, d.wan.name, None)
    {
      RouterLinkPositions(3 + |d.hosts| + |d.netMappings|, d, |d.routers|, i);
    }
  }

  /** The link at position `i` in the order of creation: those of the management node, one per host, one per network
      mapping with its address, two per router, one per router mapping with its address. */
  ghost predicate Created(d: Definition, i: nat, l: Link) {
    var h, n, r := 2 + |d.hosts|, 2 + |d.hosts| + |d.netMappings|, 2 + |d.hosts| + |d.netMappings| + 2 * |d.routers|;
    && l.number == i + 1
    && (i == 0 ==> l.node == "man" && l.network == "man-network" && l.ip == None)
    && (i == 1 ==> l.node == "man" && l.network == d.wan.name && l.ip == None)
    && (2 <= i < h ==> l.node == d.hosts[i - 2].name && l.network == "man-network" && l.ip == None)
    && (h <= i < n ==> var m := d.netMappings[i - h]; l.node == m.node && l.network == m.network && l.ip == Some(m.ip))
    && (n <= i < r ==> l.node == d.routers[(i - n) / 2].name && l.ip == None
                       && l.network == if (i - n) % 2 == 0 then "man-network" else d.wan.name)
    && (r <= i < r + |d.routerMappings| ==>
          var m := d.routerMappings[i - r]; l.node == m.node && l.network == m.network && l.ip == Some(m.ip))
  }

  lemma OwnPairPositions(d: Definition, i: nat)
    requires |HostPart(d)| <= i < |HostPart(d)| + 2 * |d.routers|
    ensures Created(d, i, LinksOf(d)[i])
  {
    var j := (i - |HostPart(d)|) / 2;
    RouterPositions(d);
    HostPositions(d);
    assert LinksOf(d)[i] == RouterPart(d)[i - |HostPart(d)|];
    if (i - |HostPart(d)|) % 2 == 0 {
      assert LinksOf(d)[i] == RouterPart(d)[2 * j];
    } else {
      assert LinksOf(d)[i] == RouterPart(d)[2 * j + 1];
    }
  }

  lemma LinkPositions(d: Definition, i: nat)
    requires i < |LinksOf(d)|
    ensures Created(d, i, LinksOf(d)[i])
  {
    HostPositions(d);
    var n := |HostPart(d)|;
    if n <= i < n + 2 * |d.routers| {
      OwnPairPositions(d, i);
    } else if i >= n {
      RouterPositions(d);
      assert LinksOf(d)[i] == RouterPart(d)[i - n];
    }
  }

  lemma NumberedDistinct(links: seq<Link>)
    requires Numbered(links, 1)
    ensures forall i, j :: 0 <= i < j < |links| ==> links[i].Name() != links[j].Name()
  {
    forall i, j | 0 <= i < j < |links| ensures links[i].Name() != links[j].Name() {
      NameDistinct(links[i], links[j]);
    }
  }

  lemma NameDistinct(l: Link, m: Link)
    requires l.number != m.number
    ensures l.Name() != m.Name()
  {
    DecValue(l.number);
    DecValue(m.number);
    assert l.Name()[5..] == Dec(l.number) && m.Name()[5..] == Dec(m.number);
  }

  // ---------------------------------------------------------------- scans

  function AtNode(links: seq<Link>, node: string): seq<Link> {
    if links == [] then [] else
    var last := links[|links| - 1];
    AtNode(links[..|links| - 1], node) + (if last.node == node then [last] else [])
  }

  function AtNetwork(links: seq<Link>, network: string): seq<Link> {
    if links == [] then [] else
    var last := links[|links| - 1];
    AtNetwork(links[..|links| - 1], network) + (if last.network == network then [last] else [])
  }

  /** The links whose network is one of the given ones. */
  function OnNetworks(links: seq<Link>, networks: seq<string>): seq<Link> {
    if links == [] then [] else
    var last := links[|links| - 1];
    OnNetworks(links[..|links| - 1], networks) + (if last.network in networks then [last] else [])
  }

  /** The links whose node is one of the given ones. */
  function AtNodes(links: seq<Link>, nodes: set<string>): seq<Link> {
    if links == [] then [] else
    var last := links[|links| - 1];
    AtNodes(links[..|links| - 1], nodes) + (if last.node in nodes then [last] else [])
  }

  lemma {:induction false} AtNodeSplit(a: seq<Link>, b: seq<Link>, node: string)
    ensures AtNode(a + b, node) == AtNode(a, node) + AtNode(b, node)
  {
    if b == [] {
      assert a + b == a;
    } else {
      assert (a + b)[..|a + b| - 1] == a + b[..|b| - 1];
      AtNodeSplit(a, b[..|b| - 1], node);
    }
  }

  lemma {:induction false} AtNetworkSplit(a: seq<Link>, b: seq<Link>, network: string)
    ensures AtNetwork(a + b, network) == AtNetwork(a, network) + AtNetwork(b, network)
  {
    if b == [] {
      assert a + b == a;
    } else {
      assert (a + b)[..|a + b| - 1] == a + b[..|b| - 1];
      AtNetworkSplit(a, b[..|b| - 1], network);
    }
  }

  lemma {:induction false} AtNetworkUniform(links: seq<Link>, network: string)
    ensures (forall i :: 0 <= i < |links| ==> links[i].network == network) ==> AtNetwork(links, network) == links
    ensures NoneOn(links, network) ==> AtNetwork(links, network) == []
  {
    if links != [] {
      var init := links[..|links| - 1];
      AtNetworkUniform(init, network);
      assert links == init + [links[|links| - 1]];
    }
  }

  lemma {:induction false} AtNodeUniform(links: seq<Link>, node: string)
    requires NoneAt(links, node)
    ensures AtNode(links, node) == []
  {
    if links != [] {
      AtNodeUniform(links[..|links| - 1], node);
    }
  }

  lemma {:induction false} InNodeScan(links: seq<Link>, l: Link, node: string)
    ensures multiset(AtNode(links, node))[l] == if l.node == node then multiset(links)[l] else 0
  {
    if links != [] {
      var init := links[..|links| - 1];
      InNodeScan(init, l, node);
      assert links == init + [links[|links| - 1]];
    }
  }

  lemma {:induction false} InNetworkScan(links: seq<Link>, l: Link, network: string)
    ensures multiset(AtNetwork(links, network))[l] == if l.network == network then multiset(links)[l] else 0
  {
    if links != [] {
      var init := links[..|links| - 1];
      InNetworkScan(init, l, network);
      assert links == init + [links[|links| - 1]];
    }
  }

  // ---------------------------------------------------------------- the instance

  /** Names that the definition must not use itself. */
  ghost predicate Unreserved(d: Definition) {
    && MAN !in HostNames(d) && MAN !in RouterNames(d)
    && MAN_NET !in NetworkNames(d.networks) && d.wan.name != MAN_NET
  }

  ghost predicate Known(d: Definition) {
    && Validators.KnownMappings(d.netMappings, HostNames(d), NetworkNames(d.networks))
    && Validators.KnownMappings(d.routerMappings, RouterNames(d), NetworkNames(d.networks))
  }

  function NodeNames(d: Definition): set<string> {
    Validators.Elements(HostNames(d)) + Validators.Elements(RouterNames(d)) + {MAN}
  }

  function AllNetworkNames(d: Definition): set<string> {
    Validators.Elements(NetworkNames(d.networks)) + {d.wan.name, MAN_NET}
  }

  ghost predicate NodeIndex(index: map<string, seq<Link>>, nodes: set<string>, links: seq<Link>) {
    index.Keys == nodes && forall n :: n in nodes ==> index[n] == AtNode(links, n)
  }

  ghost predicate NetworkIndex(index: map<string, seq<Link>>, nets: set<string>, links: seq<Link>) {
    index.Keys == nets && forall n :: n in nets ==> index[n] == AtNetwork(links, n)
  }

  class TopologyInstance {
    const definition: Definition
    var links: seq<Link>
    var nodeLinks: map<string, seq<Link>>
    var networkLinks: map<string, seq<Link>>

    /** The indexes agree with scans of the links, in creation order. */
    ghost predicate Indexed()
      reads this
    {
      && links == LinksOf(definition)
      && NodeIndex(nodeLinks, NodeNames(definition), links)
      && NetworkIndex(networkLinks, AllNetworkNames(definition), links)
    }

    constructor (d: Definition)
      ensures definition == d && links == []
    {
      definition, links, nodeLinks, networkLinks := d, [], map[], map[];
    }

    method AddLink(node: string, network: string, ip: Option<nat>)
      modifies this`links
      ensures links == old(links) + [Nth(|old(links)| + 1, node, network, ip)]
    {
      links := links + [Link(|links| + 1, node, network, ip)];
    }

    method CreateHostsLinks() returns (ok: bool)
      requires links == ManLinks(definition)
      modifies this`links
      ensures ok <==> Validators.KnownMappings(definition.netMappings, HostNames(definition),
                NetworkNames(definition.networks))
      ensures ok ==> links == HostPart(definition)
    {
      var d := definition;
      for i := 0 to |d.hosts|
        invariant links == ManLinks(d) + HostLinks(d, i)
      {
        AddLink(d.hosts[i].name, MAN_NET, None);
        assert HostLinks(d, i + 1) == HostLinks(d, i) + [Nth(3 + i, d.hosts[i].name, MAN_NET, None)];
      }
      ok := CreateMappingLinks(d.netMappings, HostNames(d));
    }

    /** The loop over net or router mappings. */
    method CreateMappingLinks(ms: seq<Mapping>, nodes: seq<string>) returns (ok: bool)
      modifies this`links
      ensures ok <==> Validators.KnownMappings(ms, nodes, NetworkNames(definition.networks))
      ensures ok ==> links == old(links) + MappingLinks(|old(links)| + 1, ms)
    {
      ghost var k := |links| + 1;
      for i := 0 to |ms|
        invariant links == old(links) + MappingLinks(k, ms[..i])
        invariant forall j :: 0 <= j < i ==> ms[j].node in nodes && ms[j].network in NetworkNames(definition.networks)
      {
        if ms[i].node !in nodes || ms[i].network !in NetworkNames(definition.networks) {
          return false;
        }
        AddLink(ms[i].node, ms[i].network, Some(ms[i].ip));
        assert MappingLinks(k, ms[..i + 1]) ==
                 MappingLinks(k, ms[..i]) + [Nth(k + i, ms[i].node, ms[i].network, Some(ms[i].ip))];
      }
      assert ms[..|ms|] == ms;
      ok := true;
    }

    method CreateRoutersLinks() returns (ok: bool)
      requires links == HostPart(definition)
      modifies this`links
      ensures ok <==> Validators.KnownMappings(definition.routerMappings, RouterNames(definition),
                NetworkNames(definition.networks))
      ensures ok ==> links == LinksOf(definition)
    {
      var d := definition;
      ghost var k := |links| + 1;
      for i := 0 to |d.routers|
        invariant links == HostPart(d) + RouterLinks(k, d, i)
      {
        AddLink(d.routers[i].name, MAN_NET, None);
        AddLink(d.routers[i].name, d.wan.name, None);
      }
      ok := CreateMappingLinks(d.routerMappings, RouterNames(d));
    }

    /** The constructor's work; false stands for the exception on a mapping of an unknown name. */
    method Build() returns (ok: bool)
      requires links == []
      modifies this
      ensures ok <==> Known(definition)
      ensures ok ==> Indexed()
    {
      AddLink(MAN, MAN_NET, None);
      AddLink(MAN, definition.wan.name, None);
      ok := CreateHostsLinks();
      if !ok {
        return;
      }
      ok := CreateRoutersLinks();
      if ok {
        LinkEnds(definition);
        CreateIndexes(NodeNames(definition), AllNetworkNames(definition));
      }
    }

    /** One pass over the links in creation order. */
    method CreateIndexes(nodes: set<string>, nets: set<string>)
      requires forall i :: 0 <= i < |links| ==> links[i].node in nodes && links[i].network in nets
      modifies this`nodeLinks, this`networkLinks
      ensures NodeIndex(nodeLinks, nodes, links) && NetworkIndex(networkLinks, nets, links)
    {
      nodeLinks := map n | n in nodes :: [];
      networkLinks := map n | n in nets :: [];
      for i := 0 to |links|
        invariant NodeIndex(nodeLinks, nodes, links[..i]) && NetworkIndex(networkLinks, nets, links[..i])
      {
        var link := links[i];
        NextIndexed(nodeLinks, networkLinks, nodes, nets, links, i);
        nodeLinks := nodeLinks[link.node := nodeLinks[link.node] + [link]];
        networkLinks := networkLinks[link.network := networkLinks[link.network] + [link]];
      }
      assert links[..|links|] == links;
    }

    /** `get_node_links` with a filter on networks. */
    method GetNodeLinks(node: string, networks: seq<string>) returns (found: seq<Link>)
      requires Indexed() && node in NodeNames(definition)
      ensures found == OnNetworks(AtNode(links, node), networks)
    {
      found := [];
      var all := nodeLinks[node];
      for i := 0 to |all|
        invariant found == OnNetworks(all[..i], networks)
      {
        assert all[..i + 1][..i] == all[..i];
        if all[i].network in networks {
          found := found + [all[i]];
        }
      }
      assert all[..|all|] == all;
    }

    /** `get_network_links` with a filter on nodes. */
    method GetNetworkLinks(network: string, nodes: set<string>) returns (found: seq<Link>)
      requires Indexed() && network in AllNetworkNames(definition)
      ensures found == AtNodes(AtNetwork(links, network), nodes)
    {
      found := [];
      var all := networkLinks[network];
      for i := 0 to |all|
        invariant found == AtNodes(all[..i], nodes)
      {
        assert all[..i + 1][..i] == all[..i];
        if all[i].node in nodes {
          found := found + [all[i]];
        }
      }
      assert all[..|all|] == all;
    }

    /** `get_link_between_node_and_network`: more than one link raises. */
    method GetLinkBetween(node: string, network: string) returns (raised: bool, link: Option<Link>)
      requires Indexed() && node in NodeNames(definition)
      ensures raised <==> |OnNetworks(AtNode(links, node), [network])| > 1
      ensures link.None? <==> |OnNetworks(AtNode(links, node), [network])| != 1
      ensures link.Some? ==> OnNetworks(AtNode(links, node), [network]) == [link.value]
    {
      var found := GetNodeLinks(node, [network]);
      raised := |found| > 1;
      link := if |found| == 1 then Some(found[0]) else None;
    }

    /** The inner loop of `get_node_to_nodes_link_pairs`. */
    static method PairsFrom(first: Link, seconds: seq<Link>, node: string) returns (pairs: seq<LinkPair>)
      ensures pairs == PairsWith(first, seconds, node)
    {
      pairs := [];
      for j := 0 to |seconds|
        invariant pairs == PairsWith(first, seconds[..j], node)
      {
        assert seconds[..j + 1][..j] == seconds[..j];
        if seconds[j].node != node {
          pairs := pairs + [LinkPair(first, seconds[j])];
        }
      }
      assert seconds[..|seconds|] == seconds;
    }

    /** `get_network_links`. */
    method GetLinksAt(network: string, nodes: Option<set<string>>) returns (found: seq<Link>)
      requires Indexed() && network in AllNetworkNames(definition)
      ensures found == Chosen(AtNetwork(links, network), nodes)
    {
      if nodes.None? {
        return networkLinks[network];
      }
      found := GetNetworkLinks(network, nodes.value);
    }

    /** The outer loop of `get_node_to_nodes_link_pairs`. */
    method PairsOver(firsts: seq<Link>, nodes: Option<set<string>>, node: string) returns (pairs: seq<LinkPair>)
      requires Indexed() && Ends(definition, firsts)
      ensures pairs == PairsAcross(firsts, links, nodes, node)
    {
      pairs := [];
      for i := 0 to |firsts|
        invariant pairs == PairsAcross(firsts[..i], links, nodes, node)
      {
        assert firsts[..i + 1][..i] == firsts[..i];
        var seconds := GetLinksAt(firsts[i].network, nodes);
        var more := PairsFrom(firsts[i], seconds, node);
        pairs := pairs + more;
      }
      assert firsts[..|firsts|] == firsts;
    }

    /** `get_node_to_nodes_link_pairs`, with both optional filters. */
    method GetNodeToNodesLinkPairs(node: string, networks: Option<seq<string>>, nodes: Option<set<string>>)
      returns (pairs: seq<LinkPair>)
      requires Indexed() && Known(definition) && node in NodeNames(definition)
      ensures pairs == PairsAcross(Adjacent(AtNode(links, node), networks), links, nodes, node)
    {
      LinkEnds(definition);
      AtNodeEnds(definition, links, node);
      var firsts := nodeLinks[node];
      if networks.Some? {
        firsts := GetNodeLinks(node, networks.value);
        OnNetworksEnds(definition, AtNode(links, node), networks.value);
      }
      pairs := PairsOver(firsts, nodes, node);
    }

    /** `get_link_pairs_man_to_nodes_over_management_network`; None stands for the exception that the number
        of pairs is wrong. */
    method GetManLinkPairs() returns (pairs: Option<seq<LinkPair>>)
      requires Indexed() && Known(definition) && Unreserved(definition)
      requires Distinct(HostNames(definition) + RouterNames(definition))
      ensures pairs.Some? && Seconds(pairs.value) == HostNames(definition) + RouterNames(definition)
    {
      var found := GetNodeToNodesLinkPairs(MAN, Some([MAN_NET]), None);
      ManPairs(definition);
      NodeCount(definition);
      if |found| != |nodeLinks.Keys| - 1 {
        return None;
      }
      pairs := Some(found);
    }
  }

  /** Every link is listed once under its own node and under no other, once under its own network and under no other. */
  lemma EachLinkOnce(d: Definition, i: nat, node: string, network: string)
    requires i < |LinksOf(d)|
    ensures var l := LinksOf(d)[i];
            && multiset(AtNode(LinksOf(d), node))[l] == (if l.node == node then 1 else 0)
            && multiset(AtNetwork(LinksOf(d), network))[l] == (if l.network == network then 1 else 0)
  {
    LinkCount(d);
    InNodeScan(LinksOf(d), LinksOf(d)[i], node);
    InNetworkScan(LinksOf(d), LinksOf(d)[i], network);
    OnlyOnce(LinksOf(d), i);
  }

  lemma OnlyOnce(links: seq<Link>, i: nat)
    requires i < |links| && forall p, q :: 0 <= p < q < |links| ==> links[p] != links[q]
    ensures multiset(links)[links[i]] == 1
  {
    var l := links[i];
    assert links == links[..i] + [l] + links[i + 1..];
    assert l !in links[..i] && l !in links[i + 1..];
  }

  // ---------------------------------------------------------------- link pairs

  function PairsWith(first: Link, seconds: seq<Link>, node: string): seq<LinkPair> {
    if seconds == [] then [] else
    var last := seconds[|seconds| - 1];
    PairsWith(first, seconds[..|seconds| - 1], node) + (if last.node != node then [LinkPair(first, last)] else [])
  }

  /** The filter on target nodes. */
  function Chosen(links: seq<Link>, nodes: Option<set<string>>): seq<Link> {
    if nodes.None? then links else AtNodes(links, nodes.value)
  }

  /** The filter on adjacent networks. */
  function Adjacent(links: seq<Link>, networks: Option<seq<string>>): seq<Link> {
    if networks.None? then links else OnNetworks(links, networks.value)
  }

  function PairsAcross(firsts: seq<Link>, links: seq<Link>, nodes: Option<set<string>>, node: string): seq<LinkPair> {
    if firsts == [] then [] else
    var last := firsts[|firsts| - 1];
    PairsAcross(firsts[..|firsts| - 1], links, nodes, node)
    + PairsWith(last, Chosen(AtNetwork(links, last.network), nodes), node)
  }

  lemma {:induction false} PairsWithExact(first: Link, seconds: seq<Link>, node: string, p: LinkPair)
    ensures p in PairsWith(first, seconds, node) <==> p.first == first && p.second in seconds && p.second.node != node
  {
    if seconds != [] {
      var init, last := seconds[..|seconds| - 1], seconds[|seconds| - 1];
      PairsWithExact(first, init, node, p);
      assert seconds == init + [last];
    }
  }

  lemma {:induction false} PairsAcrossExact(firsts: seq<Link>, links: seq<Link>, nodes: Option<set<string>>,
                                            node: string, p: LinkPair)
    ensures p in PairsAcross(firsts, links, nodes, node) <==>
              (p.first in firsts && p.second in Chosen(AtNetwork(links, p.first.network), nodes)
               && p.second.node != node)
  {
    if firsts != [] {
      var init, last := firsts[..|firsts| - 1], firsts[|firsts| - 1];
      PairsAcrossExact(init, links, nodes, node, p);
      PairsWithExact(last, Chosen(AtNetwork(links, last.network), nodes), node, p);
      assert firsts == init + [last];
    }
  }

  lemma {:induction false} OnNetworksExact(links: seq<Link>, networks: seq<string>, l: Link)
    ensures l in OnNetworks(links, networks) <==> l in links && l.network in networks
  {
    if links != [] {
      OnNetworksExact(links[..|links| - 1], networks, l);
      assert links == links[..|links| - 1] + [links[|links| - 1]];
    }
  }

  lemma {:induction false} AtNodesExact(links: seq<Link>, nodes: set<string>, l: Link)
    ensures l in AtNodes(links, nodes) <==> l in links && l.node in nodes
  {
    if links != [] {
      AtNodesExact(links[..|links| - 1], nodes, l);
      assert links == links[..|links| - 1] + [links[|links| - 1]];
    }
  }

  /** The pairs of a node are exactly those of one of its links and a link of another node on the same network, as
      far as the filters let through. */
  lemma PairsExact(d: Definition, networks: Option<seq<string>>, nodes: Option<set<string>>, node: string, p: LinkPair)
    ensures p in PairsAcross(Adjacent(AtNode(LinksOf(d), node), networks), LinksOf(d), nodes, node) <==>
              (&& p.first in LinksOf(d) && p.second in LinksOf(d) && p.first.network == p.second.network
               && p.first.node == node && p.second.node != node
               && (networks.Some? ==> p.first.network in networks.value)
               && (nodes.Some? ==> p.second.node in nodes.value))
  {
    var links := LinksOf(d);
    PairsAcrossExact(Adjacent(AtNode(links, node), networks), links, nodes, node, p);
    AdjacentExact(links, node, networks, p.first);
    ChosenExact(links, p.first.network, nodes, p.second);
  }

  lemma AdjacentExact(links: seq<Link>, node: string, networks: Option<seq<string>>, l: Link)
    ensures l in Adjacent(AtNode(links, node), networks) <==>
              l in links && l.node == node && (networks.Some? ==> l.network in networks.value)
  {
    InNodeScan(links, l, node);
    if networks.Some? { OnNetworksExact(AtNode(links, node), networks.value, l); }
  }

  lemma ChosenExact(links: seq<Link>, network: string, nodes: Option<set<string>>, l: Link)
    ensures l in Chosen(AtNetwork(links, network), nodes) <==>
              l in links && l.network == network && (nodes.Some? ==> l.node in nodes.value)
  {
    InNetworkScan(links, l, network);
    if nodes.Some? { AtNodesExact(AtNetwork(links, network), nodes.value, l); }
  }

  /** The nodes at the far ends of the pairs. */
  function Seconds(pairs: seq<LinkPair>): seq<string> {
    seq(|pairs|, i requires 0 <= i < |pairs| => pairs[i].second.node)
  }

  function Nodes(links: seq<Link>): seq<string> {
    seq(|links|, i requires 0 <= i < |links| => links[i].node)
  }

  lemma {:induction false} PairsWithAll(first: Link, seconds: seq<Link>, node: string)
    requires forall i :: 0 <= i < |seconds| ==> seconds[i].node != node
    ensures Seconds(PairsWith(first, seconds, node)) == Nodes(seconds)
  {
    if seconds != [] {
      var init, last := seconds[..|seconds| - 1], seconds[|seconds| - 1];
      PairsWithAll(first, init, node);
      assert Nodes(seconds) == Nodes(init) + [last.node];
      assert Seconds(PairsWith(first, seconds, node)) == Seconds(PairsWith(first, init, node)) + [last.node];
    }
  }

  lemma {:induction false} PairsWithSplit(first: Link, a: seq<Link>, b: seq<Link>, node: string)
    ensures PairsWith(first, a + b, node) == PairsWith(first, a, node) + PairsWith(first, b, node)
  {
    if b == [] {
      assert a + b == a;
    } else {
      assert (a + b)[..|a + b| - 1] == a + b[..|b| - 1];
      PairsWithSplit(first, a, b[..|b| - 1], node);
    }
  }

  lemma SkipNode(a: seq<Link>, b: seq<Link>, node: string)
    requires NoneAt(b, node)
    ensures AtNode(a + b, node) == AtNode(a, node)
  {
    AtNodeUniform(b, node);
    AtNodeSplit(a, b, node);
  }

  lemma SkipNetwork(a: seq<Link>, b: seq<Link>, network: string)
    requires NoneOn(b, network)
    ensures AtNetwork(a + b, network) == AtNetwork(a, network)
  {
    AtNetworkUniform(b, network);
    AtNetworkSplit(a, b, network);
  }

  lemma TwoLinks(l: Link, m: Link, name: string)
    ensures AtNode([l, m], name) == (if l.node == name then [l] else []) + (if m.node == name then [m] else [])
    ensures AtNetwork([l, m], name) == (if l.network == name then [l] else []) + (if m.network == name then [m] else [])
  {
    assert [l, m][..1] == [l] && [l][..0] == [];
    assert AtNode([l], name) == (if l.node == name then [l] else []);
    assert AtNetwork([l], name) == (if l.network == name then [l] else []);
  }

  lemma ManOwnLinks(d: Definition)
    ensures AtNode(ManLinks(d), MAN) == ManLinks(d)
    ensures d.wan.name != MAN_NET ==> AtNetwork(ManLinks(d), MAN_NET) == [Nth(1, MAN, MAN_NET, None)]
  {
    TwoLinks(Nth(1, MAN, MAN_NET, None), Nth(2, MAN, d.wan.name, None), MAN);
    TwoLinks(Nth(1, MAN, MAN_NET, None), Nth(2, MAN, d.wan.name, None), MAN_NET);
  }

  ghost predicate NoneAt(links: seq<Link>, node: string) {
    forall i :: 0 <= i < |links| ==> links[i].node != node
  }

  ghost predicate NoneOn(links: seq<Link>, network: string) {
    forall i :: 0 <= i < |links| ==> links[i].network != network
  }

  lemma NoneAtJoin(a: seq<Link>, b: seq<Link>, node: string)
    requires NoneAt(a, node) && NoneAt(b, node)
    ensures NoneAt(a + b, node)
  {
  }

  lemma HostsElsewhere(d: Definition, k: nat)
    requires Known(d) && Unreserved(d)
    ensures NoneAt(HostLinks(d, |d.hosts|), MAN) && NoneAt(MappingLinks(k, d.netMappings), MAN)
  {
    forall i | 0 <= i < |d.hosts| ensures d.hosts[i].name != MAN { assert HostNames(d)[i] in HostNames(d); }
  }

  lemma RoutersElsewhere(d: Definition, k: nat, l: nat)
    requires Known(d) && Unreserved(d)
    ensures NoneAt(RouterLinks(k, d, |d.routers|), MAN) && NoneAt(MappingLinks(l, d.routerMappings), MAN)
  {
    RouterLinkFacts(k, d, |d.routers|);
  }

  lemma OnlyManLinks(d: Definition, a: seq<Link>, b: seq<Link>, c: seq<Link>)
    requires NoneAt(a, MAN) && NoneAt(b, MAN) && NoneAt(c, MAN)
    ensures AtNode(ManLinks(d) + a + b + c, MAN) == ManLinks(d)
  {
    ManOwnLinks(d);
    SkipNode(ManLinks(d) + a + b, c, MAN);
    SkipNode(ManLinks(d) + a, b, MAN);
    SkipNode(ManLinks(d), a, MAN);
  }

  /** The management node has exactly its two own links. */
  lemma ManAtNode(d: Definition)
    requires Known(d) && Unreserved(d)
    ensures AtNode(LinksOf(d), MAN) == ManLinks(d)
  {
    var k := 3 + |d.hosts| + |d.netMappings|;
    HostsElsewhere(d, 3 + |d.hosts|);
    RoutersElsewhere(d, k, k + 2 * |d.routers|);
    NoneAtJoin(RouterLinks(k, d, |d.routers|), MappingLinks(k + 2 * |d.routers|, d.routerMappings), MAN);
    OnlyManLinks(d, HostLinks(d, |d.hosts|), MappingLinks(3 + |d.hosts|, d.netMappings), RouterPart(d));
  }

  /** The routers' links to the management network. */
  function RouterManLinks(k: nat, d: Definition, n: nat): seq<Link>
    requires n <= |d.routers|
  {
    seq(n, i requires 0 <= i < n => Nth(k + 2 * i, d.routers[i].name, MAN_NET, None))
  }

  lemma {:induction false} RouterLinkAt(k: nat, d: Definition, n: nat, m: nat)
    requires m < n <= |d.routers|
    ensures RouterLinks(k, d, n)[2 * m] == Nth(k + 2 * m, d.routers[m].name, MAN_NET, None)
    ensures RouterLinks(k, d, n)[2 * m + 1] == Nth(k + 2 * m + 1, d.routers[m].name, d.wan.name, None)
  {
    if m < n - 1 {
      RouterLinkAt(k, d, n - 1, m);
    }
  }

  lemma AtNetworkTwoMore(init: seq<Link>, x: Link, y: Link, network: string)
    requires x.network == network && y.network != network
    ensures AtNetwork(init + [x] + [y], network) == AtNetwork(init, network) + [x]
  {
    assert (init + [x] + [y])[..|init| + 1] == init + [x];
    assert (init + [x])[..|init|] == init;
  }

  /** Of pairs whose first link alone is on the network, the scan finds the first links. */
  lemma {:induction false} Firsts(links: seq<Link>, n: nat, network: string)
    requires |links| == 2 * n
    requires forall i :: 0 <= i < n ==> links[2 * i].network == network && links[2 * i + 1].network != network
    ensures AtNetwork(links, network) == seq(n, i requires 0 <= i < n => links[2 * i])
  {
    if n > 0 {
      var init := links[..2 * (n - 1)];
      Firsts(init, n - 1, network);
      assert links == init + [links[2 * (n - 1)]] + [links[2 * (n - 1) + 1]];
      AtNetworkTwoMore(init, links[2 * (n - 1)], links[2 * (n - 1) + 1], network);
    }
  }

  lemma RoutersAtManNet(k: nat, d: Definition, links: seq<Link>)
    requires d.wan.name != MAN_NET && links == RouterLinks(k, d, |d.routers|)
    ensures AtNetwork(links, MAN_NET) == RouterManLinks(k, d, |d.routers|)
  {
    forall i | 0 <= i < |d.routers|
      ensures links[2 * i] == Nth(k + 2 * i, d.routers[i].name, MAN_NET, None) && links[2 * i + 1].network != MAN_NET
    {
      RouterLinkAt(k, d, |d.routers|, i);
    }
    Firsts(links, |d.routers|, MAN_NET);
  }

  lemma MappingsOff(d: Definition, k: nat, l: nat)
    requires Known(d) && Unreserved(d)
    ensures NoneOn(MappingLinks(k, d.netMappings), MAN_NET) && NoneOn(MappingLinks(l, d.routerMappings), MAN_NET)
  {
  }

  lemma HostPartScan(d: Definition) returns (a: seq<Link>, h: seq<Link>, n: seq<Link>)
    requires Known(d) && Unreserved(d)
    ensures HostPart(d) == a + h + n && NoneOn(n, MAN_NET)
    ensures AtNetwork(a, MAN_NET) == [Nth(1, MAN, MAN_NET, None)]
    ensures AtNetwork(h, MAN_NET) == HostLinks(d, |d.hosts|)
  {
    a, h, n := ManLinks(d), HostLinks(d, |d.hosts|), MappingLinks(3 + |d.hosts|, d.netMappings);
    MappingsOff(d, 3 + |d.hosts|, 0);
    ManOwnLinks(d);
    AtNetworkUniform(h, MAN_NET);
  }

  lemma RouterPartScan(d: Definition) returns (r: seq<Link>, m: seq<Link>)
    requires Known(d) && Unreserved(d)
    ensures RouterPart(d) == r + m && NoneOn(m, MAN_NET)
    ensures AtNetwork(r, MAN_NET) == RouterManLinks(3 + |d.hosts| + |d.netMappings|, d, |d.routers|)
  {
    var k := 3 + |d.hosts| + |d.netMappings|;
    r, m := RouterLinks(k, d, |d.routers|), MappingLinks(k + 2 * |d.routers|, d.routerMappings);
    MappingsOff(d, 0, k + 2 * |d.routers|);
    RoutersAtManNet(k, d, r);
  }

  /** The scan of the links, part by part, without the mappings. */
  lemma ScanParts(a: seq<Link>, h: seq<Link>, n: seq<Link>, r: seq<Link>, m: seq<Link>, network: string)
    requires NoneOn(n, network) && NoneOn(m, network)
    ensures AtNetwork((a + h + n) + (r + m), network) ==
              AtNetwork(a, network) + AtNetwork(h, network) + AtNetwork(r, network)
  {
    AtNetworkSplit(a + h + n, r + m, network);
    SkipNetwork(r, m, network);
    SkipNetwork(a + h, n, network);
    AtNetworkSplit(a, h, network);
  }

  /** On the management network are the management node, then the hosts, then the routers. */
  lemma AtManNet(d: Definition)
    requires Known(d) && Unreserved(d)
    ensures AtNetwork(LinksOf(d), MAN_NET)
            == [Nth(1, MAN, MAN_NET, None)] + HostLinks(d, |d.hosts|)
               + RouterManLinks(3 + |d.hosts| + |d.netMappings|, d, |d.routers|)
  {
    var a, h, n := HostPartScan(d);
    var r, m := RouterPartScan(d);
    ScanParts(a, h, n, r, m, MAN_NET);
  }

  lemma PairsOfTwo(l: Link, m: Link, network: string, links: seq<Link>, node: string)
    requires l.network == network && m.network != network
    ensures PairsAcross(OnNetworks([l, m], [network]), links, None, node)
            == PairsWith(l, AtNetwork(links, network), node)
  {
    assert [l, m][..1] == [l] && [l][..0] == [];
    assert OnNetworks([l], [network]) == [l];
    assert OnNetworks([l, m], [network]) == [l];
  }

  lemma SecondsWithout(first: Link, others: seq<Link>, names: seq<string>)
    requires first.node == MAN && MAN !in names && Nodes(others) == names
    ensures Seconds(PairsWith(first, [first] + others, MAN)) == names
  {
    PairsWithSplit(first, [first], others, MAN);
    assert PairsWith(first, [first], MAN) == [];
    forall i | 0 <= i < |others| ensures others[i].node != MAN {
      assert Nodes(others)[i] in names;
    }
    PairsWithAll(first, others, MAN);
  }

  lemma OtherNodes(k: nat, d: Definition)
    ensures Nodes(HostLinks(d, |d.hosts|) + RouterManLinks(k, d, |d.routers|)) == HostNames(d) + RouterNames(d)
  {
  }

  lemma ManPairsOf(d: Definition, links: seq<Link>, others: seq<Link>, names: seq<string>)
    requires d.wan.name != MAN_NET && MAN !in names && Nodes(others) == names
    requires AtNetwork(links, MAN_NET) == [Nth(1, MAN, MAN_NET, None)] + others
    ensures Seconds(PairsAcross(OnNetworks(ManLinks(d), [MAN_NET]), links, None, MAN)) == names
  {
    PairsOfTwo(Nth(1, MAN, MAN_NET, None), Nth(2, MAN, d.wan.name, None), MAN_NET, links, MAN);
    SecondsWithout(Nth(1, MAN, MAN_NET, None), others, names);
  }

  /** Over the management network the management node is paired with every other node exactly once. */
  lemma ManPairs(d: Definition)
    requires Known(d) && Unreserved(d)
    ensures Seconds(PairsAcross(OnNetworks(AtNode(LinksOf(d), MAN), [MAN_NET]), LinksOf(d), None, MAN)) ==
              HostNames(d) + RouterNames(d)
  {
    var k := 3 + |d.hosts| + |d.netMappings|;
    var hosts, routers := HostLinks(d, |d.hosts|), RouterManLinks(k, d, |d.routers|);
    ManAtNode(d);
    AtManNet(d);
    OtherNodes(k, d);
    assert [Nth(1, MAN, MAN_NET, None)] + (hosts + routers) == [Nth(1, MAN, MAN_NET, None)] + hosts + routers;
    ManPairsOf(d, LinksOf(d), hosts + routers, HostNames(d) + RouterNames(d));
  }

  lemma NodeCount(d: Definition)
    requires Unreserved(d) && Distinct(HostNames(d) + RouterNames(d))
    ensures |NodeNames(d)| == |d.hosts| + |d.routers| + 1
  {
    var names := HostNames(d) + RouterNames(d);
    Validators.ElementsSize(names);
    assert NodeNames(d) == Validators.Elements(names) + {MAN};
    assert MAN !in Validators.Elements(names);
  }

  lemma NextIndexed(nodeLinks: map<string, seq<Link>>, networkLinks: map<string, seq<Link>>, nodes: set<string>,
                    nets: set<string>, links: seq<Link>, i: nat)
    requires i < |links| && links[i].node in nodes && links[i].network in nets
    requires NodeIndex(nodeLinks, nodes, links[..i]) && NetworkIndex(networkLinks, nets, links[..i])
    ensures NodeIndex(nodeLinks[links[i].node := nodeLinks[links[i].node] + [links[i]]], nodes, links[..i + 1])
    ensures NetworkIndex(networkLinks[links[i].network := networkLinks[links[i].network] + [links[i]]], nets,
              links[..i + 1])
  {
    assert links[..i + 1][..i] == links[..i];
  }

  ghost predicate Ends(d: Definition, links: seq<Link>) {
    forall i :: 0 <= i < |links| ==> links[i].node in NodeNames(d) && links[i].network in AllNetworkNames(d)
  }

  lemma HostEnds(d: Definition)
    ensures Ends(d, ManLinks(d)) && Ends(d, HostLinks(d, |d.hosts|))
  {
    forall i | 0 <= i < |d.hosts| ensures d.hosts[i].name in NodeNames(d) { assert HostNames(d)[i] in HostNames(d); }
  }

  lemma RouterEnds(d: Definition, k: nat)
    ensures Ends(d, RouterLinks(k, d, |d.routers|))
  {
    RouterLinkFacts(k, d, |d.routers|);
  }

  lemma MappingEnds(d: Definition, k: nat, ms: seq<Mapping>, nodes: seq<string>)
    requires Validators.KnownMappings(ms, nodes, NetworkNames(d.networks))
    requires forall n :: n in nodes ==> n in NodeNames(d)
    ensures Ends(d, MappingLinks(k, ms))
  {
  }

  lemma HostPartEnds(d: Definition)
    requires Known(d)
    ensures Ends(d, HostPart(d))
  {
    HostEnds(d);
    MappingEnds(d, 3 + |d.hosts|, d.netMappings, HostNames(d));
    EndsJoin(d, ManLinks(d), HostLinks(d, |d.hosts|));
    EndsJoin(d, ManLinks(d) + HostLinks(d, |d.hosts|), MappingLinks(3 + |d.hosts|, d.netMappings));
  }

  lemma RouterPartEnds(d: Definition, k: nat)
    requires Known(d) && k == 3 + |d.hosts| + |d.netMappings|
    ensures Ends(d, RouterPart(d))
  {
    RouterEnds(d, k);
    MappingEnds(d, k + 2 * |d.routers|, d.routerMappings, RouterNames(d));
    EndsJoin(d, RouterLinks(k, d, |d.routers|), MappingLinks(k + 2 * |d.routers|, d.routerMappings));
  }

  /** Every link ends at a known node and a known network, so the indexes have a list for it. */
  lemma LinkEnds(d: Definition)
    requires Known(d)
    ensures Ends(d, LinksOf(d))
  {
    HostPartEnds(d);
    RouterPartEnds(d, 3 + |d.hosts| + |d.netMappings|);
    EndsJoin(d, HostPart(d), RouterPart(d));
  }

  lemma {:induction false} AtNodeEnds(d: Definition, links: seq<Link>, node: string)
    requires Ends(d, links)
    ensures Ends(d, AtNode(links, node))
  {
    if links != [] {
      AtNodeEnds(d, links[..|links| - 1], node);
    }
  }

  lemma {:induction false} OnNetworksEnds(d: Definition, links: seq<Link>, networks: seq<string>)
    requires Ends(d, links)
    ensures Ends(d, OnNetworks(links, networks))
  {
    if links != [] {
      OnNetworksEnds(d, links[..|links| - 1], networks);
    }
  }

  lemma EndsJoin(d: Definition, a: seq<Link>, b: seq<Link>)
    requires Ends(d, a) && Ends(d, b)
    ensures Ends(d, a + b)
  {
  }
}
/** Topology definitions: hosts, routers, networks and the mappings between them, with lazily built indexes. */
module TopologyModel {
  import opened Wrappers
  import Cidr

  datatype Host = Host(name: string, image: string, hidden: bool)
  datatype Router = Router(name: string, image: string, hidden: bool)
  datatype Network = Network(name: string, cidr: Cidr.Block, accessible: bool, hidden: bool)

  /** A network mapping (`node` is a host) or a router mapping (`node` is a router). */
  datatype Mapping = Mapping(node: string, network: string, ip: nat)

  datatype Definition = Definition(name: string, hosts: seq<Host>, routers: seq<Router>, wan: Network,
                                   networks: seq<Network>, netMappings: seq<Mapping>, routerMappings: seq<Mapping>)

  predicate Distinct<T(==)>(s: seq<T>) {
    forall i, j :: 0 <= i < j < |s| ==> s[i] != s[j]
  }

  /** `{name(x): x for x in items}`: the last item of a name wins. */
  function IndexOf<T>(items: seq<T>, name: T -> string): map<string, T> {
    if items == [] then map[] else
    var last := items[|items| - 1];
    IndexOf(items[..|items| - 1], name)[name(last) := last]
  }

  function HostNames(d: Definition): seq<string> { seq(|d.hosts|, i requires 0 <= i < |d.hosts| => d.hosts[i].name) }
  function RouterNames(d: Definition): seq<string> {
    seq(|d.routers|, i requires 0 <= i < |d.routers| => d.routers[i].name)
  }
  function NetworkNames(ns: seq<Network>): seq<string> { seq(|ns|, i requires 0 <= i < |ns| => ns[i].name) }

  const HostName: Host -> string := (h: Host) => h.name
  const RouterName: Router -> string := (r: Router) => r.name
  const NetworkName: Network -> string := (n: Network) => n.name

  /** An index finds exactly the names that occur, and the last item of that name. */
  lemma {:induction false} IndexFinds<T>(items: seq<T>, name: T -> string, key: string)
    ensures key in IndexOf(items, name) <==> exists i :: 0 <= i < |items| && name(items[i]) == key
    ensures key in IndexOf(items, name) ==>
              exists i :: 0 <= i < |items| && name(items[i]) == key && IndexOf(items, name)[key] == items[i]
                          && forall j :: i < j < |items| ==> name(items[j]) != key
  {
    if items != [] {
      var init, last := items[..|items| - 1], items[|items| - 1];
      IndexFinds(init, name, key);
      if name(last) != key && key in IndexOf(init, name) {
        var i :| 0 <= i < |init| && name(init[i]) == key && IndexOf(init, name)[key] == init[i]
                 && forall j :: i < j < |init| ==> name(init[j]) != key;
        assert items[i] == init[i];
        assert forall j :: i < j < |items| ==> name(items[j]) != key;
      }
    }
  }

  class TopologyDefinition {
    var hosts: seq<Host>
    var routers: seq<Router>
    var networks: seq<Network>
    var netMappings: seq<Mapping>
    var routerMappings: seq<Mapping>
    var indexed: bool
    var hostsIndex: map<string, Host>
    var routersIndex: map<string, Router>
    var networksIndex: map<string, Network>

    /** An index that is marked as built agrees with the lists. */
    ghost predicate Valid()
      reads this
    {
      indexed ==>
        && hostsIndex == IndexOf(hosts, HostName)
        && routersIndex == IndexOf(routers, RouterName)
        && networksIndex == IndexOf(networks, NetworkName)
    }

    constructor ()
      ensures Valid() && hosts == [] && routers == [] && networks == [] && netMappings == [] && routerMappings == []
    {
      hosts, routers, networks, netMappings, routerMappings := [], [], [], [], [];
      indexed, hostsIndex, routersIndex, networksIndex := false, map[], map[], map[];
    }

    method Index()
      modifies this`indexed, this`hostsIndex, this`routersIndex, this`networksIndex
      ensures Valid() && indexed
    {
      hostsIndex := IndexOf(hosts, HostName);
      routersIndex := IndexOf(routers, RouterName);
      networksIndex := IndexOf(networks, NetworkName);
      indexed := true;
    }

    method FindHostByName(name: string) returns (host: Option<Host>)
      requires Valid()
      modifies this`indexed, this`hostsIndex, this`routersIndex, this`networksIndex
      ensures Valid() && (host.Some? <==> exists h :: h in hosts && h.name == name)
      ensures host.Some? ==> host.value in hosts && host.value.name == name
    {
      if !indexed {
        Index();
      }
      IndexFinds(hosts, HostName, name);
      host := if name in hostsIndex then Some(hostsIndex[name]) else None;
    }

    method FindRouterByName(name: string) returns (router: Option<Router>)
      requires Valid()
      modifies this`indexed, this`hostsIndex, this`routersIndex, this`networksIndex
      ensures Valid() && (router.Some? <==> exists r :: r in routers && r.name == name)
      ensures router.Some? ==> router.value in routers && router.value.name == name
    {
      if !indexed {
        Index();
      }
      IndexFinds(routers, RouterName, name);
      router := if name in routersIndex then Some(routersIndex[name]) else None;
    }

    method FindNetworkByName(name: string) returns (network: Option<Network>)
      requires Valid()
      modifies this`indexed, this`hostsIndex, this`routersIndex, this`networksIndex
      ensures Valid() && (network.Some? <==> exists n :: n in networks && n.name == name)
      ensures network.Some? ==> network.value in networks && network.value.name == name
    {
      if !indexed {
        Index();
      }
      IndexFinds(networks, NetworkName, name);
      network := if name in networksIndex then Some(networksIndex[name]) else None;
    }

    method AddHost(host: Host)
      requires Valid()
      modifies this`hosts, this`indexed
      ensures Valid() && hosts == old(hosts) + [host]
    {
      hosts := hosts + [host];
      indexed := false;
    }

    method AddRouter(router: Router)
      requires Valid()
      modifies this`routers, this`indexed
      ensures Valid() && routers == old(routers) + [router]
    {
      routers := routers + [router];
      indexed := false;
    }

    method AddNetMapping(mapping: Mapping)
      requires Valid()
      modifies this`netMappings, this`indexed
      ensures Valid() && netMappings == old(netMappings) + [mapping]
    {
      netMappings := netMappings + [mapping];
      indexed := false;
    }

    method AddRouterMapping(mapping: Mapping)
      requires Valid()
      modifies this`routerMappings, this`indexed
      ensures Valid() && routerMappings == old(routerMappings) + [mapping]
    {
      routerMappings := routerMappings + [mapping];
      indexed := false;
    }
  }
}

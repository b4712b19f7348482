/** The topology shown to users: hidden routers, networks and hosts are left out. */
module VisibleTopology {
  import opened Wrappers
  import opened TopologyModel
  import opened TopologyInstances
  import opened LinkQueries
  import Cidr
  import Validators

  datatype Image = Image(name: string, osType: Option<string>, gui: bool)
  datatype HostNode = HostNode(name: string, osType: Option<string>, gui: bool, accessible: bool, ip: Option<nat>)
  datatype Subnet = Subnet(name: string, cidr: Cidr.Block, hosts: seq<HostNode>)
  datatype RouterNode = RouterNode(name: string, osType: Option<string>, gui: bool, subnets: seq<Subnet>,
        ip: Option<nat>)

  /** `find_image_for_node`: the first image of that name; none raises. */
  function FindImage(images: seq<Image>, name: string): Option<Image> {
    if images == [] then None
    else if images[0].name == name then Some(images[0])
    else FindImage(images[1..], name)
  }

  /** The image found, for nodes that have one. */
  function ImageOf(images: seq<Image>, name: string): Image {
    match FindImage(images, name)
    case Some(image) => image
    case None => Image(name, None, false)
  }

  function Lower(c: char): char {
    if 'A' <= c <= 'Z' then c + 32 as char else c
  }

  /** The name is "wan", ignoring case. */
  predicate IsWan(name: string) {
    |name| == 3 && Lower(name[0]) == 'w' && Lower(name[1]) == 'a' && Lower(name[2]) == 'n'
  }

  // ---------------------------------------------------------------- what should be shown

  function OpenHosts(d: Definition): set<string> {
    set i | 0 <= i < |d.hosts| && !d.hosts[i].hidden :: d.hosts[i].name
  }

  function OpenRouters(d: Definition): set<string> {
    set i | 0 <= i < |d.routers| && !d.routers[i].hidden :: d.routers[i].name
  }

  function HostImage(d: Definition, name: string): string {
    var index := IndexOf(d.hosts, HostName);
    if name in index then index[name].image else ""
  }

  function HostNodeOf(d: Definition, images: seq<Image>, name: string, network: string, ip: Option<nat>): HostNode {
    var image := ImageOf(images, HostImage(d, name));
    HostNode(name, image.osType, image.gui, NetworkOf(d, network).accessible, ip)
  }

  /** The hosts shown in a network: its linked hosts that are not hidden. */
  function HostsIn(d: Definition, images: seq<Image>, network: string): seq<HostNode> {
    var ms := MappingsOn(d.netMappings, network, OpenHosts(d));
    seq(|ms|, i requires 0 <= i < |ms| => HostNodeOf(d, images, ms[i].node, network, Some(ms[i].ip)))
  }

  function SubnetOf(d: Definition, images: seq<Image>, network: string): Subnet {
    Subnet(network, NetworkOf(d, network).cidr, HostsIn(d, images, network))
  }

  /** A network is shown unless it is hidden or called "wan". */
  predicate ShownNetwork(d: Definition, name: string) {
    !NetworkOf(d, name).hidden && !IsWan(name)
  }

  /** The subnets shown for the mappings of a router. */
  function SubnetsFor(d: Definition, images: seq<Image>, ms: seq<Mapping>): seq<Subnet> {
    if ms == [] then [] else
    var last := ms[|ms| - 1];
    SubnetsFor(d, images, ms[..|ms| - 1])
        + (if ShownNetwork(d, last.network) then [SubnetOf(d, images, last.network)] else [])
  }

  function RouterNodeOf(d: Definition, images: seq<Image>, i: nat): RouterNode
    requires i < |d.routers|
  {
    var image := ImageOf(images, d.routers[i].image);
    RouterNode(d.routers[i].name, image.osType, image.gui,
               SubnetsFor(d, images, MappingsOf(d.routerMappings, d.routers[i].name)), None)
  }

  /** The routers among the first `n` that are not hidden. */
  function OpenIndices(d: Definition, n: nat): (indices: seq<nat>)
    requires n <= |d.routers|
    ensures forall j :: 0 <= j < |indices| ==> indices[j] < n
  {
    if n == 0 then [] else OpenIndices(d, n - 1) + (if d.routers[n - 1].hidden then [] else [n - 1])
  }

  /** The specification: the given routers, under each its shown networks, under each the hosts that are
      not hidden. */
  ghost predicate Shows(d: Definition, images: seq<Image>, indices: seq<nat>, nodes: seq<RouterNode>) {
    && |nodes| == |indices|
    && forall j :: 0 <= j < |indices| ==> indices[j] < |d.routers| && nodes[j] == RouterNodeOf(d, images, indices[j])
  }

  /** A network that is not hidden is attached to a router that is not hidden. */
  ghost predicate Attached(d: Definition, network: string) {
    !NetworkOf(d, network).hidden
    && exists i :: 0 <= i < |d.routerMappings| && d.routerMappings[i].network == network
         && d.routerMappings[i].node in OpenRouters(d)
  }

  /** The host is linked to an attached network. */
  ghost predicate Placed(d: Definition, host: string) {
    exists i :: 0 <= i < |d.netMappings| && d.netMappings[i].node == host && Attached(d, d.netMappings[i].network)
  }

  /** Every image needed is there. */
  ghost predicate ImagesFound(d: Definition, images: seq<Image>) {
    && RouterImagesFound(d, images, |d.routers|)
    && forall network :: Attached(d, network) && !IsWan(network) ==> HostImagesFound(d, images, network)
  }

  ghost predicate RouterImagesFound(d: Definition, images: seq<Image>, n: nat)
    requires n <= |d.routers|
  {
    forall i :: 0 <= i < n && !d.routers[i].hidden ==> FindImage(images, d.routers[i].image).Some?
  }

  ghost predicate HostImagesFound(d: Definition, images: seq<Image>, network: string) {
    forall m :: m in MappingsOn(d.netMappings, network, OpenHosts(d)) ==> FindImage(images, HostImage(d, m.node)).Some?
  }

  // ---------------------------------------------------------------- what the user sees, from the definition

  /** Some image has that name. */
  ghost predicate HasImage(images: seq<Image>, name: string) {
    exists k :: 0 <= k < |images| && images[k].name == name
  }

  /** The attributes are those of the first image of that name. */
  ghost predicate Looks(images: seq<Image>, name: string, osType: Option<string>, gui: bool) {
    exists k :: 0 <= k < |images| && images[k] == Image(name, osType, gui)
                && forall j :: 0 <= j < k ==> images[j].name != name
  }

  predicate CalledWan(name: string) {
    |name| == 3 && name[0] in {'w', 'W'} && name[1] in {'a', 'A'} && name[2] in {'n', 'N'}
  }

  ghost predicate HostOpen(d: Definition, name: string) {
    exists i :: 0 <= i < |d.hosts| && d.hosts[i].name == name && !d.hosts[i].hidden
  }

  ghost predicate NetworkOpen(d: Definition, name: string) {
    !CalledWan(name) && exists k :: 0 <= k < |d.networks| && d.networks[k].name == name && !d.networks[k].hidden
  }

  /** A router that is not hidden is mapped to the network. */
  ghost predicate Reached(d: Definition, network: string) {
    exists i, r :: 0 <= i < |d.routerMappings| && d.routerMappings[i].network == network && 0 <= r < |d.routers|
                   && d.routers[r].name == d.routerMappings[i].node && !d.routers[r].hidden
  }

  /** A node that is shown has an image name that no image has. */
  ghost predicate ImageMissing(d: Definition, images: seq<Image>) {
    || (exists r :: 0 <= r < |d.routers| && !d.routers[r].hidden && !HasImage(images, d.routers[r].image))
    || exists i, j :: 0 <= i < |d.hosts| && !d.hosts[i].hidden && !HasImage(images, d.hosts[i].image)
                      && 0 <= j < |d.netMappings| && d.netMappings[j].node == d.hosts[i].name
                      && NetworkOpen(d, d.netMappings[j].network) && Reached(d, d.netMappings[j].network)
  }

  ghost predicate Increasing(idx: seq<nat>) {
    forall i, j :: 0 <= i < j < |idx| ==> idx[i] < idx[j]
  }

  /** A host on a network: the name, the attributes of its image, the access to the network, the mapped address. */
  ghost predicate HostRight(d: Definition, images: seq<Image>, network: Network, m: Mapping, h: HostNode) {
    && h.name == m.node && h.accessible == network.accessible && h.ip == Some(m.ip)
    && exists i :: 0 <= i < |d.hosts| && d.hosts[i].name == m.node && Looks(images, d.hosts[i].image, h.osType, h.gui)
  }

  /** The mappings of hosts that are not hidden to the network, in order. */
  ghost predicate HostPick(d: Definition, network: string, idx: seq<nat>) {
    && Increasing(idx)
    && forall j: nat :: j in idx <==>
         (j < |d.netMappings| && d.netMappings[j].network == network && HostOpen(d, d.netMappings[j].node))
  }

  ghost predicate HostsDisplayed(d: Definition, images: seq<Image>, network: Network, hosts: seq<HostNode>) {
    exists idx: seq<nat> :: HostPick(d, network.name, idx) && HostsAre(d, images, network, hosts, idx)
  }

  ghost predicate HostsAre(d: Definition, images: seq<Image>, network: Network, hosts: seq<HostNode>, idx: seq<nat>) {
    && |hosts| == |idx|
    && forall j :: 0 <= j < |idx| ==>
         idx[j] < |d.netMappings| && HostRight(d, images, network, d.netMappings[idx[j]], hosts[j])
  }

  ghost predicate SubnetRight(d: Definition, images: seq<Image>, name: string, s: Subnet) {
    exists k :: 0 <= k < |d.networks| && d.networks[k].name == name && s.name == name
                && s.cidr == d.networks[k].cidr && HostsDisplayed(d, images, d.networks[k], s.hosts)
  }

  /** The mappings of the router to networks that are neither hidden nor called "wan", in order. */
  ghost predicate SubnetPick(d: Definition, router: string, idx: seq<nat>) {
    && Increasing(idx)
    && forall j: nat :: j in idx <==>
         (j < |d.routerMappings| && d.routerMappings[j].node == router && NetworkOpen(d, d.routerMappings[j].network))
  }

  ghost predicate SubnetsAre(d: Definition, images: seq<Image>, subnets: seq<Subnet>, idx: seq<nat>) {
    && |subnets| == |idx|
    && forall j :: 0 <= j < |idx| ==>
         idx[j] < |d.routerMappings| && SubnetRight(d, images, d.routerMappings[idx[j]].network, subnets[j])
  }

  ghost predicate RouterRight(d: Definition, images: seq<Image>, r: Router, n: RouterNode) {
    && n.name == r.name && Looks(images, r.image, n.osType, n.gui) && n.ip == None
    && exists idx: seq<nat> :: SubnetPick(d, r.name, idx) && SubnetsAre(d, images, n.subnets, idx)
  }

  /** The routers that are not hidden, in order. */
  ghost predicate RouterPick(d: Definition, idx: seq<nat>) {
    && Increasing(idx)
    && forall j: nat :: j in idx <==> j < |d.routers| && !d.routers[j].hidden
  }

  /** What the user sees: the routers that are not hidden, under each its networks that are neither hidden nor called
      "wan", under each of these its hosts that are not hidden, all with their attributes and in the order of the
      definition. */
  ghost predicate Displays(d: Definition, images: seq<Image>, nodes: seq<RouterNode>) {
    exists idx: seq<nat> :: RouterPick(d, idx) && |nodes| == |idx|
      && forall j :: 0 <= j < |idx| ==> idx[j] < |d.routers| && RouterRight(d, images, d.routers[idx[j]], nodes[j])
  }

  // ---------------------------------------------------------------- the builder

  class Topology {
    const instance: TopologyInstance
    const images: seq<Image>
    var routers: seq<RouterNode>

    constructor (instance: TopologyInstance, images: seq<Image>)
      ensures this.instance == instance && this.images == images && routers == []
    {
      this.instance, this.images, routers := instance, images, [];
    }

    /** `get_visible_networks`, by name. */
    method GetVisibleNetworks() returns (networks: seq<string>)
      requires Separate(instance.definition)
      ensures forall n :: n in networks <==> n == instance.definition.wan.name || Attached(instance.definition, n)
    {
      var d := instance.definition;
      var visible := OpenRouters(d);
      networks := [];
      for i := 0 to |d.routerMappings|
        invariant forall n :: n in networks <==>
          !NetworkOf(d, n).hidden
          && exists j :: 0 <= j < i && d.routerMappings[j].network == n && d.routerMappings[j].node in visible
      {
        if d.routerMappings[i].node in visible && !NetworkOf(d, d.routerMappings[i].network).hidden {
          networks := networks + [d.routerMappings[i].network];
        }
      }
      networks := networks + [d.wan.name];
    }

    /** `get_visible_hosts`: duplicates are dropped. */
    method GetVisibleHosts() returns (hosts: set<string>)
      requires Separate(instance.definition)
      ensures forall n :: n in hosts <==> n in OpenHosts(instance.definition) && Placed(instance.definition, n)
    {
      var d := instance.definition;
      var networks := GetVisibleNetworks();
      hosts := {};
      for i := 0 to |d.netMappings|
        invariant forall n :: n in hosts <==>
          n in OpenHosts(d)
          && exists j :: 0 <= j < i && d.netMappings[j].node == n && d.netMappings[j].network in networks
      {
        if d.netMappings[i].node in OpenHosts(d) && d.netMappings[i].network in networks {
          hosts := hosts + {d.netMappings[i].node};
        }
      }
      NotTheWan(d);
    }

    /** `_get_hosts_for_network` over the links found; false stands for the exception on a missing image. */
    method HostNodes(links: seq<Link>, network: string) returns (ok: bool, hosts: seq<HostNode>)
      ensures ok <==> forall i :: 0 <= i < |links| ==>
                FindImage(images, HostImage(instance.definition, links[i].node)).Some?
      ensures ok ==> |hosts| == |links|
      ensures ok ==> forall i :: 0 <= i < |links| ==>
                hosts[i] == HostNodeOf(instance.definition, images, links[i].node, network, links[i].ip)
    {
      var d := instance.definition;
      hosts := [];
      for i := 0 to |links|
        invariant |hosts| == i
        invariant forall j :: 0 <= j < i ==> FindImage(images, HostImage(d, links[j].node)).Some?
        invariant forall j :: 0 <= j < i ==> hosts[j] == HostNodeOf(d, images, links[j].node, network, links[j].ip)
      {
        var found := FindImage(images, HostImage(d, links[i].node));
        if found.None? {
          return false, [];
        }
        hosts := hosts + [HostNode(links[i].node, found.value.osType, found.value.gui, NetworkOf(d, network).accessible,
            links[i].ip)];
      }
      ok := true;
    }

    /** `_get_hosts_for_network`. */
    method GetHostsForNetwork(network: string) returns (ok: bool, hosts: seq<HostNode>)
      requires instance.Indexed() && Separate(instance.definition)
      requires network == instance.definition.wan.name
                 || (network in NetworkNames(instance.definition.networks) && Attached(instance.definition, network))
      ensures ok <==> network == instance.definition.wan.name || HostImagesFound(instance.definition, images, network)
      ensures ok && network != instance.definition.wan.name ==> hosts == HostsIn(instance.definition, images, network)
    {
      var visible := GetVisibleHosts();
      var links := instance.GetNetworkLinks(network, visible);
      OpenHostsNamed(instance.definition);
      if network == instance.definition.wan.name {
        NoHostsOnWan(instance.definition, visible);
      } else {
        VisibleOnNetwork(instance.definition, images, network, visible);
      }
      ok, hosts := HostNodes(links, network);
    }

    /** One turn of `_create_subnets_with_hosts`. */
    method AddSubnet(network: string, subnets: map<string, Subnet>, ghost before: seq<string>)
      returns (ok: bool, more: map<string, Subnet>)
      requires instance.Indexed() && Separate(instance.definition)
      requires network == instance.definition.wan.name
                 || (network in NetworkNames(instance.definition.networks) && Attached(instance.definition, network))
      requires Collected(instance.definition, images, before, subnets)
      ensures !ok ==> network != instance.definition.wan.name && !IsWan(network)
      ensures !ok ==> !HostImagesFound(instance.definition, images, network)
      ensures ok ==> Collected(instance.definition, images, before + [network], more)
    {
      if IsWan(network) {
        return true, subnets;
      }
      var hosts;
      ok, hosts := GetHostsForNetwork(network);
      more := subnets[network := Subnet(network, NetworkOf(instance.definition, network).cidr, hosts)];
    }

    /** `_create_subnets_with_hosts`. */
    method CreateSubnetsWithHosts() returns (ok: bool, subnets: map<string, Subnet>)
      requires instance.Indexed() && Separate(instance.definition)
      ensures ok <==> forall n :: Attached(instance.definition, n) && !IsWan(n) ==>
                HostImagesFound(instance.definition, images, n)
      ensures ok ==> Subnets(instance.definition, images, subnets)
    {
      var d := instance.definition;
      var networks := GetVisibleNetworks();
      subnets := map[];
      AttachedNamed(d);
      for i := 0 to |networks|
        invariant Collected(d, images, networks[..i], subnets)
      {
        assert networks[i] in networks && networks[..i + 1] == networks[..i] + [networks[i]];
        ok, subnets := AddSubnet(networks[i], subnets, networks[..i]);
        if !ok {
          return;
        }
      }
      assert networks[..|networks|] == networks;
      CollectedAll(d, images, networks, subnets);
      ok := true;
    }

    /** `_get_subnets_for_router`, over the links found. */
    method SubnetsOver(links: seq<Link>, subnets: map<string, Subnet>, ghost ms: seq<Mapping>)
      returns (found: seq<Subnet>)
      requires Same(links, ms) && Subnets(instance.definition, images, subnets)
      requires forall j :: 0 <= j < |ms| ==> ms[j].network in NetworkNames(instance.definition.networks)
      requires forall j :: 0 <= j < |ms| ==>
                 (Attached(instance.definition, ms[j].network) <==>
                     !NetworkOf(instance.definition, ms[j].network).hidden)
      ensures found == SubnetsFor(instance.definition, images, ms)
    {
      found := [];
      for j := 0 to |links|
        invariant found == SubnetsFor(instance.definition, images, ms[..j])
      {
        assert ms[..j + 1][..j] == ms[..j];
        if !IsWan(links[j].network) && links[j].network in subnets {
          found := found + [subnets[links[j].network]];
        }
      }
      assert ms[..|ms|] == ms;
    }

    /** `_get_subnets_for_router`. */
    method GetSubnetsForRouter(i: nat, subnets: map<string, Subnet>) returns (found: seq<Subnet>)
      requires instance.Indexed() && Separate(instance.definition) && i < |instance.definition.routers|
      requires !instance.definition.routers[i].hidden && Subnets(instance.definition, images, subnets)
      ensures found == SubnetsFor(instance.definition, images,
                MappingsOf(instance.definition.routerMappings, instance.definition.routers[i].name))
    {
      var d := instance.definition;
      ghost var ms := MappingsOf(d.routerMappings, d.routers[i].name);
      RouterNamed(d, i);
      var links := instance.GetNodeLinks(d.routers[i].name, NetworkNames(d.networks));
      RouterLinksMapped(d, i);
      forall j | 0 <= j < |ms|
        ensures ms[j].network in NetworkNames(d.networks)
                  && (Attached(d, ms[j].network) <==> !NetworkOf(d, ms[j].network).hidden)
      {
        MappingAttached(d, i, j);
      }
      found := SubnetsOver(links, subnets, ms);
    }

    /** `_create_routers_with_subnets`, for a router that is not hidden. */
    method MakeRouter(i: nat, subnets: map<string, Subnet>) returns (router: Option<RouterNode>)
      requires instance.Indexed() && Separate(instance.definition) && i < |instance.definition.routers|
      requires !instance.definition.routers[i].hidden && Subnets(instance.definition, images, subnets)
      ensures router == if FindImage(images, instance.definition.routers[i].image).None? then None
                        else Some(RouterNodeOf(instance.definition, images, i))
    {
      var d := instance.definition;
      var image := FindImage(images, d.routers[i].image);
      if image.None? {
        return None;
      }
      var found := GetSubnetsForRouter(i, subnets);
      RouterNamed(d, i);
      RouterWanLink(d, i);
      var raised, wan := instance.GetLinkBetween(d.routers[i].name, d.wan.name);
      router := Some(RouterNode(d.routers[i].name, image.value.osType, image.value.gui, found,
                                if wan.Some? then wan.value.ip else None));
    }

    /** One turn of `_create_routers_with_subnets`. */
    method NextRouter(i: nat, subnets: map<string, Subnet>, nodes: seq<RouterNode>)
      returns (ok: bool, more: seq<RouterNode>)
      requires instance.Indexed() && Separate(instance.definition) && i < |instance.definition.routers|
      requires Subnets(instance.definition, images, subnets)
      requires Shows(instance.definition, images, OpenIndices(instance.definition, i), nodes)
      ensures ok <==>
              (instance.definition.routers[i].hidden
               || FindImage(images, instance.definition.routers[i].image).Some?)
      ensures ok ==> Shows(instance.definition, images, OpenIndices(instance.definition, i + 1), more)
    {
      if instance.definition.routers[i].hidden {
        return true, nodes;
      }
      var router := MakeRouter(i, subnets);
      if router.None? {
        return false, nodes;
      }
      return true, nodes + [router.value];
    }

    /** `_create_routers_with_subnets`. */
    method CreateRoutersWithSubnets(subnets: map<string, Subnet>) returns (ok: bool, nodes: seq<RouterNode>)
      requires instance.Indexed() && Separate(instance.definition)
      requires Subnets(instance.definition, images, subnets)
      ensures ok <==> RouterImagesFound(instance.definition, images, |instance.definition.routers|)
      ensures ok ==> Shows(instance.definition, images, OpenIndices(instance.definition, |instance.definition.routers|),
                nodes)
    {
      nodes := [];
      for i := 0 to |instance.definition.routers|
        invariant RouterImagesFound(instance.definition, images, i)
        invariant Shows(instance.definition, images, OpenIndices(instance.definition, i), nodes)
      {
        ok, nodes := NextRouter(i, subnets, nodes);
        if !ok {
          return;
        }
      }
      ok := true;
    }

    /** `_build_topology`: raises exactly when an image is missing, and otherwise shows what the
        specification says. */
    method BuildTopology() returns (ok: bool)
      requires instance.Indexed() && Validators.AcceptedTopology(instance.definition) && Unreserved(instance.definition)
      requires routers == []
      modifies this`routers
      ensures ok <==> !ImageMissing(instance.definition, images)
      ensures ok ==> Displays(instance.definition, images, routers)
      ensures ok ==> Shows(instance.definition, images, OpenIndices(instance.definition, |instance.definition.routers|),
                routers)
    {
      AcceptedSeparate(instance.definition);
      ImagesFoundIff(instance.definition, images);
      var found, subnets := CreateSubnetsWithHosts();
      if !found {
        return false;
      }
      var nodes;
      ok, nodes := CreateRoutersWithSubnets(subnets);
      if ok {
        routers := nodes;
        ShownDisplays(instance.definition, images, nodes);
      }
    }
  }

  /** The dictionary of subnets. */
  ghost predicate Subnets(d: Definition, images: seq<Image>, subnets: map<string, Subnet>) {
    forall n :: n in NetworkNames(d.networks) ==>
      && (n in subnets <==> Attached(d, n) && !IsWan(n))
      && (n in subnets ==> subnets[n] == SubnetOf(d, images, n))
  }

  /** The subnets collected for the given networks. */
  ghost predicate Collected(d: Definition, images: seq<Image>, networks: seq<string>, subnets: map<string, Subnet>) {
    && (forall n :: n in subnets <==> n in networks && !IsWan(n))
    && forall n :: n in subnets && n != d.wan.name ==>
         subnets[n] == SubnetOf(d, images, n) && HostImagesFound(d, images, n)
  }

  lemma CollectedAll(d: Definition, images: seq<Image>, networks: seq<string>, subnets: map<string, Subnet>)
    requires Separate(d) && Collected(d, images, networks, subnets)
    requires forall n :: n in networks <==> n == d.wan.name || Attached(d, n)
    ensures Subnets(d, images, subnets)
    ensures forall n :: Attached(d, n) && !IsWan(n) ==> HostImagesFound(d, images, n)
  {
    AttachedNamed(d);
  }

  // ---------------------------------------------------------------- lemmas of the builder

  lemma OpenHostsNamed(d: Definition)
    ensures forall n :: n in OpenHosts(d) ==> n in HostNames(d)
  {
    forall n | n in OpenHosts(d) ensures n in HostNames(d) {
      var i :| 0 <= i < |d.hosts| && d.hosts[i].name == n;
      assert HostNames(d)[i] == n;
    }
  }

  lemma NotTheWan(d: Definition)
    requires Separate(d)
    ensures forall i :: 0 <= i < |d.netMappings| ==> d.netMappings[i].network != d.wan.name
  {
  }

  lemma AttachedNamed(d: Definition)
    requires Separate(d)
    ensures forall n :: Attached(d, n) ==> n in NetworkNames(d.networks)
  {
  }

  lemma RouterNamed(d: Definition, i: nat)
    requires i < |d.routers|
    ensures d.routers[i].name in NodeNames(d)
    ensures !d.routers[i].hidden ==> d.routers[i].name in OpenRouters(d)
  {
    assert RouterNames(d)[i] in RouterNames(d);
  }

  /** On an attached network the filter by visible hosts lets through exactly the hosts that are not hidden. */
  lemma VisibleOnNetwork(d: Definition, images: seq<Image>, network: string, visible: set<string>)
    requires Separate(d) && network in NetworkNames(d.networks) && Attached(d, network)
    requires forall n :: n in visible <==> n in OpenHosts(d) && Placed(d, n)
    ensures Same(AtNodes(AtNetwork(LinksOf(d), network), visible), MappingsOn(d.netMappings, network, OpenHosts(d)))
  {
    OpenHostsNamed(d);
    HostsOnNetwork(d, network, visible);
    MappingsOnAgree(d.netMappings, network, visible, OpenHosts(d));
  }

  /** A network mapped to a router that is not hidden is attached unless it is hidden. */
  lemma MappingAttached(d: Definition, i: nat, j: nat)
    requires Separate(d) && i < |d.routers| && !d.routers[i].hidden
    requires j < |MappingsOf(d.routerMappings, d.routers[i].name)|
    ensures var n := MappingsOf(d.routerMappings, d.routers[i].name)[j].network;
            n in NetworkNames(d.networks) && (Attached(d, n) <==> !NetworkOf(d, n).hidden)
  {
    var m := MappingsOf(d.routerMappings, d.routers[i].name)[j];
    MappingsOfIn(d.routerMappings, d.routers[i].name);
    RouterNamed(d, i);
    var k :| 0 <= k < |d.routerMappings| && d.routerMappings[k] == m;
  }

  // ---------------------------------------------------------------- the specification read off

  /** A router is shown exactly when it is not hidden. */
  lemma {:induction false} RouterShown(d: Definition, n: nat, i: nat)
    requires n <= |d.routers|
    ensures i in OpenIndices(d, n) <==> i < n && !d.routers[i].hidden
  {
    if n > 0 {
      RouterShown(d, n - 1, i);
    }
  }

  /** Under it a network is shown exactly when it is linked, not hidden and not called "wan". */
  lemma {:induction false} NetworkShown(d: Definition, images: seq<Image>, ms: seq<Mapping>, name: string)
    ensures (exists s :: s in SubnetsFor(d, images, ms) && s.name == name)
            <==> ShownNetwork(d, name) && exists m :: m in ms && m.network == name
  {
    if ms != [] {
      var init, last := ms[..|ms| - 1], ms[|ms| - 1];
      NetworkShown(d, images, init, name);
      assert ms == init + [last];
      if ShownNetwork(d, last.network) {
        assert SubnetOf(d, images, last.network) in SubnetsFor(d, images, ms);
      }
    }
  }

  /** Under that a host is shown exactly when it is linked and not hidden. */
  lemma HostShown(d: Definition, images: seq<Image>, network: string, name: string)
    ensures (exists h :: h in HostsIn(d, images, network) && h.name == name)
            <==> name in OpenHosts(d) && exists m :: m in d.netMappings && m.network == network && m.node == name
  {
    var ms := MappingsOn(d.netMappings, network, OpenHosts(d));
    MappingsOnIn(d.netMappings, network, OpenHosts(d));
    if h :| h in HostsIn(d, images, network) && h.name == name {
      var i :| 0 <= i < |ms| && HostsIn(d, images, network)[i] == h;
      assert ms[i] in ms;
    }
    if m :| m in d.netMappings && m.network == network && m.node == name && name in OpenHosts(d) {
      var i :| 0 <= i < |ms| && ms[i] == m;
      assert HostsIn(d, images, network)[i].name == name;
    }
  }

  // ---------------------------------------------------------------- the specification in terms of the definition

  lemma {:induction false} FindImageIff(images: seq<Image>, name: string)
    ensures FindImage(images, name).Some? <==> HasImage(images, name)
    ensures FindImage(images, name).Some? ==>
              var image := FindImage(images, name).value; Looks(images, name, image.osType, image.gui)
  {
    if images != [] && images[0].name != name {
      var rest := images[1..];
      FindImageIff(rest, name);
      if k :| 0 <= k < |images| && images[k].name == name { assert rest[k - 1] == images[k]; }
      if FindImage(rest, name).Some? {
        var image := FindImage(rest, name).value;
        var k :| 0 <= k < |rest| && rest[k] == Image(name, image.osType, image.gui)
                 && forall j :: 0 <= j < k ==> rest[j].name != name;
        assert images[k + 1] == rest[k];
        forall j | 0 <= j < k + 1 ensures images[j].name != name {
          if j > 0 { assert images[j] == rest[j - 1]; }
        }
      }
    } else if images != [] {
      assert images[0] == Image(name, images[0].osType, images[0].gui);
    }
  }

  lemma WanIff(name: string)
    ensures IsWan(name) <==> CalledWan(name)
  {
  }

  lemma FindHost(d: Definition, i: nat)
    requires Distinct(HostNames(d)) && i < |d.hosts|
    ensures HostImage(d, d.hosts[i].name) == d.hosts[i].image
  {
    var name := d.hosts[i].name;
    assert HostName(d.hosts[i]) == name;
    IndexFinds(d.hosts, HostName, name);
    var k :| 0 <= k < |d.hosts| && HostName(d.hosts[k]) == name && IndexOf(d.hosts, HostName)[name] == d.hosts[k];
    assert HostNames(d)[i] == HostNames(d)[k];
  }

  lemma ShownNetworkIff(d: Definition, name: string)
    requires Separate(d) && name in NetworkNames(d.networks)
    ensures ShownNetwork(d, name) <==> NetworkOpen(d, name)
  {
    WanIff(name);
    var k := FindNetwork(d, name);
    forall j | 0 <= j < |d.networks| && d.networks[j].name == name ensures j == k {
      assert NetworkNames(d.networks)[j] == NetworkNames(d.networks)[k];
    }
  }

  lemma AttachedIff(d: Definition, name: string)
    requires Separate(d) && !CalledWan(name) && name in NetworkNames(d.networks)
    ensures Attached(d, name) <==> NetworkOpen(d, name) && Reached(d, name)
  {
    WanIff(name);
    ShownNetworkIff(d, name);
  }

  // ---------------------------------------------------------------- missing images

  lemma HostImageMissing(d: Definition, images: seq<Image>, network: string, m: Mapping)
    requires Separate(d) && Attached(d, network) && !IsWan(network)
    requires m in MappingsOn(d.netMappings, network, OpenHosts(d)) && FindImage(images, HostImage(d, m.node)).None?
    ensures ImageMissing(d, images)
  {
    MappingsOnIn(d.netMappings, network, OpenHosts(d));
    var j :| 0 <= j < |d.netMappings| && d.netMappings[j] == m;
    var i :| 0 <= i < |d.hosts| && !d.hosts[i].hidden && d.hosts[i].name == m.node;
    FindHost(d, i);
    FindImageIff(images, d.hosts[i].image);
    WanIff(network);
    AttachedNamed(d);
    AttachedIff(d, network);
  }

  lemma MissingHostImage(d: Definition, images: seq<Image>, i: nat, j: nat)
    requires Separate(d) && i < |d.hosts| && !d.hosts[i].hidden && !HasImage(images, d.hosts[i].image)
    requires j < |d.netMappings| && d.netMappings[j].node == d.hosts[i].name
    requires NetworkOpen(d, d.netMappings[j].network) && Reached(d, d.netMappings[j].network)
    ensures !ImagesFound(d, images)
  {
    var m := d.netMappings[j];
    var k :| 0 <= k < |d.networks| && d.networks[k].name == m.network;
    assert NetworkNames(d.networks)[k] == m.network;
    WanIff(m.network);
    AttachedIff(d, m.network);
    MappingsOnIn(d.netMappings, m.network, OpenHosts(d));
    FindHost(d, i);
    FindImageIff(images, d.hosts[i].image);
    assert m in MappingsOn(d.netMappings, m.network, OpenHosts(d));
    assert !HostImagesFound(d, images, m.network);
  }

  lemma ImagesFoundIff(d: Definition, images: seq<Image>)
    requires Separate(d)
    ensures ImagesFound(d, images) <==> !ImageMissing(d, images)
  {
    forall i | 0 <= i < |d.routers|
      ensures FindImage(images, d.routers[i].image).Some? <==> HasImage(images, d.routers[i].image)
    {
      FindImageIff(images, d.routers[i].image);
    }
    if i, j :| 0 <= i < |d.hosts| && !d.hosts[i].hidden && !HasImage(images, d.hosts[i].image)
               && 0 <= j < |d.netMappings| && d.netMappings[j].node == d.hosts[i].name
               && NetworkOpen(d, d.netMappings[j].network) && Reached(d, d.netMappings[j].network) {
      MissingHostImage(d, images, i, j);
    }
    if network, m :| Attached(d, network) && !IsWan(network)
                     && m in MappingsOn(d.netMappings, network, OpenHosts(d))
                     && FindImage(images, HostImage(d, m.node)).None? {
      HostImageMissing(d, images, network, m);
    }
  }

  // ---------------------------------------------------------------- what is displayed

  lemma {:induction false} MappingsOnPicks(ms: seq<Mapping>, network: string, nodes: set<string>)
    returns (idx: seq<nat>)
    ensures Increasing(idx) && |idx| == |MappingsOn(ms, network, nodes)|
    ensures forall j :: 0 <= j < |idx| ==> idx[j] < |ms| && MappingsOn(ms, network, nodes)[j] == ms[idx[j]]
    ensures forall i: nat :: i in idx <==> i < |ms| && ms[i].network == network && ms[i].node in nodes
  {
    idx := [];
    if ms != [] {
      var init, last := ms[..|ms| - 1], |ms| - 1;
      idx := MappingsOnPicks(init, network, nodes);
      assert forall i :: 0 <= i < last ==> init[i] == ms[i];
      if ms[last].network == network && ms[last].node in nodes {
        idx := idx + [last];
      }
    }
  }

  lemma HostNodeRight(d: Definition, images: seq<Image>, k: nat, m: Mapping)
    requires Separate(d) && k < |d.networks| && HostImagesFound(d, images, d.networks[k].name)
    requires m in MappingsOn(d.netMappings, d.networks[k].name, OpenHosts(d))
    ensures HostRight(d, images, d.networks[k], m, HostNodeOf(d, images, m.node, d.networks[k].name, Some(m.ip)))
  {
    var name := d.networks[k].name;
    MappingsOnIn(d.netMappings, name, OpenHosts(d));
    var i :| 0 <= i < |d.hosts| && !d.hosts[i].hidden && d.hosts[i].name == m.node;
    FindHost(d, i);
    FindImageIff(images, d.hosts[i].image);
    NetworkByName(d, k);
  }

  lemma NetworkByName(d: Definition, k: nat)
    requires Separate(d) && k < |d.networks|
    ensures d.networks[k].name in NetworkNames(d.networks) && NetworkOf(d, d.networks[k].name) == d.networks[k]
  {
    assert NetworkNames(d.networks)[k] == d.networks[k].name;
    var j := FindNetwork(d, d.networks[k].name);
    assert NetworkNames(d.networks)[j] == NetworkNames(d.networks)[k];
  }

  lemma HostsInDisplayed(d: Definition, images: seq<Image>, k: nat)
    requires Separate(d) && k < |d.networks| && HostImagesFound(d, images, d.networks[k].name)
    ensures HostsDisplayed(d, images, d.networks[k], HostsIn(d, images, d.networks[k].name))
  {
    var network := d.networks[k];
    var ms := MappingsOn(d.netMappings, network.name, OpenHosts(d));
    var idx := MappingsOnPicks(d.netMappings, network.name, OpenHosts(d));
    forall j | 0 <= j < |idx|
      ensures HostRight(d, images, network, d.netMappings[idx[j]], HostsIn(d, images, network.name)[j])
    {
      assert ms[j] in ms;
      HostNodeRight(d, images, k, ms[j]);
    }
    assert HostPick(d, network.name, idx);
    assert HostsAre(d, images, network, HostsIn(d, images, network.name), idx);
  }

  lemma SubnetOfRight(d: Definition, images: seq<Image>, name: string)
    requires Separate(d) && name in NetworkNames(d.networks) && HostImagesFound(d, images, name)
    ensures SubnetRight(d, images, name, SubnetOf(d, images, name))
  {
    var k := FindNetwork(d, name);
    HostsInDisplayed(d, images, k);
  }

  lemma SubnetsNext(d: Definition, images: seq<Image>, ms: seq<Mapping>, router: string)
    requires ms != []
    ensures var init, last := ms[..|ms| - 1], ms[|ms| - 1];
            SubnetsFor(d, images, MappingsOf(ms, router))
            == SubnetsFor(d, images, MappingsOf(init, router))
               + (if last.node == router && ShownNetwork(d, last.network) then [SubnetOf(d, images, last.network)]
                  else [])
  {
    var own, last := MappingsOf(ms[..|ms| - 1], router), ms[|ms| - 1];
    if last.node == router {
      assert (own + [last])[..|own|] == own;
    } else {
      assert MappingsOf(ms, router) == own;
    }
  }

  /** The positions of the mappings of a router to shown networks. */
  function Picked(d: Definition, ms: seq<Mapping>, router: string): seq<nat> {
    if ms == [] then []
    else
      var init, last := ms[..|ms| - 1], |ms| - 1;
      if ms[last].node == router && ShownNetwork(d, ms[last].network) then Picked(d, init, router) + [last]
      else Picked(d, init, router)
  }

  lemma {:induction false} PickedExactly(d: Definition, ms: seq<Mapping>, router: string)
    ensures Increasing(Picked(d, ms, router))
    ensures forall j :: 0 <= j < |Picked(d, ms, router)| ==> Picked(d, ms, router)[j] < |ms|
    ensures forall i: nat ::
              i in Picked(d, ms, router) <==> i < |ms| && ms[i].node == router && ShownNetwork(d, ms[i].network)
  {
    if ms != [] {
      PickedExactly(d, ms[..|ms| - 1], router);
      assert forall i :: 0 <= i < |ms| - 1 ==> ms[..|ms| - 1][i] == ms[i];
    }
  }

  /** The subnets under a router are those of its mappings to shown networks, in order. */
  lemma {:induction false} SubnetsPicks(d: Definition, images: seq<Image>, ms: seq<Mapping>, router: string)
    ensures forall j :: 0 <= j < |Picked(d, ms, router)| ==> Picked(d, ms, router)[j] < |ms|
    ensures |Picked(d, ms, router)| == |SubnetsFor(d, images, MappingsOf(ms, router))|
    ensures forall j :: 0 <= j < |Picked(d, ms, router)| ==>
              SubnetsFor(d, images, MappingsOf(ms, router))[j]
              == SubnetOf(d, images, ms[Picked(d, ms, router)[j]].network)
  {
    if ms != [] {
      SubnetsPicks(d, images, ms[..|ms| - 1], router);
      SubnetsNext(d, images, ms, router);
      assert forall i :: 0 <= i < |ms| - 1 ==> ms[..|ms| - 1][i] == ms[i];
    }
  }

  lemma RouterNodeRight(d: Definition, images: seq<Image>, i: nat)
    requires Separate(d) && ImagesFound(d, images) && i < |d.routers| && !d.routers[i].hidden
    ensures RouterRight(d, images, d.routers[i], RouterNodeOf(d, images, i))
  {
    var router := d.routers[i];
    FindImageIff(images, router.image);
    var subnets := SubnetsFor(d, images, MappingsOf(d.routerMappings, router.name));
    var idx := Picked(d, d.routerMappings, router.name);
    PickedExactly(d, d.routerMappings, router.name);
    SubnetsPicks(d, images, d.routerMappings, router.name);
    forall j: nat | j < |d.routerMappings|
      ensures ShownNetwork(d, d.routerMappings[j].network) <==> NetworkOpen(d, d.routerMappings[j].network)
    {
      ShownNetworkIff(d, d.routerMappings[j].network);
    }
    assert SubnetPick(d, router.name, idx);
    forall j | 0 <= j < |idx| ensures SubnetRight(d, images, d.routerMappings[idx[j]].network, subnets[j]) {
      assert idx[j] in idx;
      RouterSubnetRight(d, images, i, idx[j]);
    }
    assert SubnetsAre(d, images, subnets, idx);
  }

  lemma RouterSubnetRight(d: Definition, images: seq<Image>, i: nat, j: nat)
    requires Separate(d) && ImagesFound(d, images) && i < |d.routers| && !d.routers[i].hidden
    requires j < |d.routerMappings| && d.routerMappings[j].node == d.routers[i].name
    requires ShownNetwork(d, d.routerMappings[j].network)
    ensures SubnetRight(d, images, d.routerMappings[j].network, SubnetOf(d, images, d.routerMappings[j].network))
  {
    RouterNamed(d, i);
    assert Attached(d, d.routerMappings[j].network);
    SubnetOfRight(d, images, d.routerMappings[j].network);
  }

  lemma {:induction false} OpenIncreasing(d: Definition, n: nat)
    requires n <= |d.routers|
    ensures Increasing(OpenIndices(d, n))
  {
    if n > 0 { OpenIncreasing(d, n - 1); }
  }

  lemma ShownDisplays(d: Definition, images: seq<Image>, nodes: seq<RouterNode>)
    requires Separate(d) && ImagesFound(d, images) && Shows(d, images, OpenIndices(d, |d.routers|), nodes)
    ensures Displays(d, images, nodes)
  {
    var idx := OpenIndices(d, |d.routers|);
    OpenIncreasing(d, |d.routers|);
    forall j: nat ensures j in idx <==> j < |d.routers| && !d.routers[j].hidden { RouterShown(d, |d.routers|, j); }
    assert RouterPick(d, idx);
    forall j | 0 <= j < |idx| ensures RouterRight(d, images, d.routers[idx[j]], nodes[j]) {
      assert idx[j] in idx;
      RouterNodeRight(d, images, idx[j]);
    }
  }
}

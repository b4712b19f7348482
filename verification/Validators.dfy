/** The validators of topology definitions, and what they accept. */
module Validators {
  import opened Wrappers
  import opened TopologyModel
  import Cidr

  datatype Outcome = Accepted | ValueError | KeyError

  // ---------------------------------------------------------------- duplicates

  function Elements<T(==)>(s: seq<T>): set<T> {
    set x | x in s
  }

  lemma {:induction false} ElementsSize<T>(s: seq<T>)
    ensures |Elements(s)| <= |s|
    ensures |Elements(s)| == |s| <==> Distinct(s)
  {
    if s != [] {
      var init, last := s[..|s| - 1], s[|s| - 1];
      ElementsSize(init);
      assert Elements(s) == Elements(init) + {last};
      assert forall i :: 0 <= i < |init| ==> init[i] == s[i];
      if last in init {
        assert Elements(s) == Elements(init);
      }
    }
  }

  lemma {:induction false} Occurrences<T>(s: seq<T>, x: T)
    ensures multiset(s)[x] >= 2 <==> exists i, j :: 0 <= i < j < |s| && s[i] == x && s[j] == x
  {
    if s != [] {
      var init, last := s[..|s| - 1], s[|s| - 1];
      Occurrences(init, x);
      assert s == init + [last];
      if i, j :| 0 <= i < j < |s| && s[i] == x && s[j] == x {
        assert x in init by { assert init[i] == x; }
        if j < |init| { assert init[i] == x && init[j] == x; }
      }
      if multiset(s)[x] >= 2 && last == x {
        assert x in init;
        var i :| 0 <= i < |init| && init[i] == x;
        assert s[i] == x && s[|s| - 1] == x;
      }
    }
  }

  /** `get_duplicates`: exactly the elements that occur at least twice. */
  method GetDuplicates<T(==)>(elements: seq<T>) returns (duplicates: set<T>)
    ensures forall x :: x in duplicates <==> multiset(elements)[x] >= 2
  {
    duplicates := {};
    var unique := Elements(elements);
    ElementsSize(elements);
    if |elements| > |unique| {
      var i := 0;
      while i < |elements|
        invariant 0 <= i <= |elements|
        invariant forall x :: x in unique <==> x in elements && x !in elements[..i]
        invariant forall x :: x in duplicates <==> multiset(elements[..i])[x] >= 2
      {
        assert elements[..i + 1] == elements[..i] + [elements[i]];
        if elements[i] !in unique {
          duplicates := duplicates + {elements[i]};
        } else {
          unique := unique - {elements[i]};
        }
        i := i + 1;
      }
      assert elements[..i] == elements;
    } else {
      forall x ensures multiset(elements)[x] < 2 { Occurrences(elements, x); }
    }
  }

  lemma NoDuplicates<T>(s: seq<T>, duplicates: set<T>)
    requires forall x :: x in duplicates <==> multiset(s)[x] >= 2
    ensures duplicates == {} <==> Distinct(s)
  {
    if i, j :| 0 <= i < j < |s| && s[i] == s[j] {
      Occurrences(s, s[i]);
      assert s[i] in duplicates;
    }
    if x :| x in duplicates {
      Occurrences(s, x);
    }
  }

  // ---------------------------------------------------------------- overlaps

  /** No address lies in two of the networks. */
  ghost predicate AddressDisjoint(ns: seq<Network>) {
    forall i, j, a: nat :: 0 <= i < j < |ns| ==> !(ns[i].cidr.Contains(a) && ns[j].cidr.Contains(a))
  }

  type Entries = seq<(string, Cidr.Block)>

  function Position(entries: Entries, name: string): (at: Option<nat>)
    ensures at.Some? ==> at.value < |entries| && entries[at.value].0 == name
    ensures at.None? ==> forall i :: 0 <= i < |entries| ==> entries[i].0 != name
  {
    if entries == [] then None else
    var last := |entries| - 1;
    if entries[last].0 == name then Some(last) else Position(entries[..last], name)
  }

  /** Assignment to a dictionary entry: an existing key keeps its place. */
  function Put(entries: Entries, name: string, cidr: Cidr.Block): Entries {
    match Position(entries, name)
    case None => entries + [(name, cidr)]
    case Some(at) => entries[at := (name, cidr)]
  }

  function DictOf(ns: seq<Network>): Entries {
    if ns == [] then [] else
    var last := ns[|ns| - 1];
    Put(DictOf(ns[..|ns| - 1]), last.name, last.cidr)
  }

  lemma {:induction false} DictDistinct(ns: seq<Network>)
    requires Distinct(NetworkNames(ns))
    ensures |DictOf(ns)| == |ns| && forall m :: 0 <= m < |ns| ==> DictOf(ns)[m] == (ns[m].name, ns[m].cidr)
  {
    if ns != [] {
      var init, last := ns[..|ns| - 1], ns[|ns| - 1];
      assert forall m :: 0 <= m < |init| ==> NetworkNames(init)[m] == NetworkNames(ns)[m];
      DictDistinct(init);
      forall m | 0 <= m < |init| ensures DictOf(init)[m].0 != last.name {
        assert NetworkNames(ns)[m] != NetworkNames(ns)[|ns| - 1];
      }
    }
  }

  ghost predicate SomeOverlap(entries: Entries) {
    exists i, j :: 0 <= i < j < |entries| && entries[i].1.Overlaps(entries[j].1)
  }

  /** `raise_if_overlaps`: the networks are collected in a dictionary by name, then compared in pairs. */
  method RaiseIfOverlaps(ns: seq<Network>) returns (r: Outcome)
    ensures r == if SomeOverlap(DictOf(ns)) then ValueError else Accepted
  {
    var cidrs: Entries := [];
    for k := 0 to |ns|
      invariant cidrs == DictOf(ns[..k])
    {
      assert ns[..k + 1][..k] == ns[..k];
      cidrs := Put(cidrs, ns[k].name, ns[k].cidr);
    }
    assert ns[..|ns|] == ns;
    for i := 0 to |cidrs|
      invariant forall p, q :: 0 <= p < i && p < q < |cidrs| ==> !cidrs[p].1.Overlaps(cidrs[q].1)
    {
      for j := i + 1 to |cidrs|
        invariant forall q :: i < q < j ==> !cidrs[i].1.Overlaps(cidrs[q].1)
      {
        if cidrs[i].1.Overlaps(cidrs[j].1) {
          return ValueError;
        }
      }
    }
    r := Accepted;
  }

  /** With distinct names the check accepts exactly when no address lies in two networks. */
  lemma OverlapCheckExact(ns: seq<Network>)
    requires Distinct(NetworkNames(ns))
    ensures !SomeOverlap(DictOf(ns)) <==> AddressDisjoint(ns)
  {
    DictDistinct(ns);
    var e := DictOf(ns);
    forall i, j | 0 <= i < j < |ns|
      ensures e[i].1.Overlaps(e[j].1) <==> exists a: nat :: ns[i].cidr.Contains(a) && ns[j].cidr.Contains(a)
    {
      Cidr.OverlapsIff(ns[i].cidr, ns[j].cidr);
    }
  }

  // ---------------------------------------------------------------- membership

  /** The address of the last mapping that names the network. */
  function LastIp(mappings: seq<Mapping>, network: string): (ip: Option<nat>)
    ensures ip.Some? <==> exists i :: 0 <= i < |mappings| && mappings[i].network == network
  {
    if mappings == [] then None else
    var last := mappings[|mappings| - 1];
    if last.network == network then Some(last.ip) else LastIp(mappings[..|mappings| - 1], network)
  }

  function AddressOf(networks: seq<Network>): map<string, Network> {
    IndexOf(networks, NetworkName)
  }

  /** The check passes for a network name. */
  ghost predicate LastInside(mappings: seq<Mapping>, networks: seq<Network>, name: string) {
    LastIp(mappings, name).Some? ==>
      name in AddressOf(networks) && AddressOf(networks)[name].cidr.Contains(LastIp(mappings, name).value)
  }

  /** `raise_if_not_in_network`: one mapping per network survives in the dictionary, the last one. */
  method RaiseIfNotInNetwork(mappings: seq<Mapping>, networks: seq<Network>) returns (r: Outcome)
    ensures r == Accepted <==> forall name :: LastInside(mappings, networks, name)
    ensures r == KeyError ==> exists i :: 0 <= i < |mappings| && mappings[i].network !in AddressOf(networks)
  {
    var ips: map<string, nat> := map[];
    for k := 0 to |mappings|
      invariant forall name :: name in ips <==> LastIp(mappings[..k], name).Some?
      invariant forall name :: name in ips ==> Some(ips[name]) == LastIp(mappings[..k], name)
    {
      assert mappings[..k + 1][..k] == mappings[..k];
      ips := ips[mappings[k].network := mappings[k].ip];
    }
    assert mappings[..|mappings|] == mappings;
    var cidrs := AddressOf(networks);
    var todo := ips.Keys;
    while todo != {}
      invariant todo <= ips.Keys
      invariant forall name :: name in ips && name !in todo ==> LastInside(mappings, networks, name)
      decreases todo
    {
      var name :| name in todo;
      if name !in cidrs {
        assert !LastInside(mappings, networks, name);
        return KeyError;
      }
      if !cidrs[name].cidr.Contains(ips[name]) {
        assert !LastInside(mappings, networks, name);
        return ValueError;
      }
      todo := todo - {name};
    }
    r := Accepted;
  }

  ghost predicate AllInside(mappings: seq<Mapping>, networks: seq<Network>) {
    forall i :: 0 <= i < |mappings| ==>
      mappings[i].network in AddressOf(networks)
          && AddressOf(networks)[mappings[i].network].cidr.Contains(mappings[i].ip)
  }

  lemma {:induction false} LastIpIs(mappings: seq<Mapping>, name: string) returns (i: nat)
    requires LastIp(mappings, name).Some?
    ensures i < |mappings| && mappings[i].network == name && Some(mappings[i].ip) == LastIp(mappings, name)
    ensures forall j :: i < j < |mappings| ==> mappings[j].network != name
  {
    var last := |mappings| - 1;
    if mappings[last].network == name {
      i := last;
    } else {
      i := LastIpIs(mappings[..last], name);
    }
  }

  /** The check says that every mapping lies inside its network exactly for inputs in which every mapping
      that a later one for the same network shadows lies inside as well. */
  lemma MembershipCheckMisses(mappings: seq<Mapping>, networks: seq<Network>)
    requires forall name :: LastInside(mappings, networks, name)
    ensures AllInside(mappings, networks) <==>
            forall i, j :: 0 <= i < j < |mappings| && mappings[i].network == mappings[j].network ==>
              mappings[i].network in AddressOf(networks)
                  && AddressOf(networks)[mappings[i].network].cidr.Contains(mappings[i].ip)
  {
    forall i | 0 <= i < |mappings| && !(exists j :: i < j < |mappings| && mappings[j].network == mappings[i].network)
      ensures mappings[i].network in AddressOf(networks)
                && AddressOf(networks)[mappings[i].network].cidr.Contains(mappings[i].ip)
    {
      var name := mappings[i].network;
      var k := LastIpIs(mappings, name);
      assert k == i;
      assert LastInside(mappings, networks, name);
    }
  }

  /** Two mappings of one network, the first one outside of it: accepted. */
  lemma OutsideMappingAccepted()
    ensures var net := Network("lan", Cidr.Net(0, 31), true, false);
            var mappings := [Mapping("a", "lan", 9), Mapping("b", "lan", 1)];
            (forall name :: LastInside(mappings, [net], name)) && !AllInside(mappings, [net])
  {
    var net := Network("lan", Cidr.Net(0, 31), true, false);
    var mappings := [Mapping("a", "lan", 9), Mapping("b", "lan", 1)];
    assert Cidr.Pow2(1) == 2;
    assert mappings[..1] == [mappings[0]] && [mappings[0]][..0] == [];
    forall name ensures LastInside(mappings, [net], name) {
      assert LastIp(mappings, name) == if name == "lan" then Some(1) else None;
    }
    assert mappings[0].ip == 9;
  }

  // ---------------------------------------------------------------- unique addresses

  function Addresses(mappings: seq<Mapping>): seq<nat> {
    seq(|mappings|, i requires 0 <= i < |mappings| => mappings[i].ip)
  }

  lemma AddressesDistinct(mappings: seq<Mapping>)
    ensures Distinct(Addresses(mappings))
            <==> forall i, j :: 0 <= i < j < |mappings| ==> mappings[i].ip != mappings[j].ip
  {
    var ips := Addresses(mappings);
    assert forall i :: 0 <= i < |ips| ==> ips[i] == mappings[i].ip;
  }

  /** `raise_if_ip_not_unique`. */
  method RaiseIfIpNotUnique(mappings: seq<Mapping>) returns (r: Outcome)
    ensures r == if Distinct(Addresses(mappings)) then Accepted else ValueError
    ensures r == Accepted <==> forall i, j :: 0 <= i < j < |mappings| ==> mappings[i].ip != mappings[j].ip
  {
    AddressesDistinct(mappings);
    var ips := Addresses(mappings);
    var duplicates := GetDuplicates(ips);
    NoDuplicates(ips, duplicates);
    r := if duplicates == {} then Accepted else ValueError;
  }

  // ---------------------------------------------------------------- the whole definition

  function AllNames(d: Definition): seq<string> {
    [d.name] + HostNames(d) + RouterNames(d) + NetworkNames(d.networks) + [d.wan.name]
  }

  ghost predicate KnownMappings(mappings: seq<Mapping>, nodes: seq<string>, networks: seq<string>) {
    forall i :: 0 <= i < |mappings| ==> mappings[i].node in nodes && mappings[i].network in networks
  }

  /** What the validators guarantee about an accepted definition. */
  ghost predicate AcceptedTopology(d: Definition) {
    && Distinct(AllNames(d))
    && KnownMappings(d.netMappings, HostNames(d), NetworkNames(d.networks))
    && KnownMappings(d.routerMappings, RouterNames(d), NetworkNames(d.networks))
    && AddressDisjoint(d.networks + [d.wan])
    && (forall name :: LastInside(d.netMappings, d.networks, name))
    && (forall name :: LastInside(d.routerMappings, d.networks, name))
    && Distinct(Addresses(d.netMappings + d.routerMappings))
  }

  lemma DistinctParts<T>(s: seq<T>, lo: nat, hi: nat)
    requires Distinct(s) && lo <= hi <= |s|
    ensures Distinct(s[lo..hi])
  {
  }

  lemma NamesApart(d: Definition)
    requires Distinct(AllNames(d))
    ensures Distinct(NetworkNames(d.networks + [d.wan])) && Distinct(NetworkNames(d.networks))
    ensures Distinct(HostNames(d)) && Distinct(RouterNames(d))
  {
    var all, h, r, n := AllNames(d), |d.hosts|, |d.routers|, |d.networks|;
    DistinctParts(all, 1, 1 + h);
    DistinctParts(all, 1 + h, 1 + h + r);
    DistinctParts(all, 1 + h + r, 1 + h + r + n);
    DistinctParts(all, 1 + h + r, 1 + h + r + n + 1);
    assert all[1..1 + h] == HostNames(d);
    assert all[1 + h..1 + h + r] == RouterNames(d);
    assert all[1 + h + r..1 + h + r + n] == NetworkNames(d.networks);
    assert all[1 + h + r..1 + h + r + n + 1] == NetworkNames(d.networks + [d.wan]);
  }

  /** Hosts, routers, networks, the WAN and the definition itself all have different names. */
  ghost predicate NamesDiffer(d: Definition) {
    && (forall i, j :: 0 <= i < j < |d.hosts| ==> d.hosts[i].name != d.hosts[j].name)
    && (forall i, j :: 0 <= i < j < |d.routers| ==> d.routers[i].name != d.routers[j].name)
    && (forall i, j :: 0 <= i < j < |d.networks| ==> d.networks[i].name != d.networks[j].name)
    && (forall i, j :: 0 <= i < |d.hosts| && 0 <= j < |d.routers| ==> d.hosts[i].name != d.routers[j].name)
    && (forall i, j :: 0 <= i < |d.hosts| && 0 <= j < |d.networks| ==> d.hosts[i].name != d.networks[j].name)
    && (forall i, j :: 0 <= i < |d.routers| && 0 <= j < |d.networks| ==> d.routers[i].name != d.networks[j].name)
    && (forall i :: 0 <= i < |d.hosts| ==> d.hosts[i].name != d.name && d.hosts[i].name != d.wan.name)
    && (forall i :: 0 <= i < |d.routers| ==> d.routers[i].name != d.name && d.routers[i].name != d.wan.name)
    && (forall i :: 0 <= i < |d.networks| ==> d.networks[i].name != d.name && d.networks[i].name != d.wan.name)
    && d.name != d.wan.name
  }

  /** Where the names stand. */
  lemma NamePositions(d: Definition)
    ensures var all, h, r, n := AllNames(d), |d.hosts|, |d.routers|, |d.networks|;
            && |all| == 1 + h + r + n + 1 && all[0] == d.name && all[1 + h + r + n] == d.wan.name
            && (forall i :: 0 <= i < h ==> all[1 + i] == d.hosts[i].name)
            && (forall i :: 0 <= i < r ==> all[1 + h + i] == d.routers[i].name)
            && (forall i :: 0 <= i < n ==> all[1 + h + r + i] == d.networks[i].name)
  {
  }

  lemma DifferenceAt(d: Definition, i: nat, j: nat)
    requires NamesDiffer(d) && i < j < |AllNames(d)|
    ensures AllNames(d)[i] != AllNames(d)[j]
  {
    NamePositions(d);
  }

  lemma DistinctNames(d: Definition)
    ensures Distinct(AllNames(d)) <==> NamesDiffer(d)
  {
    NamePositions(d);
    if NamesDiffer(d) {
      forall i, j | 0 <= i < j < |AllNames(d)| ensures AllNames(d)[i] != AllNames(d)[j] { DifferenceAt(d, i, j); }
    }
  }

  /** The mapping names a host and a network of the definition. */
  ghost predicate HostMapped(d: Definition, m: Mapping) {
    && (exists h :: 0 <= h < |d.hosts| && d.hosts[h].name == m.node)
    && (exists n :: 0 <= n < |d.networks| && d.networks[n].name == m.network)
  }

  ghost predicate RouterMapped(d: Definition, m: Mapping) {
    && (exists r :: 0 <= r < |d.routers| && d.routers[r].name == m.node)
    && (exists n :: 0 <= n < |d.networks| && d.networks[n].name == m.network)
  }

  ghost predicate AllMapped(d: Definition) {
    && (forall i :: 0 <= i < |d.netMappings| ==> HostMapped(d, d.netMappings[i]))
    && (forall i :: 0 <= i < |d.routerMappings| ==> RouterMapped(d, d.routerMappings[i]))
  }

  predicate Covers(n: Network, a: nat) {
    n.cidr.base <= a <= n.cidr.Last()
  }

  /** No address lies in two networks, nor in a network and the WAN. */
  ghost predicate RangesDiffer(d: Definition) {
    && (forall i, j, a: nat :: 0 <= i < j < |d.networks| && Covers(d.networks[i], a) ==> !Covers(d.networks[j], a))
    && (forall i, a: nat :: 0 <= i < |d.networks| && Covers(d.networks[i], a) ==> !Covers(d.wan, a))
  }

  ghost predicate LastOf(mappings: seq<Mapping>, i: nat)
    requires i < |mappings|
  {
    forall j :: i < j < |mappings| ==> mappings[j].network != mappings[i].network
  }

  /** The last mapping to a network has an address of the network. */
  ghost predicate LastMappingsFit(mappings: seq<Mapping>, networks: seq<Network>) {
    forall i :: 0 <= i < |mappings| && LastOf(mappings, i) ==>
      exists n :: 0 <= n < |networks| && networks[n].name == mappings[i].network && Covers(networks[n], mappings[i].ip)
  }

  /** No address is given twice, to hosts or routers. */
  ghost predicate IpsDiffer(d: Definition) {
    && (forall i, j :: 0 <= i < j < |d.netMappings| ==> d.netMappings[i].ip != d.netMappings[j].ip)
    && (forall i, j :: 0 <= i < j < |d.routerMappings| ==> d.routerMappings[i].ip != d.routerMappings[j].ip)
    && (forall i, j :: 0 <= i < |d.netMappings| && 0 <= j < |d.routerMappings| ==>
          d.netMappings[i].ip != d.routerMappings[j].ip)
  }

  lemma HostNamed(d: Definition, x: string)
    ensures x in HostNames(d) <==> exists h :: 0 <= h < |d.hosts| && d.hosts[h].name == x
  {
    if h :| 0 <= h < |d.hosts| && d.hosts[h].name == x { assert HostNames(d)[h] == x; }
  }

  lemma RouterNamed(d: Definition, x: string)
    ensures x in RouterNames(d) <==> exists r :: 0 <= r < |d.routers| && d.routers[r].name == x
  {
    if r :| 0 <= r < |d.routers| && d.routers[r].name == x { assert RouterNames(d)[r] == x; }
  }

  lemma NetworkNamed(ns: seq<Network>, x: string)
    ensures x in NetworkNames(ns) <==> exists n :: 0 <= n < |ns| && ns[n].name == x
  {
    if n :| 0 <= n < |ns| && ns[n].name == x { assert NetworkNames(ns)[n] == x; }
  }

  lemma MappedIff(d: Definition, m: Mapping)
    ensures m.node in HostNames(d) && m.network in NetworkNames(d.networks) <==> HostMapped(d, m)
    ensures m.node in RouterNames(d) && m.network in NetworkNames(d.networks) <==> RouterMapped(d, m)
  {
    HostNamed(d, m.node);
    RouterNamed(d, m.node);
    NetworkNamed(d.networks, m.network);
  }

  lemma KnownIff(d: Definition)
    ensures AllMapped(d) <==>
              (&& KnownMappings(d.netMappings, HostNames(d), NetworkNames(d.networks))
               && KnownMappings(d.routerMappings, RouterNames(d), NetworkNames(d.networks)))
  {
    forall m: Mapping ensures m.node in HostNames(d) && m.network in NetworkNames(d.networks) <==> HostMapped(d, m) {
      MappedIff(d, m);
    }
    forall m: Mapping
      ensures m.node in RouterNames(d) && m.network in NetworkNames(d.networks) <==> RouterMapped(d, m)
    {
      MappedIff(d, m);
    }
  }

  lemma CoversIff(n: Network, a: nat)
    ensures n.cidr.Contains(a) <==> Covers(n, a)
  {
    Cidr.ContainsRange(n.cidr, a);
  }

  lemma RangesIff(d: Definition)
    ensures AddressDisjoint(d.networks + [d.wan]) <==> RangesDiffer(d)
  {
    var ns, k := d.networks + [d.wan], |d.networks|;
    assert ns[k] == d.wan && forall i :: 0 <= i < k ==> ns[i] == d.networks[i];
    forall i, a: nat | 0 <= i < |ns| ensures ns[i].cidr.Contains(a) <==> Covers(ns[i], a) { CoversIff(ns[i], a); }
    if AddressDisjoint(ns) {
      forall i, j, a: nat | 0 <= i < j < k && Covers(d.networks[i], a) ensures !Covers(d.networks[j], a) {
        assert !(ns[i].cidr.Contains(a) && ns[j].cidr.Contains(a));
      }
      forall i, a: nat | 0 <= i < k && Covers(d.networks[i], a) ensures !Covers(d.wan, a) {
        assert !(ns[i].cidr.Contains(a) && ns[k].cidr.Contains(a));
      }
    }
  }

  lemma IpsIff(d: Definition)
    ensures Distinct(Addresses(d.netMappings + d.routerMappings)) <==> IpsDiffer(d)
  {
    var all, n := d.netMappings + d.routerMappings, |d.netMappings|;
    AddressesDistinct(all);
    assert forall i :: 0 <= i < n ==> all[i] == d.netMappings[i];
    assert forall i :: n <= i < |all| ==> all[i] == d.routerMappings[i - n];
    if Distinct(Addresses(all)) {
      forall i, j | 0 <= i < j < |d.routerMappings| ensures d.routerMappings[i].ip != d.routerMappings[j].ip {
        assert all[n + i].ip != all[n + j].ip;
      }
      forall i, j | 0 <= i < n && 0 <= j < |d.routerMappings| ensures d.netMappings[i].ip != d.routerMappings[j].ip {
        assert all[i].ip != all[n + j].ip;
      }
    }
  }

  /** With distinct names the index holds each network. */
  lemma NetworkIndexed(networks: seq<Network>, n: nat)
    requires Distinct(NetworkNames(networks)) && n < |networks|
    ensures networks[n].name in AddressOf(networks) && AddressOf(networks)[networks[n].name] == networks[n]
  {
    IndexFinds(networks, NetworkName, networks[n].name);
    assert NetworkName(networks[n]) == networks[n].name;
    var i :| 0 <= i < |networks| && NetworkName(networks[i]) == networks[n].name
             && AddressOf(networks)[networks[n].name] == networks[i];
    assert NetworkNames(networks)[i] == NetworkNames(networks)[n];
  }

  lemma FitsIff(mappings: seq<Mapping>, networks: seq<Network>)
    requires Distinct(NetworkNames(networks))
    ensures (forall name :: LastInside(mappings, networks, name)) <==> LastMappingsFit(mappings, networks)
  {
    if forall name :: LastInside(mappings, networks, name) {
      forall i | 0 <= i < |mappings| && LastOf(mappings, i)
        ensures exists n :: 0 <= n < |networks| && networks[n].name == mappings[i].network
                            && Covers(networks[n], mappings[i].ip)
      {
        var n := InsideFits(mappings, networks, i);
      }
    }
    if LastMappingsFit(mappings, networks) {
      forall name ensures LastInside(mappings, networks, name) { FitsInside(mappings, networks, name); }
    }
  }

  lemma InsideFits(mappings: seq<Mapping>, networks: seq<Network>, i: nat) returns (n: nat)
    requires i < |mappings| && LastInside(mappings, networks, mappings[i].network) && LastOf(mappings, i)
    ensures n < |networks| && networks[n].name == mappings[i].network && Covers(networks[n], mappings[i].ip)
  {
    var name := mappings[i].network;
    var k := LastIpIs(mappings, name);
    assert k == i;
    IndexFinds(networks, NetworkName, name);
    n :| 0 <= n < |networks| && NetworkName(networks[n]) == name && AddressOf(networks)[name] == networks[n];
    CoversIff(networks[n], mappings[i].ip);
  }

  lemma FitsInside(mappings: seq<Mapping>, networks: seq<Network>, name: string)
    requires Distinct(NetworkNames(networks)) && LastMappingsFit(mappings, networks)
    ensures LastInside(mappings, networks, name)
  {
    if LastIp(mappings, name).Some? {
      var i := LastIpIs(mappings, name);
      var n :| 0 <= n < |networks| && networks[n].name == mappings[i].network
               && Covers(networks[n], mappings[i].ip);
      NetworkIndexed(networks, n);
      CoversIff(networks[n], mappings[i].ip);
    }
  }

  /** What the validators accept, in terms of the columns of the definition. */
  lemma AcceptedIff(d: Definition)
    ensures AcceptedTopology(d) <==>
              (&& NamesDiffer(d) && AllMapped(d) && RangesDiffer(d)
               && LastMappingsFit(d.netMappings, d.networks) && LastMappingsFit(d.routerMappings, d.networks)
               && IpsDiffer(d))
  {
    DistinctNames(d);
    KnownIff(d);
    RangesIff(d);
    IpsIff(d);
    if NamesDiffer(d) {
      NamesApart(d);
      FitsIff(d.netMappings, d.networks);
      FitsIff(d.routerMappings, d.networks);
    }
  }

  /** `validate_net_mappings` and `validate_name_mappings`. */
  method ValidateNames(mappings: seq<Mapping>, nodes: seq<string>, networks: seq<string>) returns (known: bool)
    ensures known <==> KnownMappings(mappings, nodes, networks)
  {
    for i := 0 to |mappings|
      invariant KnownMappings(mappings[..i], nodes, networks)
    {
      if mappings[i].node !in nodes || mappings[i].network !in networks {
        return false;
      }
    }
    assert mappings[..|mappings|] == mappings;
    known := true;
  }

  /** The validators of a definition in the order in which its attributes are read. */
  method ValidateTopology(d: Definition) returns (accepted: bool)
    ensures accepted <==> AcceptedTopology(d)
  {
    var duplicates := GetDuplicates(AllNames(d));
    NoDuplicates(AllNames(d), duplicates);
    if duplicates != {} {
      return false;
    }
    NamesApart(d);
    var known := ValidateNames(d.netMappings, HostNames(d), NetworkNames(d.networks));
    if !known {
      return false;
    }
    known := ValidateNames(d.routerMappings, RouterNames(d), NetworkNames(d.networks));
    if !known {
      return false;
    }
    var overlaps := RaiseIfOverlaps(d.networks + [d.wan]);
    OverlapCheckExact(d.networks + [d.wan]);
    if overlaps != Accepted {
      return false;
    }
    var hosts := RaiseIfNotInNetwork(d.netMappings, d.networks);
    if hosts != Accepted {
      return false;
    }
    var routers := RaiseIfNotInNetwork(d.routerMappings, d.networks);
    if routers != Accepted {
      return false;
    }
    var ips := RaiseIfIpNotUnique(d.netMappings + d.routerMappings);
    accepted := ips == Accepted;
  }
}

/** Shortest-path multi-path routing tables for hosts behind directly or two-hop connected leaves. */
module Routing {
  import opened Collections
  import opened Listings
  import opened Ordering

  /** A cable between two ports. */
  datatype Cable = Cable(a: nat, ap: int, b: nat, bp: int)

  const FIRST_LEAF: int := 37

  predicate BetweenLeaves(c: Cable) { c.a >= FIRST_LEAF && c.b >= FIRST_LEAF }

  /** The host end of a cable that is not between leaves: host, host port, leaf, leaf port. */
  function HostEnd(c: Cable): (nat, int, nat, int) {
    if c.a < FIRST_LEAF then (c.a, c.ap, c.b, c.bp) else (c.b, c.bp, c.a, c.ap)
  }

  datatype Net = Net(hostPorts: map<nat, seq<(int, nat)>>, leafHostPorts: map<(int, int), int>,
                     leafLinks: map<(int, int), seq<int>>, leaves: set<nat>)
  {
    /** Leaves are taken to be equal, neighbours, or two hops apart. */
    function Distance(x: int, y: int): (d: int)
      ensures 0 <= d <= 2
    {
      if x == y then 0 else if (x, y) in leafLinks then 1 else 2
    }
  }

  // ----------------------------------------------------------------------------- topology

  /** Ports of `x` on cables to `y`, both leaves, in order. */
  function PortsBetween(cables: seq<Cable>, x: int, y: int): seq<int> {
    if cables == [] then []
    else
      var c := cables[|cables| - 1];
      PortsBetween(cables[..|cables| - 1], x, y)
      + (if BetweenLeaves(c) && (c.a, c.b) == (x, y) then [c.ap] else [])
      + (if BetweenLeaves(c) && (c.b, c.a) == (x, y) then [c.bp] else [])
  }

  /** Where the ports of a host lead, in order. */
  function Attachments(cables: seq<Cable>, host: nat): seq<(int, nat)> {
    if cables == [] then []
    else
      var c := cables[|cables| - 1];
      Attachments(cables[..|cables| - 1], host)
      + if !BetweenLeaves(c) && HostEnd(c).0 == host then [(HostEnd(c).1, HostEnd(c).2)] else []
  }

  /** The leaf port last cabled to a host port. */
  function LeafPort(cables: seq<Cable>, host: int, port: int): Option<int> {
    if cables == [] then None
    else
      var c := cables[|cables| - 1];
      if !BetweenLeaves(c) && HostEnd(c).0 == host && HostEnd(c).1 == port then Some(HostEnd(c).3)
      else LeafPort(cables[..|cables| - 1], host, port)
  }

  function Leaves(cables: seq<Cable>): set<nat> {
    if cables == [] then {}
    else
      var c := cables[|cables| - 1];
      Leaves(cables[..|cables| - 1]) + if BetweenLeaves(c) then {c.a, c.b} else {HostEnd(c).2}
  }

  ghost predicate LinksBuilt(links: map<(int, int), seq<int>>, cables: seq<Cable>) {
    forall x, y ::
      At(links, (x, y)) == PortsBetween(cables, x, y) && ((x, y) in links <==> PortsBetween(cables, x, y) != [])
  }

  ghost predicate HostsBuilt(hosts: map<nat, seq<(int, nat)>>, cables: seq<Cable>) {
    forall h: nat :: At(hosts, h) == Attachments(cables, h) && (h in hosts <==> Attachments(cables, h) != [])
  }

  ghost predicate PortsBuilt(ports: map<(int, int), int>, cables: seq<Cable>) {
    forall h, p :: LeafPort(cables, h, p) == if (h, p) in ports then Some(ports[(h, p)]) else None
  }

  /** The dictionaries describe the cables. */
  ghost predicate Built(net: Net, cables: seq<Cable>) {
    && LinksBuilt(net.leafLinks, cables) && HostsBuilt(net.hostPorts, cables) && PortsBuilt(net.leafHostPorts, cables)
    && net.leaves == Leaves(cables)
  }

  lemma NothingBuilt()
    ensures Built(Net(map[], map[], map[], {}), [])
  {
  }

  lemma LinkAdded(links: map<(int, int), seq<int>>, cables: seq<Cable>, c: Cable)
    requires LinksBuilt(links, cables) && BetweenLeaves(c)
    ensures LinksBuilt(Append(Append(links, (c.a, c.b), c.ap), (c.b, c.a), c.bp), cables + [c])
  {
    var once := Append(links, (c.a, c.b), c.ap);
    var twice := Append(once, (c.b, c.a), c.bp);
    assert (cables + [c])[..|cables|] == cables;
    forall x, y ensures At(twice, (x, y)) == PortsBetween(cables + [c], x, y)
                        && ((x, y) in twice <==> PortsBetween(cables + [c], x, y) != []) {
      hide At, Append;
      assert At(once, (x, y)) == At(links, (x, y)) + if (c.a, c.b) == (x, y) then [c.ap] else [];
      assert At(twice, (x, y)) == At(once, (x, y)) + if (c.b, c.a) == (x, y) then [c.bp] else [];
    }
  }

  lemma LinksKept(links: map<(int, int), seq<int>>, cables: seq<Cable>, c: Cable)
    requires LinksBuilt(links, cables) && !BetweenLeaves(c)
    ensures LinksBuilt(links, cables + [c])
  {
    hide At;
    assert (cables + [c])[..|cables|] == cables;
  }

  lemma HostAdded(hosts: map<nat, seq<(int, nat)>>, ports: map<(int, int), int>, cables: seq<Cable>, c: Cable)
    requires HostsBuilt(hosts, cables) && PortsBuilt(ports, cables) && !BetweenLeaves(c)
    ensures var (host, hp, leaf, lp) := HostEnd(c);
            && HostsBuilt(Append(hosts, host, (hp, leaf)), cables + [c])
            && PortsBuilt(ports[(host, hp) := lp], cables + [c])
  {
    hide At, Append;
    assert (cables + [c])[..|cables|] == cables;
  }

  lemma HostsKept(hosts: map<nat, seq<(int, nat)>>, ports: map<(int, int), int>, cables: seq<Cable>, c: Cable)
    requires HostsBuilt(hosts, cables) && PortsBuilt(ports, cables) && BetweenLeaves(c)
    ensures HostsBuilt(hosts, cables + [c]) && PortsBuilt(ports, cables + [c])
  {
    hide At;
    assert (cables + [c])[..|cables|] == cables;
  }

  lemma LeavesAdded(cables: seq<Cable>, c: Cable)
    ensures Leaves(cables + [c]) == Leaves(cables) + if BetweenLeaves(c) then {c.a, c.b} else {HostEnd(c).2}
  {
    assert (cables + [c])[..|cables|] == cables;
  }

  method ReadTopology(cables: seq<Cable>) returns (net: Net)
    ensures Built(net, cables)
  {
    hide LinksBuilt, HostsBuilt, PortsBuilt, Leaves, Append;
    net := Net(map[], map[], map[], {});
    NothingBuilt();
    for n := 0 to |cables|
      invariant Built(net, cables[..n])
    {
      var c := cables[n];
      ghost var before := cables[..n];
      assert cables[..n + 1] == before + [c];
      LeavesAdded(before, c);
      if BetweenLeaves(c) {
        LinkAdded(net.leafLinks, before, c);
        HostsKept(net.hostPorts, net.leafHostPorts, before, c);
        net := net.(leafLinks := Append(Append(net.leafLinks, (c.a, c.b), c.ap), (c.b, c.a), c.bp),
                    leaves := net.leaves + {c.a, c.b});
      } else {
        LinksKept(net.leafLinks, before, c);
        HostAdded(net.hostPorts, net.leafHostPorts, before, c);
        var (host, hp, leaf, lp) := HostEnd(c);
        net := net.(hostPorts := Append(net.hostPorts, host, (hp, leaf)),
                    leafHostPorts := net.leafHostPorts[(host, hp) := lp], leaves := net.leaves + {leaf});
      }
    }
    assert cables[..|cables|] == cables;
  }

  // ------------------------------------------------------------------------------- entries

  /** A routing table row: the ports to take towards a destination port, each with its remaining hops. */
  datatype Entry = Entry(node: nat, dest: nat, port: int, outPorts: seq<int>, metrics: seq<int>)

  predicate AtMost(x: int, y: int) { x <= y }

  function Repeat(x: int, n: nat): seq<int> {
    seq(n, _ => x)
  }

  predicate IsNext(net: Net, leaf: nat, neighbour: nat, final: nat) {
    (leaf, neighbour) in net.leafLinks && net.Distance(neighbour, final) == net.Distance(leaf, final) - 1
  }

  /** The ports to those of the neighbours that are one hop nearer. */
  function NextPorts(net: Net, neighbours: seq<nat>, leaf: nat, final: nat): seq<int> {
    if neighbours == [] then []
    else
      var last := |neighbours| - 1;
      NextPorts(net, neighbours[..last], leaf, final)
      + if IsNext(net, leaf, neighbours[last], final) then net.leafLinks[(leaf, neighbours[last])] else []
  }

  /** A destination: a host, one of its ports, and the leaf behind that port. */
  datatype Destination = Destination(host: nat, port: int, leaf: nat)

  predicate Attached(net: Net, d: Destination) {
    (d.port, d.leaf) in At(net.hostPorts, d.host) && (d.host, d.port) in net.leafHostPorts
  }

  function LeafOut(net: Net, leaf: nat, d: Destination): seq<int>
    requires Attached(net, d)
  {
    if leaf == d.leaf then [net.leafHostPorts[(d.host, d.port)]] else NextPorts(net, Sorted(net.leaves), leaf, d.leaf)
  }

  function LeafEntry(net: Net, leaf: nat, d: Destination): Entry
    requires Attached(net, d)
  {
    var out := SortBy(AtMost, LeafOut(net, leaf, d));
    Entry(leaf, d.host, d.port, out, Repeat(1 + net.Distance(leaf, d.leaf), |out|))
  }

  /** The smallest distance from the attached leaves. */
  function Nearest(net: Net, ports: seq<(int, nat)>, final: nat): (r: int)
    requires ports != []
    ensures forall i | 0 <= i < |ports| :: r <= net.Distance(ports[i].1, final)
    ensures exists i :: 0 <= i < |ports| && r == net.Distance(ports[i].1, final)
    ensures 0 <= r <= 2
  {
    var last := |ports| - 1;
    var here := net.Distance(ports[last].1, final);
    if last == 0 then here
    else
      var rest := Nearest(net, ports[..last], final);
      var i :| 0 <= i < last && rest == net.Distance(ports[..last][i].1, final);
      assert ports[i] == ports[..last][i];
      assert forall k | 0 <= k < last :: ports[k] == ports[..last][k];
      Min(rest, here)
  }

  function PortsAt(net: Net, ports: seq<(int, nat)>, final: nat, distance: int): (r: seq<int>)
    ensures forall p :: p in r <==>
              exists i :: 0 <= i < |ports| && ports[i].0 == p && net.Distance(ports[i].1, final) == distance
  {
    if ports == [] then []
    else
      var last := |ports| - 1;
      var rest := PortsAt(net, ports[..last], final, distance);
      assert forall k | 0 <= k < last :: ports[k] == ports[..last][k];
      rest + if net.Distance(ports[last].1, final) == distance then [ports[last].0] else []
  }

  function HostEntry(net: Net, source: nat, d: Destination): Entry
    requires At(net.hostPorts, source) != []
  {
    var ports := At(net.hostPorts, source);
    var best := Nearest(net, ports, d.leaf);
    var out := SortBy(AtMost, PortsAt(net, ports, d.leaf, best));
    Entry(source, d.host, d.port, out, Repeat(best + 2, |out|))
  }

  // --------------------------------------------------------------------------------- table

  function LeafEntries(net: Net, leaves: seq<nat>, d: Destination): seq<Entry>
    requires Attached(net, d)
  {
    seq(|leaves|, i requires 0 <= i < |leaves| => LeafEntry(net, leaves[i], d))
  }

  /** The entries of all hosts but the destination. */
  function HostEntries(net: Net, hosts: seq<nat>, d: Destination): seq<Entry> {
    if hosts == [] then []
    else
      var last := |hosts| - 1;
      HostEntries(net, hosts[..last], d)
      + if hosts[last] != d.host && At(net.hostPorts, hosts[last]) != [] then [HostEntry(net, hosts[last], d)] else []
  }

  function EntriesFor(net: Net, d: Destination): seq<Entry>
    requires Attached(net, d)
  {
    LeafEntries(net, Sorted(net.leaves), d) + HostEntries(net, Sorted(net.hostPorts.Keys), d)
  }

  predicate PortOrder(x: (int, nat), y: (int, nat)) {
    x.0 < y.0 || (x.0 == y.0 && x.1 <= y.1)
  }

  function PortsOf(net: Net, host: nat): seq<Destination> {
    var ports := SortBy(PortOrder, At(net.hostPorts, host));
    seq(|ports|, i requires 0 <= i < |ports| => Destination(host, ports[i].0, ports[i].1))
  }

  function DestinationsOf(net: Net, hosts: seq<nat>): seq<Destination> {
    if hosts == [] then []
    else
      var last := |hosts| - 1;
      DestinationsOf(net, hosts[..last]) + PortsOf(net, hosts[last])
  }

  /** All host ports, by host and port. */
  function Destinations(net: Net): seq<Destination> {
    DestinationsOf(net, Sorted(net.hostPorts.Keys))
  }

  ghost predicate AllAttached(net: Net, destinations: seq<Destination>) {
    forall d | d in destinations :: Attached(net, d)
  }

  function Table(net: Net, destinations: seq<Destination>): seq<Entry>
    requires AllAttached(net, destinations)
  {
    if destinations == [] then []
    else
      var last := |destinations| - 1;
      Table(net, destinations[..last]) + EntriesFor(net, destinations[last])
  }

  /** Every leaf has a next hop towards the destination. */
  ghost predicate Routed(net: Net, d: Destination)
    requires Attached(net, d)
  {
    forall leaf | leaf in net.leaves :: LeafOut(net, leaf, d) != []
  }

  lemma AttachmentsOf(net: Net, host: nat, cables: seq<Cable>)
    requires Built(net, cables)
    ensures At(net.hostPorts, host) == Attachments(cables, host)
  {
  }

  lemma PortsOfAttached(net: Net, host: nat, cables: seq<Cable>)
    requires Built(net, cables)
    ensures forall d: Destination :: d in PortsOf(net, host) <==>
              d.host == host && (d.port, d.leaf) in At(net.hostPorts, host)
    ensures AllAttached(net, PortsOf(net, host))
  {
    hide At, Leaves, HostsBuilt, LinksBuilt, SortBy;
    AttachmentsOf(net, host, cables);
    var ports := SortBy(PortOrder, At(net.hostPorts, host));
    SortByMembers(PortOrder, At(net.hostPorts, host));
    forall d: Destination
      ensures d in PortsOf(net, host) <==> d.host == host && (d.port, d.leaf) in At(net.hostPorts, host)
    {
      if d.host == host && (d.port, d.leaf) in ports {
        var i :| 0 <= i < |ports| && ports[i] == (d.port, d.leaf);
        assert PortsOf(net, host)[i] == d;
      }
    }
    forall d | d in PortsOf(net, host) ensures Attached(net, d) {
      AttachmentHasPort(cables, d.host, d.port, d.leaf);
    }
  }

  /** The destinations are exactly the attached host ports. */
  lemma {:induction false} DestinationsAttached(net: Net, hosts: seq<nat>, cables: seq<Cable>)
    requires Built(net, cables)
    ensures AllAttached(net, DestinationsOf(net, hosts))
    ensures forall d: Destination :: d in DestinationsOf(net, hosts) <==>
              d.host in hosts && (d.port, d.leaf) in At(net.hostPorts, d.host)
  {
    if hosts != [] {
      hide At, Attached, PortsOf, Built;
      var last := |hosts| - 1;
      DestinationsAttached(net, hosts[..last], cables);
      PortsOfAttached(net, hosts[last], cables);
      assert forall h :: h in hosts <==> h == hosts[last] || h in hosts[..last];
    }
  }

  lemma {:induction false} AttachmentHasPort(cables: seq<Cable>, host: nat, port: int, leaf: nat)
    requires (port, leaf) in Attachments(cables, host)
    ensures LeafPort(cables, host, port).Some? && leaf in Leaves(cables)
  {
    var last := |cables| - 1;
    if (port, leaf) in Attachments(cables[..last], host) {
      AttachmentHasPort(cables[..last], host, port, leaf);
    }
  }

  method LeafRows(net: Net, d: Destination) returns (r: Result<seq<Entry>>)
    requires Attached(net, d)
    ensures r.Ok? <==> Routed(net, d)
    ensures r.Ok? ==> r.value == LeafEntries(net, Sorted(net.leaves), d)
  {
    hide LeafOut, LeafEntry;
    var leaves, entries := Sorted(net.leaves), [];
    for n := 0 to |leaves|
      invariant |entries| == n && forall k | 0 <= k < n :: entries[k] == LeafEntry(net, leaves[k], d)
      invariant forall k | 0 <= k < n :: LeafOut(net, leaves[k], d) != []
    {
      if LeafOut(net, leaves[n], d) == [] {
        assert leaves[n] in net.leaves;
        return Err("no leaf route");
      }
      entries := entries + [LeafEntry(net, leaves[n], d)];
    }
    return Ok(entries);
  }

  /** The hosts that send to the destination. */
  ghost predicate Sends(net: Net, host: nat, d: Destination) {
    host in net.hostPorts && host != d.host && At(net.hostPorts, host) != []
  }

  /** Exactly one entry for each sending host, and no other. */
  ghost predicate OnePerHost(net: Net, entries: seq<Entry>, d: Destination) {
    && (forall e | e in entries :: Sends(net, e.node, d) && e == HostEntry(net, e.node, d))
    && DistinctNodes(entries)
    && (forall h | Sends(net, h, d) :: HostEntry(net, h, d) in entries)
  }

  ghost predicate DistinctNodes(entries: seq<Entry>) {
    forall i, j | 0 <= i < j < |entries| :: entries[i].node != entries[j].node
  }

  lemma DistinctNodesAdd(entries: seq<Entry>, e: Entry)
    requires DistinctNodes(entries) && forall x | x in entries :: x.node != e.node
    ensures DistinctNodes(entries + [e])
  {
  }

  lemma HostEntryNode(net: Net, source: nat, d: Destination)
    ensures At(net.hostPorts, source) != [] ==> HostEntry(net, source, d).node == source
  {
  }

  lemma {:induction false} HostEntriesFrom(net: Net, hosts: seq<nat>, d: Destination)
    requires forall h | h in hosts :: h in net.hostPorts
    ensures forall e | e in HostEntries(net, hosts, d) ::
              e.node in hosts && Sends(net, e.node, d) && e == HostEntry(net, e.node, d)
  {
    if hosts != [] {
      var last := |hosts| - 1;
      HostEntriesFrom(net, hosts[..last], d);
      HostEntryNode(net, hosts[last], d);
      hide At, HostEntry;
    }
  }

  lemma {:induction false} HostEntriesOnce(net: Net, hosts: seq<nat>, d: Destination)
    requires Ascending(hosts) && forall h | h in hosts :: h in net.hostPorts
    ensures DistinctNodes(HostEntries(net, hosts, d))
  {
    if hosts != [] {
      var last := |hosts| - 1;
      var before := HostEntries(net, hosts[..last], d);
      HostEntriesOnce(net, hosts[..last], d);
      HostEntriesFrom(net, hosts[..last], d);
      HostEntryNode(net, hosts[last], d);
      assert forall h | h in hosts[..last] :: h < hosts[last];
      hide At, HostEntry, Sends, DistinctNodes, Ascending;
      if hosts[last] != d.host && At(net.hostPorts, hosts[last]) != [] {
        DistinctNodesAdd(before, HostEntry(net, hosts[last], d));
      } else {
        assert before + [] == before;
      }
    }
  }

  lemma {:induction false} HostEntriesAll(net: Net, hosts: seq<nat>, d: Destination, h: nat)
    requires h in hosts && Sends(net, h, d)
    ensures HostEntry(net, h, d) in HostEntries(net, hosts, d)
  {
    var last := |hosts| - 1;
    hide At, HostEntry;
    if h != hosts[last] {
      HostEntriesAll(net, hosts[..last], d, h);
    }
  }

  lemma EntriesOnePerHost(net: Net, d: Destination)
    ensures OnePerHost(net, HostEntries(net, Sorted(net.hostPorts.Keys), d), d)
  {
    var hosts := Sorted(net.hostPorts.Keys);
    HostEntriesFrom(net, hosts, d);
    HostEntriesOnce(net, hosts, d);
    hide HostEntry, HostEntries, At, DistinctNodes;
    forall h | Sends(net, h, d) ensures HostEntry(net, h, d) in HostEntries(net, hosts, d) {
      assert h in net.hostPorts.Keys;
      HostEntriesAll(net, hosts, d, h);
    }
  }

  /** Every host other than the destination gets exactly one entry. */
  method HostRows(net: Net, d: Destination) returns (entries: seq<Entry>)
    ensures OnePerHost(net, entries, d)
    ensures entries == HostEntries(net, Sorted(net.hostPorts.Keys), d)
  {
    hide HostEntry, At, Sorted, OnePerHost;
    EntriesOnePerHost(net, d);
    var hosts := Sorted(net.hostPorts.Keys);
    entries := [];
    for n := 0 to |hosts|
      invariant entries == HostEntries(net, hosts[..n], d)
    {
      assert hosts[..n + 1][..n] == hosts[..n];
      if hosts[n] != d.host && At(net.hostPorts, hosts[n]) != [] {
        entries := entries + [HostEntry(net, hosts[n], d)];
      }
    }
    assert hosts[..|hosts|] == hosts;
  }

  ghost predicate AllRouted(net: Net, destinations: seq<Destination>)
    requires AllAttached(net, destinations)
  {
    forall d | d in destinations :: Routed(net, d)
  }

  lemma RoutedNext(net: Net, destinations: seq<Destination>, n: nat)
    requires n < |destinations| && AllAttached(net, destinations)
    ensures AllRouted(net, destinations[..n + 1]) <==> AllRouted(net, destinations[..n]) && Routed(net, destinations[n])
    ensures AllRouted(net, destinations) ==> Routed(net, destinations[n])
  {
    hide Routed, Attached;
    assert destinations[n] in destinations;
    assert destinations[..n + 1] == destinations[..n] + [destinations[n]];
  }

  /** The entries towards all destinations, refused when some leaf has no next hop. */
  method BuildTable(net: Net, destinations: seq<Destination>) returns (r: Result<seq<Entry>>)
    requires AllAttached(net, destinations)
    ensures r.Ok? <==> AllRouted(net, destinations)
    ensures r.Ok? ==> r.value == Table(net, destinations)
  {
    hide LeafEntries, HostEntries, Routed, AllRouted, Attached, Sorted;
    var table := [];
    assert AllRouted(net, destinations[..0]) by { NoneUnrouted(net, destinations[..0]); }
    for n := 0 to |destinations|
      invariant table == Table(net, destinations[..n])
      invariant AllRouted(net, destinations[..n])
    {
      RoutedNext(net, destinations, n);
      var fromLeaves := LeafRows(net, destinations[n]);
      if fromLeaves.Err? {
        return Err(fromLeaves.reason);
      }
      var fromHosts := HostRows(net, destinations[n]);
      TableNext(net, destinations, n);
      table := table + fromLeaves.value + fromHosts;
    }
    assert destinations[..|destinations|] == destinations;
    return Ok(table);
  }

  lemma NoneUnrouted(net: Net, destinations: seq<Destination>)
    requires destinations == []
    ensures AllAttached(net, destinations) && AllRouted(net, destinations)
  {
  }

  /** The table of an accepted topology. */
  ghost predicate Accepted(net: Net, cables: seq<Cable>, table: seq<Entry>) {
    && Built(net, cables) && AllAttached(net, Destinations(net)) && AllRouted(net, Destinations(net))
    && table == Table(net, Destinations(net))
  }

  /** The table of a topology, refused exactly when it lacks hosts or leaves or some leaf has no next hop. */
  method GenerateRoutingTable(cables: seq<Cable>) returns (r: Result<seq<Entry>>, net: Net)
    ensures Built(net, cables) && AllAttached(net, Destinations(net))
    ensures r.Ok? <==> net.leaves != {} && net.hostPorts.Keys != {} && AllRouted(net, Destinations(net))
    ensures r.Ok? ==> Accepted(net, cables, r.value)
  {
    hide Built, Table, DestinationsOf, AllRouted, Attached;
    net := ReadTopology(cables);
    DestinationsAttached(net, Sorted(net.hostPorts.Keys), cables);
    if net.leaves == {} || net.hostPorts.Keys == {} {
      return Err("topology lacks hosts or leaves"), net;
    }
    r := BuildTable(net, Destinations(net));
  }

  lemma TableNext(net: Net, destinations: seq<Destination>, n: nat)
    requires n < |destinations| && AllAttached(net, destinations)
    ensures Table(net, destinations[..n + 1]) == Table(net, destinations[..n])
              + LeafEntries(net, Sorted(net.leaves), destinations[n])
              + HostEntries(net, Sorted(net.hostPorts.Keys), destinations[n])
  {
    hide Attached, LeafEntries, HostEntries, Sorted;
    assert destinations[..n + 1][..n] == destinations[..n];
  }
}

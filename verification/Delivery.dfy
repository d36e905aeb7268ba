/** An accepted routing table end to end: packets that follow its own entries are delivered, along shortest paths. */
module Delivery {
  import opened Collections
  import opened Listings
  import opened Ordering
  import opened Routing
  import opened ShortestRoutes

  /** The entry tells the node where to send packets for the host port. */
  ghost predicate Tells(table: seq<Entry>, e: Entry, node: nat, host: nat, port: int) {
    e in table && e.node == node && e.dest == host && e.port == port
  }

  /** Whatever listed port it takes at every hop, a packet at `node` reaches the host port after exactly `n` hops. */
  ghost predicate Forwards(table: seq<Entry>, cables: seq<Cable>, node: nat, host: nat, port: int, n: nat)
    decreases n, 1
  {
    && n > 0 && (exists e :: Tells(table, e, node, host, port))
    && forall e | Tells(table, e, node, host, port) ::
         e.outPorts != [] && forall p | p in e.outPorts :: Sent(table, cables, node, host, port, p, n)
  }

  /** The same for a packet that leaves by the given port. */
  ghost predicate Sent(table: seq<Entry>, cables: seq<Cable>, node: nat, host: nat, port: int, p: int, n: nat)
    requires n > 0
    decreases n, 0
  {
    && Plugged(cables, node, p)
    && forall y: nat, q | Wire(cables, node, p, y, q) ::
         if n == 1 then y == host && q == port else Forwards(table, cables, y, host, port, n - 1)
  }

  // ----------------------------------------------------------------------------- entries

  /** The entry of a leaf, or of a sending host, towards the destination. */
  ghost predicate IsEntry(net: Net, d: Destination, e: Entry)
    requires Attached(net, d)
  {
    || (e.node in net.leaves && e == LeafEntry(net, e.node, d))
    || (Sends(net, e.node, d) && e == HostEntry(net, e.node, d))
  }

  lemma EntriesAre(net: Net, d: Destination, e: Entry)
    requires Attached(net, d)
    ensures e in EntriesFor(net, d) <==> IsEntry(net, d, e)
  {
    hide LeafEntry, HostEntry, At, Attached, HostEntries, Sends;
    EntriesOnePerHost(net, d);
    var leaves, hosts := LeafEntries(net, Sorted(net.leaves), d), HostEntries(net, Sorted(net.hostPorts.Keys), d);
    LeafEntriesAre(net, d, e);
    assert e in EntriesFor(net, d) <==> e in leaves || e in hosts;
  }

  lemma LeafEntriesAre(net: Net, d: Destination, e: Entry)
    requires Attached(net, d)
    ensures e in LeafEntries(net, Sorted(net.leaves), d) <==> e.node in net.leaves && e == LeafEntry(net, e.node, d)
  {
    hide LeafOut, At, Attached;
    var leaves, entries := Sorted(net.leaves), LeafEntries(net, Sorted(net.leaves), d);
    if e.node in net.leaves && e == LeafEntry(net, e.node, d) {
      var i :| 0 <= i < |leaves| && leaves[i] == e.node;
      assert entries[i] == e;
    }
  }

  lemma {:induction false} TableIs(net: Net, destinations: seq<Destination>, e: Entry)
    requires AllAttached(net, destinations)
    ensures e in Table(net, destinations) <==> exists d :: d in destinations && Attached(net, d) && IsEntry(net, d, e)
  {
    hide Attached, IsEntry, EntriesFor;
    if destinations != [] {
      var last := |destinations| - 1;
      TableIs(net, destinations[..last], e);
      EntriesAre(net, destinations[last], e);
      assert forall d :: d in destinations <==> d == destinations[last] || d in destinations[..last];
    }
  }

  /** With one cable per port, a host port has one leaf behind it. */
  lemma OneLeaf(net: Net, cables: seq<Cable>, d: Destination, d': Destination)
    requires Built(net, cables) && WiredOnce(cables) && Attached(net, d) && Attached(net, d')
    requires d.host == d'.host && d.port == d'.port
    ensures d == d'
  {
    var q := AttachmentWire(cables, d.host, d.port, d.leaf);
    var q' := AttachmentWire(cables, d'.host, d'.port, d'.leaf);
  }

  /** What an entry of an accepted table was made for. */
  lemma EntryOf(net: Net, cables: seq<Cable>, table: seq<Entry>, e: Entry) returns (d: Destination)
    requires Accepted(net, cables, table) && e in table
    ensures Attached(net, d) && Routed(net, d) && d in Destinations(net) && IsEntry(net, d, e)
    ensures e.dest == d.host && e.port == d.port
  {
    hide Attached, Routed, Built, LeafOut, Nearest, PortsAt, Destinations;
    TableIs(net, Destinations(net), e);
    d :| d in Destinations(net) && Attached(net, d) && IsEntry(net, d, e);
  }

  lemma TableHas(net: Net, cables: seq<Cable>, table: seq<Entry>, leaf: nat, d: Destination)
    requires Accepted(net, cables, table) && d in Destinations(net) && leaf in net.leaves && Attached(net, d)
    ensures Tells(table, LeafEntry(net, leaf, d), leaf, d.host, d.port)
  {
    hide Attached, Built, LeafOut, Destinations;
    TableIs(net, Destinations(net), LeafEntry(net, leaf, d));
    assert IsEntry(net, d, LeafEntry(net, leaf, d));
  }

  /** A node that is both a host and a leaf, being cabled to itself, is the only host. */
  ghost predicate NoClash(net: Net) {
    forall h | h in net.hostPorts && h in net.leaves :: net.hostPorts.Keys == {h}
  }

  lemma AttachedHost(net: Net, d: Destination)
    requires Attached(net, d)
    ensures d.host in net.hostPorts.Keys && d.host in net.hostPorts
  {
  }

  /** A leaf's only entry towards a host port. */
  lemma LeafTells(net: Net, cables: seq<Cable>, table: seq<Entry>, leaf: nat, d: Destination, e: Entry)
    requires Accepted(net, cables, table) && WiredOnce(cables) && NoClash(net)
    requires leaf in net.leaves && Attached(net, d) && Tells(table, e, leaf, d.host, d.port)
    ensures e == LeafEntry(net, leaf, d)
  {
    var d' := EntryOf(net, cables, table, e);
    OneLeaf(net, cables, d, d');
    AttachedHost(net, d);
    hide Attached, Built, LeafEntry, HostEntry, Accepted;
    assert Sends(net, leaf, d) ==> leaf in net.hostPorts.Keys;
  }

  /** Towards this host port the table has exactly one entry for each leaf: its own. */
  ghost predicate LeavesTold(net: Net, table: seq<Entry>, d: Destination)
    requires Attached(net, d)
  {
    forall leaf | leaf in net.leaves :: LeafTold(net, table, d, leaf)
  }

  ghost predicate LeafTold(net: Net, table: seq<Entry>, d: Destination, leaf: nat)
    requires Attached(net, d)
  {
    && Tells(table, LeafEntry(net, leaf, d), leaf, d.host, d.port)
    && forall e | Tells(table, e, leaf, d.host, d.port) :: e == LeafEntry(net, leaf, d)
  }

  lemma AllTold(net: Net, cables: seq<Cable>, table: seq<Entry>, d: Destination)
    requires Accepted(net, cables, table) && WiredOnce(cables) && NoClash(net)
    requires Attached(net, d) && d in Destinations(net)
    ensures LeavesTold(net, table, d)
  {
    forall leaf | leaf in net.leaves ensures LeafTold(net, table, d, leaf) {
      hide Accepted, Attached, Destinations, WiredOnce, Tells, LeafEntry;
      TableHas(net, cables, table, leaf, d);
      forall e | Tells(table, e, leaf, d.host, d.port) ensures e == LeafEntry(net, leaf, d) {
        LeafTells(net, cables, table, leaf, d, e);
      }
    }
  }

  // ----------------------------------------------------------------------------- delivery

  lemma {:induction false} LeafForwards(net: Net, cables: seq<Cable>, table: seq<Entry>, leaf: nat, d: Destination)
    requires Built(net, cables) && Attached(net, d) && WiredOnce(cables) && Routed(net, d) && LeavesTold(net, table, d)
    requires leaf in net.leaves
    ensures Forwards(table, cables, leaf, d.host, d.port, 1 + net.Distance(leaf, d.leaf))
    decreases net.Distance(leaf, d.leaf), 1
  {
    LeafPorts(net, leaf, d);
    var out := LeafOut(net, leaf, d);
    assert LeafTold(net, table, d, leaf);
    hide Built, Attached, Routed, LeafOut, LeafEntry, WiredOnce, Sent, Tells, LeavesTold, Net.Distance;
    forall p | p in out ensures Sent(table, cables, leaf, d.host, d.port, p, 1 + net.Distance(leaf, d.leaf)) {
      LeafSends(net, cables, table, leaf, d, p);
    }
  }

  lemma {:induction false} LeafSends(net: Net, cables: seq<Cable>, table: seq<Entry>, leaf: nat, d: Destination, p: int)
    requires Built(net, cables) && Attached(net, d) && WiredOnce(cables) && Routed(net, d) && LeavesTold(net, table, d)
    requires leaf in net.leaves && p in LeafOut(net, leaf, d)
    ensures Sent(table, cables, leaf, d.host, d.port, p, 1 + net.Distance(leaf, d.leaf))
    decreases net.Distance(leaf, d.leaf), 0
  {
    hide Built, LeafOut, Attached, Wire, Plugged, WiredOnce, Routed, Forwards, LeavesTold;
    HopForward(net, cables, leaf, d, p);
    if leaf != d.leaf {
      forall y: nat, q | Wire(cables, leaf, p, y, q)
        ensures Forwards(table, cables, y, d.host, d.port, net.Distance(leaf, d.leaf))
      {
        LeafForwards(net, cables, table, y, d);
      }
    }
  }

  lemma HostSends(net: Net, cables: seq<Cable>, table: seq<Entry>, source: nat, d: Destination, p: int)
    requires Built(net, cables) && Attached(net, d) && WiredOnce(cables) && Routed(net, d) && LeavesTold(net, table, d)
    requires At(net.hostPorts, source) != [] && p in HostEntry(net, source, d).outPorts
    ensures Sent(table, cables, source, d.host, d.port, p, Nearest(net, At(net.hostPorts, source), d.leaf) + 2)
  {
    hide Built, Attached, Wire, HostEntry, Plugged, WiredOnce, Routed, Forwards, Nearest, LeavesTold;
    var leaf := HostHop(net, cables, source, d, p);
    LeafForwards(net, cables, table, leaf, d);
  }

  /** Every entry of an accepted table keeps its word: each listed port delivers, over the table's own entries, in
      exactly as many hops as its metric says. */
  lemma EveryEntryDelivers(net: Net, cables: seq<Cable>, table: seq<Entry>, e: Entry, k: nat)
    requires Accepted(net, cables, table) && WiredOnce(cables) && NoClash(net)
    requires e in table && k < |e.outPorts|
    ensures |e.metrics| == |e.outPorts| && e.metrics[k] > 0
    ensures Sent(table, cables, e.node, e.dest, e.port, e.outPorts[k], e.metrics[k])
  {
    hide Built, Attached, Routed, Destinations, WiredOnce, Sent, Nearest, PortsAt, LeafOut, LeavesTold, AllRouted,
      AllAttached, Table;
    var d := EntryOf(net, cables, table, e);
    AllTold(net, cables, table, d);
    if e.node in net.leaves && e == LeafEntry(net, e.node, d) {
      SortByMembers(AtMost, LeafOut(net, e.node, d));
      LeafSends(net, cables, table, e.node, d, e.outPorts[k]);
    } else {
      HostSends(net, cables, table, e.node, d, e.outPorts[k]);
    }
  }

  /** The `k`th listed port delivers in as many hops as its metric says. */
  ghost predicate KeepsWord(table: seq<Entry>, cables: seq<Cable>, e: Entry, k: nat)
    requires k < |e.outPorts|
  {
    && |e.metrics| == |e.outPorts| && e.metrics[k] > 0
    && Sent(table, cables, e.node, e.dest, e.port, e.outPorts[k], e.metrics[k])
  }

  ghost predicate AllDeliver(table: seq<Entry>, cables: seq<Cable>) {
    forall e, k: nat | e in table && k < |e.outPorts| :: KeepsWord(table, cables, e, k)
  }

  /** An accepted table delivers everywhere exactly when no node is both a host and a leaf, or that node is the only
      host. */
  lemma DeliversExactlyWhen(net: Net, cables: seq<Cable>, table: seq<Entry>)
    requires Accepted(net, cables, table) && WiredOnce(cables)
    ensures AllDeliver(table, cables) <==> NoClash(net)
  {
    hide Accepted, WiredOnce, Sent;
    if NoClash(net) {
      forall e, k: nat | e in table && k < |e.outPorts| ensures KeepsWord(table, cables, e, k) {
        EveryEntryDelivers(net, cables, table, e, k);
      }
    } else {
      var h :| h in net.hostPorts && h in net.leaves && net.hostPorts.Keys != {h};
      var other :| other in net.hostPorts.Keys && other != h;
      ClashFails(net, cables, table, h, other);
    }
  }

  /** A host that is a leaf, too, sends packets for another host round its own cable for ever. */
  lemma ClashFails(net: Net, cables: seq<Cable>, table: seq<Entry>, h: nat, other: nat)
    requires Accepted(net, cables, table) && h in net.hostPorts && h in net.leaves && other in net.hostPorts
    requires other != h
    ensures !AllDeliver(table, cables)
  {
    var d, p := ClashEntry(net, cables, table, h, other);
    var e := HostEntry(net, h, d);
    hide Accepted, Attached, Built, HostEntry, Attachments;
    var k: nat :| k < |e.outPorts| && e.outPorts[k] == p;
    if AllDeliver(table, cables) {
      assert KeepsWord(table, cables, e, k);
      GoesRound(net, cables, table, e, p);
    }
  }

  /** Its entry towards the other host lists ports that lead back to itself, with two hops to go. */
  lemma ClashEntry(net: Net, cables: seq<Cable>, table: seq<Entry>, h: nat, other: nat) returns (d: Destination, p: int)
    requires Accepted(net, cables, table) && h in net.hostPorts && h in net.leaves && other in net.hostPorts
    requires other != h
    ensures At(net.hostPorts, h) != [] && d.host == other
    ensures var e := HostEntry(net, h, d);
      Tells(table, e, h, other, d.port) && p in e.outPorts && e.metrics == Repeat(2, |e.outPorts|)
      && forall q | q in e.outPorts :: (q, h) in Attachments(cables, h)
  {
    hide LeafOut, Routed, HostEntry, Attached, Built, At, Attachments, Tells, AllRouted, AllAttached, Table,
      Destinations;
    d := SomeDestination(net, cables, table, other);
    var own := SomeDestination(net, cables, table, h);
    LeafIsLast(net, cables, h, d);
    ClashPorts(net, cables, table, h, d);
    TellsHost(net, cables, table, h, d);
    p := HostEntry(net, h, d).outPorts[0];
  }

  lemma ClashPorts(net: Net, cables: seq<Cable>, table: seq<Entry>, h: nat, d: Destination)
    requires Accepted(net, cables, table) && h in net.hostPorts && h in net.leaves && d.leaf == h
    requires At(net.hostPorts, h) != []
    ensures var e := HostEntry(net, h, d);
      e.node == h && e.outPorts != [] && e.metrics == Repeat(2, |e.outPorts|)
      && forall q | q in e.outPorts :: (q, h) in Attachments(cables, h)
  {
    hide HostEntry, Built, At, Attachments, AllRouted, AllAttached, Table, Destinations, Nearest, Repeat, Net.Distance;
    AttachmentsOf(net, h, cables);
    forall a: (int, nat) | a in Attachments(cables, h) ensures a.1 == h {
      PortEnds(net, cables, table, h, a.0, a.1);
    }
    HostPorts(net, h, d);
    NearestItself(net, At(net.hostPorts, h), h);
  }

  lemma NearestItself(net: Net, ports: seq<(int, nat)>, h: nat)
    requires ports != [] && forall a | a in ports :: a.1 == h
    ensures Nearest(net, ports, h) == 0
  {
    var i :| 0 <= i < |ports| && Nearest(net, ports, h) == net.Distance(ports[i].1, h);
    assert ports[i] in ports;
  }

  /** Some port of a host is a destination. */
  lemma SomeDestination(net: Net, cables: seq<Cable>, table: seq<Entry>, host: nat) returns (d: Destination)
    requires Accepted(net, cables, table) && host in net.hostPorts
    ensures d.host == host && Attached(net, d) && Routed(net, d) && d in Destinations(net)
    ensures At(net.hostPorts, host) != []
  {
    assert At(net.hostPorts, host) == Attachments(cables, host) && Attachments(cables, host) != [];
    hide Routed, LeafOut, Table, At, Attachments, Attached;
    var a := At(net.hostPorts, host)[0];
    d := Destination(host, a.0, a.1);
    IsDestination(net, cables, d);
  }

  lemma IsDestination(net: Net, cables: seq<Cable>, d: Destination)
    requires Built(net, cables) && (d.port, d.leaf) in At(net.hostPorts, d.host)
    ensures d in Destinations(net) && Attached(net, d)
  {
    hide Attached, PortsOf;
    DestinationsAttached(net, Sorted(net.hostPorts.Keys), cables);
    assert d.host in net.hostPorts.Keys;
  }

  lemma PortEnds(net: Net, cables: seq<Cable>, table: seq<Entry>, h: nat, port: int, leaf: nat)
    requires Accepted(net, cables, table) && h in net.hostPorts && h in net.leaves
    requires (port, leaf) in Attachments(cables, h)
    ensures leaf == h
  {
    var d := Destination(h, port, leaf);
    AttachmentsOf(net, h, cables);
    IsDestination(net, cables, d);
    LeafIsLast(net, cables, h, d);
  }

  /** A leaf that is a host has no links to other leaves: it can only be the last leaf. */
  lemma LeafIsLast(net: Net, cables: seq<Cable>, h: nat, d: Destination)
    requires Built(net, cables) && Attached(net, d) && Routed(net, d) && h in net.hostPorts && h in net.leaves
    ensures d.leaf == h
  {
    assert Attachments(cables, h) != [];
    HostsAreLow(cables, h);
    if d.leaf != h {
      var p := LeafOut(net, h, d)[0];
      NextHopMeans(net, cables, h, d, p);
      var n: nat :| p in PortsBetween(cables, h, n);
      LinksAreHigh(cables, h, n);
    }
  }

  lemma {:induction false} HostsAreLow(cables: seq<Cable>, host: nat)
    requires Attachments(cables, host) != []
    ensures host < FIRST_LEAF
  {
    var last := |cables| - 1;
    if Attachments(cables[..last], host) != [] {
      HostsAreLow(cables[..last], host);
    }
  }

  lemma {:induction false} LinksAreHigh(cables: seq<Cable>, x: nat, y: nat)
    requires PortsBetween(cables, x, y) != []
    ensures x >= FIRST_LEAF
  {
    var last := |cables| - 1;
    if PortsBetween(cables[..last], x, y) != [] {
      LinksAreHigh(cables[..last], x, y);
    }
  }

  lemma TellsHost(net: Net, cables: seq<Cable>, table: seq<Entry>, source: nat, d: Destination)
    requires Accepted(net, cables, table) && d in Destinations(net) && Attached(net, d) && Sends(net, source, d)
    ensures Tells(table, HostEntry(net, source, d), source, d.host, d.port)
  {
    hide Attached, Built, Destinations, PortsAt, Nearest;
    TableIs(net, Destinations(net), HostEntry(net, source, d));
    assert IsEntry(net, d, HostEntry(net, source, d));
  }

  /** Such an entry cannot keep its word: two hops round its own cable lead back. */
  lemma GoesRound(net: Net, cables: seq<Cable>, table: seq<Entry>, e: Entry, p: int)
    requires e in table && p in e.outPorts && e.dest != e.node && forall q | q in e.outPorts ::
              (q, e.node) in Attachments(cables, e.node)
    ensures !Sent(table, cables, e.node, e.dest, e.port, p, 2)
  {
    hide Attachments;
    var y := AttachmentWire(cables, e.node, p, e.node);
    assert Tells(table, e, e.node, e.dest, e.port);
    assert !Sent(table, cables, e.node, e.dest, e.port, p, 1);
    assert !Forwards(table, cables, e.node, e.dest, e.port, 1);
  }

  // ------------------------------------------------------------------------ shortest paths

  /** A leaf lists the port exactly when it leads to a neighbour one link nearer to `final`, or at the last leaf when it
      is the one last cabled to the destination port. */
  ghost predicate LeafRight(cables: seq<Cable>, e: Entry, final: nat, distance: nat, p: int) {
    p in e.outPorts <==>
      if e.node == final then LeafPort(cables, e.dest, e.port) == Some(p)
      else exists n: nat :: Approaches(cables, e.node, p, n, final, distance)
  }

  /** A leaf's entry towards a host port behind `final`: exactly the shortest next hops, with the true number of
      hops. */
  ghost predicate LeafBest(cables: seq<Cable>, e: Entry, final: nat, distance: nat) {
    && Shortest(cables, e.node, final, distance) && e.metrics == Repeat(distance + 1, |e.outPorts|)
    && forall p :: LeafRight(cables, e, final, distance, p)
  }

  /** A host lists the port exactly when it leads to an attached leaf at this distance from `final`. */
  ghost predicate HostRight(cables: seq<Cable>, e: Entry, final: nat, distance: nat, p: int) {
    p in e.outPorts <==>
      exists leaf: nat :: (p, leaf) in Attachments(cables, e.node) && Shortest(cables, leaf, final, distance)
  }

  ghost predicate NoNearer(cables: seq<Cable>, leaf: nat, final: nat, distance: nat) {
    exists n: nat :: distance <= n && Shortest(cables, leaf, final, n)
  }

  /** A host's entry: exactly its ports to the attached leaves nearest to `final`. */
  ghost predicate HostBest(cables: seq<Cable>, e: Entry, final: nat, distance: nat) {
    && e.metrics == Repeat(distance + 2, |e.outPorts|)
    && (forall a: (int, nat) | a in Attachments(cables, e.node) :: NoNearer(cables, a.1, final, distance))
    && forall p :: HostRight(cables, e, final, distance, p)
  }

  lemma LeafIsRight(net: Net, cables: seq<Cable>, leaf: nat, d: Destination, p: int)
    requires Built(net, cables) && Attached(net, d) && leaf in net.leaves
    ensures LeafRight(cables, LeafEntry(net, leaf, d), d.leaf, net.Distance(leaf, d.leaf), p)
  {
    LeafMetrics(net, leaf, d);
    hide Built, Attached, LeafEntry, Approaches, Net.Distance;
    if leaf == d.leaf {
      LastPortListed(net, cables, d, p);
    } else {
      AllShortestNextHops(net, cables, leaf, d, p);
    }
  }

  lemma LeafIsBest(net: Net, cables: seq<Cable>, leaf: nat, d: Destination)
    requires Built(net, cables) && Attached(net, d) && Routed(net, d) && leaf in net.leaves
    ensures LeafBest(cables, LeafEntry(net, leaf, d), d.leaf, net.Distance(leaf, d.leaf))
  {
    LeafMetrics(net, leaf, d);
    assert LeafOut(net, leaf, d) != [];
    hide Built, Attached, Routed, LeafEntry, LeafOut, LeafRight, Shortest;
    DistanceIsShortest(net, cables, leaf, d);
    forall p ensures LeafRight(cables, LeafEntry(net, leaf, d), d.leaf, net.Distance(leaf, d.leaf), p) {
      LeafIsRight(net, cables, leaf, d, p);
    }
  }

  lemma LeafMetrics(net: Net, leaf: nat, d: Destination)
    requires Attached(net, d)
    ensures var e := LeafEntry(net, leaf, d);
      && e.node == leaf && e.dest == d.host && e.port == d.port
      && e.metrics == Repeat(1 + net.Distance(leaf, d.leaf), |e.outPorts|)
  {
  }

  lemma OnlyPort(net: Net, d: Destination, p: int)
    requires Attached(net, d)
    ensures p in LeafEntry(net, d.leaf, d).outPorts <==> p == net.leafHostPorts[(d.host, d.port)]
  {
    HasLastPort(net, d);
    SortByMembers(AtMost, LeafOut(net, d.leaf, d));
  }

  lemma LastPortListed(net: Net, cables: seq<Cable>, d: Destination, p: int)
    requires Built(net, cables) && Attached(net, d)
    ensures p in LeafEntry(net, d.leaf, d).outPorts <==> LeafPort(cables, d.host, d.port) == Some(p)
  {
    OnlyPort(net, d, p);
    hide LinksBuilt, HostsBuilt, LeafEntry;
    assert LeafPort(cables, d.host, d.port) == Some(net.leafHostPorts[(d.host, d.port)]);
  }

  /** With one cable per port, that is the one port of the last leaf that is cabled to the destination port. */
  lemma LastPortWire(cables: seq<Cable>, host: nat, port: int, final: nat, p: int)
    requires WiredOnce(cables) && (port, final) in Attachments(cables, host)
    ensures LeafPort(cables, host, port) == Some(p) <==> Wire(cables, final, p, host, port)
  {
    hide Wire;
    AttachmentHasPort(cables, host, port, final);
    var lp := AttachmentWire(cables, host, port, final);
    var leaf := LeafPortWire(cables, host, port);
    WireTurns(cables, host, port, final, lp);
    if Wire(cables, final, p, host, port) {
      WireTurns(cables, final, p, host, port);
    }
  }

  lemma LeafDistance(net: Net, cables: seq<Cable>, leaf: nat, d: Destination, n: nat)
    requires Built(net, cables) && Attached(net, d) && Routed(net, d) && leaf in net.leaves
    ensures Shortest(cables, leaf, d.leaf, n) <==> n == net.Distance(leaf, d.leaf)
  {
    DistanceIsShortest(net, cables, leaf, d);
  }

  /** The true distance of a leaf attached to a host. */
  lemma AttachedDistance(net: Net, cables: seq<Cable>, source: nat, d: Destination, p: int, leaf: nat, n: nat)
    requires Built(net, cables) && Attached(net, d) && Routed(net, d) && (p, leaf) in Attachments(cables, source)
    ensures Shortest(cables, leaf, d.leaf, n) <==> n == net.Distance(leaf, d.leaf)
  {
    hide Built, Attached, Routed, Shortest;
    AttachmentHasPort(cables, source, p, leaf);
    LeavesOf(net, cables);
    LeafDistance(net, cables, leaf, d, n);
  }

  lemma HostIsRight(net: Net, cables: seq<Cable>, source: nat, d: Destination, p: int)
    requires Built(net, cables) && Attached(net, d) && Routed(net, d) && At(net.hostPorts, source) != []
    ensures HostRight(cables, HostEntry(net, source, d), d.leaf, Nearest(net, At(net.hostPorts, source), d.leaf), p)
  {
    hide Built, Attached, Routed, Shortest, At, Attachments, HostEntry, Nearest, Net.Distance, Repeat;
    AttachmentsOf(net, source, cables);
    HostPorts(net, source, d);
    var best := Nearest(net, At(net.hostPorts, source), d.leaf);
    forall leaf: nat | (p, leaf) in Attachments(cables, source)
      ensures Shortest(cables, leaf, d.leaf, best) <==> best == net.Distance(leaf, d.leaf)
    {
      AttachedDistance(net, cables, source, d, p, leaf, best);
    }
  }

  lemma NearestIsNearest(net: Net, cables: seq<Cable>, source: nat, d: Destination, a: (int, nat))
    requires Built(net, cables) && Attached(net, d) && Routed(net, d) && a in Attachments(cables, source)
    requires At(net.hostPorts, source) == Attachments(cables, source)
    ensures NoNearer(cables, a.1, d.leaf, Nearest(net, At(net.hostPorts, source), d.leaf))
  {
    hide Built, Attached, Routed, Shortest, At, Attachments, Net.Distance, Nearest;
    var ports, n: nat := At(net.hostPorts, source), net.Distance(a.1, d.leaf);
    var i :| 0 <= i < |ports| && ports[i] == a;
    AttachedDistance(net, cables, source, d, a.0, a.1, n);
  }

  lemma HostIsBest(net: Net, cables: seq<Cable>, source: nat, d: Destination)
    requires Built(net, cables) && Attached(net, d) && Routed(net, d) && At(net.hostPorts, source) != []
    ensures HostBest(cables, HostEntry(net, source, d), d.leaf, Nearest(net, At(net.hostPorts, source), d.leaf))
  {
    hide Built, Attached, Routed, At, Attachments, HostEntry, Nearest, HostRight, NoNearer, Repeat;
    AttachmentsOf(net, source, cables);
    HostPorts(net, source, d);
    forall a: (int, nat) | a in Attachments(cables, source)
      ensures NoNearer(cables, a.1, d.leaf, Nearest(net, At(net.hostPorts, source), d.leaf))
    {
      NearestIsNearest(net, cables, source, d, a);
    }
    forall p
      ensures HostRight(cables, HostEntry(net, source, d), d.leaf, Nearest(net, At(net.hostPorts, source), d.leaf), p)
    {
      HostIsRight(net, cables, source, d, p);
    }
  }

  lemma HostPorts(net: Net, source: nat, d: Destination)
    requires At(net.hostPorts, source) != []
    ensures var ports, e := At(net.hostPorts, source), HostEntry(net, source, d);
      var best := Nearest(net, ports, d.leaf);
      && e.node == source && e.metrics == Repeat(best + 2, |e.outPorts|) && e.outPorts != []
      && forall p :: p in e.outPorts <==> exists leaf: nat :: (p, leaf) in ports && net.Distance(leaf, d.leaf) == best
  {
    var ports, e := At(net.hostPorts, source), HostEntry(net, source, d);
    var best := Nearest(net, ports, d.leaf);
    SortByMembers(AtMost, PortsAt(net, ports, d.leaf, best));
    var nearest :| 0 <= nearest < |ports| && best == net.Distance(ports[nearest].1, d.leaf);
    assert ports[nearest].0 in e.outPorts;
    hide At, Nearest, Net.Distance, SortBy;
    forall p ensures p in e.outPorts <==> exists leaf: nat :: (p, leaf) in ports && net.Distance(leaf, d.leaf) == best {
      if leaf: nat :| (p, leaf) in ports && net.Distance(leaf, d.leaf) == best {
        var i :| 0 <= i < |ports| && ports[i] == (p, leaf);
        assert ports[i].0 == p;
      }
      if p in e.outPorts {
        var i :| 0 <= i < |ports| && ports[i].0 == p && net.Distance(ports[i].1, d.leaf) == best;
        assert (p, ports[i].1) in ports;
      }
    }
  }

  /** Every entry of an accepted table lists exactly the shortest next hops, with their true numbers of hops. */
  lemma EveryEntryIsShortest(net: Net, cables: seq<Cable>, table: seq<Entry>, e: Entry)
    returns (final: nat, distance: nat)
    requires Accepted(net, cables, table) && e in table
    ensures e.outPorts != [] && (e.port, final) in Attachments(cables, e.dest)
    ensures LeafBest(cables, e, final, distance) || HostBest(cables, e, final, distance)
    ensures e.node !in net.hostPorts ==> LeafBest(cables, e, final, distance)
    ensures e.node !in net.leaves ==> HostBest(cables, e, final, distance)
  {
    hide Built, Routed, AllRouted, AllAttached, Destinations, Table, LeafBest, HostBest, LeafEntry, HostEntry, Nearest,
      At, Attachments;
    var d := EntryOf(net, cables, table, e);
    AttachmentsOf(net, d.host, cables);
    final := d.leaf;
    if e.node in net.leaves && e == LeafEntry(net, e.node, d) {
      LeafIsBest(net, cables, e.node, d);
      LeafPorts(net, e.node, d);
      distance := net.Distance(e.node, d.leaf);
    } else {
      HostIsBest(net, cables, e.node, d);
      HostPorts(net, e.node, d);
      distance := Nearest(net, At(net.hostPorts, e.node), d.leaf);
    }
  }
}

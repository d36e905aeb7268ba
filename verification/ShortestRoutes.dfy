/** What an accepted routing table means: true shortest distances, all shortest next hops, and delivery without
    loops. */
module ShortestRoutes {
  import opened Collections
  import opened Listings
  import opened Ordering
  import opened Routing

  ghost predicate Linked(cables: seq<Cable>, x: nat, y: nat) {
    PortsBetween(cables, x, y) != []
  }

  /** A path of exactly `n` links between leaves. */
  ghost predicate Hops(cables: seq<Cable>, x: nat, y: nat, n: nat)
    decreases n
  {
    if n == 0 then x == y else exists z: nat :: Linked(cables, x, z) && Hops(cables, z, y, n - 1)
  }

  ghost predicate Shortest(cables: seq<Cable>, x: nat, y: nat, n: nat) {
    Hops(cables, x, y, n) && forall k: nat | k < n :: !Hops(cables, x, y, k)
  }

  lemma LinkedAreLeaves(cables: seq<Cable>, x: nat, y: nat)
    requires Linked(cables, x, y)
    ensures x in Leaves(cables) && y in Leaves(cables)
  {
    var last := |cables| - 1;
    if PortsBetween(cables[..last], x, y) != [] {
      LinkedAreLeaves(cables[..last], x, y);
    }
  }

  lemma OneHop(cables: seq<Cable>, x: nat, y: nat)
    ensures Hops(cables, x, y, 1) <==> Linked(cables, x, y)
  {
    assert Linked(cables, x, y) ==> Hops(cables, y, y, 0);
  }

  lemma TwoHops(cables: seq<Cable>, x: nat, y: nat)
    ensures Hops(cables, x, y, 2) <==> exists z :: Linked(cables, x, z) && Linked(cables, z, y)
  {
    forall z ensures Hops(cables, z, y, 1) <==> Linked(cables, z, y) {
      OneHop(cables, z, y);
    }
    if Hops(cables, x, y, 2) {
      var z :| Linked(cables, x, z) && Hops(cables, z, y, 2 - 1);
      assert Linked(cables, z, y);
    }
    if z :| Linked(cables, x, z) && Linked(cables, z, y) {
      assert Hops(cables, z, y, 2 - 1);
    }
  }

  /** Below two hops the assumed distance is always the true one. */
  lemma NearIsTrue(net: Net, cables: seq<Cable>, x: nat, y: nat, d: nat)
    requires Built(net, cables) && d < 2
    ensures net.Distance(x, y) == d <==> Shortest(cables, x, y, d)
  {
    OneHop(cables, x, y);
    assert (x, y) in net.leafLinks <==> Linked(cables, x, y);
    assert Hops(cables, x, y, 0) <==> x == y;
  }

  lemma {:induction false} NextPortsMember(net: Net, neighbours: seq<nat>, leaf: nat, final: nat, p: int)
    ensures p in NextPorts(net, neighbours, leaf, final) <==>
              exists n :: n in neighbours && IsNext(net, leaf, n, final) && p in net.leafLinks[(leaf, n)]
  {
    if neighbours != [] {
      var last := |neighbours| - 1;
      NextPortsMember(net, neighbours[..last], leaf, final, p);
      assert forall n :: n in neighbours <==> n == neighbours[last] || n in neighbours[..last];
    }
  }

  /** A leaf other than the last has a next hop exactly when the last leaf is at most two links away. */
  lemma NextHopExists(net: Net, cables: seq<Cable>, leaf: nat, d: Destination)
    requires Built(net, cables) && Attached(net, d) && leaf != d.leaf && leaf in net.leaves && d.leaf in net.leaves
    ensures LeafOut(net, leaf, d) != [] <==> Hops(cables, leaf, d.leaf, 1) || Hops(cables, leaf, d.leaf, 2)
  {
    OneHop(cables, leaf, d.leaf);
    TwoHops(cables, leaf, d.leaf);
    var out := LeafOut(net, leaf, d);
    if out != [] {
      NextHopMeans(net, cables, leaf, d, out[0]);
    }
    if Linked(cables, leaf, d.leaf) {
      LinkGivesPort(net, cables, leaf, d, d.leaf);
    } else if z: nat :| Linked(cables, leaf, z) && Linked(cables, z, d.leaf) {
      LinkedAreLeaves(cables, leaf, z);
      LinkGivesPort(net, cables, leaf, d, z);
    }
  }

  lemma NextHopMeans(net: Net, cables: seq<Cable>, leaf: nat, d: Destination, p: int)
    requires Built(net, cables) && Attached(net, d) && leaf != d.leaf && p in LeafOut(net, leaf, d)
    ensures exists n: nat :: n in net.leaves && IsNext(net, leaf, n, d.leaf) && p in PortsBetween(cables, leaf, n)
    ensures Linked(cables, leaf, d.leaf) || exists z: nat :: Linked(cables, leaf, z) && Linked(cables, z, d.leaf)
  {
    NextPortsMember(net, Sorted(net.leaves), leaf, d.leaf, p);
    var n :| n in Sorted(net.leaves) && IsNext(net, leaf, n, d.leaf) && p in net.leafLinks[(leaf, n)];
    assert At(net.leafLinks, (leaf, n)) == PortsBetween(cables, leaf, n);
    assert Linked(cables, leaf, n) && (net.Distance(n, d.leaf) == 1 ==> Linked(cables, n, d.leaf));
  }

  lemma LinkGivesPort(net: Net, cables: seq<Cable>, leaf: nat, d: Destination, n: nat)
    requires Built(net, cables) && Attached(net, d) && leaf != d.leaf && n in net.leaves
    requires Linked(cables, leaf, n) && IsNext(net, leaf, n, d.leaf)
    ensures LeafOut(net, leaf, d) != []
  {
    var p := net.leafLinks[(leaf, n)][0];
    NextPortsMember(net, Sorted(net.leaves), leaf, d.leaf, p);
  }

  // ------------------------------------------------------------------------- shortest paths

  /** The last leaf of a destination is a leaf. */
  lemma LastLeafIsLeaf(net: Net, cables: seq<Cable>, d: Destination)
    requires Built(net, cables) && Attached(net, d)
    ensures d.leaf in net.leaves
  {
    AttachmentHasPort(cables, d.host, d.port, d.leaf);
  }

  ghost predicate Near(cables: seq<Cable>, x: nat, y: nat) {
    Hops(cables, x, y, 0) || Hops(cables, x, y, 1) || Hops(cables, x, y, 2)
  }

  /** A leaf has an entry exactly when it is at most two links from the last leaf. */
  lemma EntryMeansNear(net: Net, cables: seq<Cable>, leaf: nat, d: Destination)
    requires Built(net, cables) && Attached(net, d) && leaf in net.leaves
    ensures LeafOut(net, leaf, d) != [] <==> Near(cables, leaf, d.leaf)
  {
    LastLeafIsLeaf(net, cables, d);
    assert Hops(cables, leaf, d.leaf, 0) <==> leaf == d.leaf;
    hide Built, LeafOut, Attached, Hops;
    if leaf == d.leaf {
      HasLastPort(net, d);
    } else {
      NextHopExists(net, cables, leaf, d);
    }
  }

  /** A table is accepted exactly when every leaf is at most two links from every host-attached leaf. */
  lemma RoutedMeansNear(net: Net, cables: seq<Cable>, d: Destination)
    requires Built(net, cables) && Attached(net, d)
    ensures Routed(net, d) <==> forall leaf | leaf in net.leaves :: Near(cables, leaf, d.leaf)
  {
    hide Built, LeafOut, Attached, Near;
    forall leaf | leaf in net.leaves ensures LeafOut(net, leaf, d) != [] <==> Near(cables, leaf, d.leaf) {
      EntryMeansNear(net, cables, leaf, d);
    }
  }

  lemma HasLastPort(net: Net, d: Destination)
    requires Attached(net, d)
    ensures LeafOut(net, d.leaf, d) == [net.leafHostPorts[(d.host, d.port)]]
  {
  }

  /** In an accepted table the assumed distance of a leaf is the true shortest distance. */
  lemma DistanceIsShortest(net: Net, cables: seq<Cable>, leaf: nat, d: Destination)
    requires Built(net, cables) && Attached(net, d) && leaf in net.leaves && LeafOut(net, leaf, d) != []
    ensures Shortest(cables, leaf, d.leaf, net.Distance(leaf, d.leaf))
  {
    hide Built, LeafOut, Attached, Hops;
    LastLeafIsLeaf(net, cables, d);
    if net.Distance(leaf, d.leaf) < 2 {
      NearIsTrue(net, cables, leaf, d.leaf, net.Distance(leaf, d.leaf));
    } else {
      NearIsTrue(net, cables, leaf, d.leaf, 0);
      NearIsTrue(net, cables, leaf, d.leaf, 1);
      NextHopExists(net, cables, leaf, d);
      NoShorter(cables, leaf, d.leaf);
    }
  }

  lemma NoShorter(cables: seq<Cable>, x: nat, y: nat)
    requires !Shortest(cables, x, y, 0) && !Shortest(cables, x, y, 1)
    ensures !Hops(cables, x, y, 0) && !Hops(cables, x, y, 1)
  {
  }

  /** The port leads to a leaf that is one link nearer to the last leaf. */
  ghost predicate Approaches(cables: seq<Cable>, leaf: nat, p: int, n: nat, final: nat, distance: nat) {
    distance > 0 && p in PortsBetween(cables, leaf, n) && Shortest(cables, n, final, distance - 1)
  }

  lemma ListedApproaches(net: Net, cables: seq<Cable>, leaf: nat, d: Destination, p: int) returns (n: nat)
    requires Built(net, cables) && Attached(net, d) && leaf != d.leaf && p in LeafOut(net, leaf, d)
    ensures Approaches(cables, leaf, p, n, d.leaf, net.Distance(leaf, d.leaf))
  {
    NextHopMeans(net, cables, leaf, d, p);
    n :| n in net.leaves && IsNext(net, leaf, n, d.leaf) && p in PortsBetween(cables, leaf, n);
    hide Built, LeafOut, Attached, Hops, Shortest, PortsBetween;
    NearIsTrue(net, cables, n, d.leaf, net.Distance(n, d.leaf));
  }

  lemma ApproachingIsListed(net: Net, cables: seq<Cable>, leaf: nat, d: Destination, p: int, n: nat)
    requires Built(net, cables) && Attached(net, d) && leaf != d.leaf
    requires Approaches(cables, leaf, p, n, d.leaf, net.Distance(leaf, d.leaf))
    ensures p in LeafOut(net, leaf, d)
  {
    hide Attached, Hops, Shortest, PortsBetween, Leaves;
    NearIsTrue(net, cables, n, d.leaf, net.Distance(leaf, d.leaf) - 1);
    assert Linked(cables, leaf, n);
    LinkedAreLeaves(cables, leaf, n);
    assert At(net.leafLinks, (leaf, n)) == PortsBetween(cables, leaf, n);
    NextPortsMember(net, Sorted(net.leaves), leaf, d.leaf, p);
  }

  /** The listed ports of a leaf are exactly its ports to the neighbours that are one link nearer to the last leaf. */
  lemma AllShortestNextHops(net: Net, cables: seq<Cable>, leaf: nat, d: Destination, p: int)
    requires Built(net, cables) && Attached(net, d) && leaf in net.leaves && leaf != d.leaf
    ensures p in LeafEntry(net, leaf, d).outPorts <==>
              exists n: nat :: Approaches(cables, leaf, p, n, d.leaf, net.Distance(leaf, d.leaf))
  {
    hide Built, LeafOut, Attached, Approaches;
    SortByMembers(AtMost, LeafOut(net, leaf, d));
    if p in LeafOut(net, leaf, d) {
      var n := ListedApproaches(net, cables, leaf, d, p);
    }
    if n: nat :| Approaches(cables, leaf, p, n, d.leaf, net.Distance(leaf, d.leaf)) {
      ApproachingIsListed(net, cables, leaf, d, p, n);
    }
  }

  // ------------------------------------------------------------------------------- delivery

  /** A cable joins the two ports. */
  ghost predicate Wire(cables: seq<Cable>, x: nat, p: int, y: nat, q: int) {
    exists i :: 0 <= i < |cables| && (cables[i] == Cable(x, p, y, q) || cables[i] == Cable(y, q, x, p))
  }

  /** Every port leads to one place. */
  ghost predicate WiredOnce(cables: seq<Cable>) {
    forall x, p, y, q, y', q' | Wire(cables, x, p, y, q) && Wire(cables, x, p, y', q') :: y == y' && q == q'
  }

  lemma {:induction false} LinkWire(cables: seq<Cable>, x: nat, y: nat, p: int) returns (q: int)
    requires p in PortsBetween(cables, x, y)
    ensures Wire(cables, x, p, y, q)
  {
    var last := |cables| - 1;
    var c := cables[last];
    if p in PortsBetween(cables[..last], x, y) {
      q := LinkWire(cables[..last], x, y, p);
      WireGrows(cables, x, p, y, q);
    } else {
      q := if BetweenLeaves(c) && (c.a, c.b) == (x, y) && p == c.ap then c.bp else c.ap;
      assert c == Cable(x, p, y, q) || c == Cable(y, q, x, p);
    }
  }

  lemma WireGrows(cables: seq<Cable>, x: nat, p: int, y: nat, q: int)
    requires cables != [] && Wire(cables[..|cables| - 1], x, p, y, q)
    ensures Wire(cables, x, p, y, q)
  {
    var i :| 0 <= i < |cables| - 1 && cables[..|cables| - 1][i] in {Cable(x, p, y, q), Cable(y, q, x, p)};
    assert cables[i] == cables[..|cables| - 1][i];
  }

  lemma {:induction false} AttachmentWire(cables: seq<Cable>, host: nat, port: int, leaf: nat) returns (lp: int)
    requires (port, leaf) in Attachments(cables, host)
    ensures Wire(cables, host, port, leaf, lp)
  {
    var last := |cables| - 1;
    var c := cables[last];
    if (port, leaf) in Attachments(cables[..last], host) {
      lp := AttachmentWire(cables[..last], host, port, leaf);
      WireGrows(cables, host, port, leaf, lp);
    } else {
      lp := HostEnd(c).3;
      assert c == Cable(host, port, leaf, lp) || c == Cable(leaf, lp, host, port);
    }
  }

  lemma {:induction false} LeafPortWire(cables: seq<Cable>, host: nat, port: int) returns (leaf: nat)
    requires LeafPort(cables, host, port).Some?
    ensures Wire(cables, host, port, leaf, LeafPort(cables, host, port).value)
  {
    var last := |cables| - 1;
    var c := cables[last];
    if !BetweenLeaves(c) && HostEnd(c).0 == host && HostEnd(c).1 == port {
      leaf := HostEnd(c).2;
      assert c == Cable(host, port, leaf, HostEnd(c).3) || c == Cable(leaf, HostEnd(c).3, host, port);
    } else {
      leaf := LeafPortWire(cables[..last], host, port);
      WireGrows(cables, host, port, leaf, LeafPort(cables, host, port).value);
    }
  }

  lemma WireTurns(cables: seq<Cable>, x: nat, p: int, y: nat, q: int)
    requires Wire(cables, x, p, y, q)
    ensures Wire(cables, y, q, x, p)
  {
  }

  /** Whatever listed port it takes at every hop, a packet at the leaf reaches the destination port after exactly `n`
      hops. */
  ghost predicate Delivers(net: Net, cables: seq<Cable>, leaf: nat, d: Destination, n: nat)
    requires Attached(net, d)
    decreases n, 1
  {
    && n > 0 && leaf in net.leaves && LeafEntry(net, leaf, d).outPorts != []
    && forall p | p in LeafEntry(net, leaf, d).outPorts :: PortDelivers(net, cables, leaf, d, p, n)
  }

  /** The same for a packet that leaves by the given port. */
  ghost predicate PortDelivers(net: Net, cables: seq<Cable>, x: nat, d: Destination, p: int, n: nat)
    requires Attached(net, d) && n > 0
    decreases n, 0
  {
    && Plugged(cables, x, p)
    && forall y: nat, q | Wire(cables, x, p, y, q) ::
         if n == 1 then y == d.host && q == d.port else Delivers(net, cables, y, d, n - 1)
  }

  /** The port has a cable. */
  ghost predicate Plugged(cables: seq<Cable>, x: nat, p: int) {
    exists y: nat, q :: Wire(cables, x, p, y, q)
  }

  /** The port of the last leaf leads to the destination port. */
  lemma LastHop(net: Net, cables: seq<Cable>, d: Destination)
    requires Built(net, cables) && Attached(net, d) && WiredOnce(cables)
    ensures Wire(cables, d.leaf, net.leafHostPorts[(d.host, d.port)], d.host, d.port)
  {
    var lp := AttachmentWire(cables, d.host, d.port, d.leaf);
    var leaf := LeafPortWire(cables, d.host, d.port);
    WireTurns(cables, d.host, d.port, d.leaf, lp);
  }

  /** One hop: off the last leaf to the destination port, off any other to a leaf one link nearer. */
  lemma HopForward(net: Net, cables: seq<Cable>, leaf: nat, d: Destination, p: int)
    requires Built(net, cables) && Attached(net, d) && WiredOnce(cables) && p in LeafOut(net, leaf, d)
    ensures Plugged(cables, leaf, p)
    ensures forall y: nat, q | Wire(cables, leaf, p, y, q) ::
              if leaf == d.leaf then y == d.host && q == d.port
              else y in net.leaves && net.Distance(y, d.leaf) == net.Distance(leaf, d.leaf) - 1
  {
    if leaf == d.leaf {
      LastHop(net, cables, d);
    } else {
      NextHopMeans(net, cables, leaf, d, p);
      var n: nat :| n in net.leaves && IsNext(net, leaf, n, d.leaf) && p in PortsBetween(cables, leaf, n);
      hide Built, LeafOut, Attached, PortsBetween, Wire;
      var q := LinkWire(cables, leaf, n, p);
    }
  }

  lemma LeafPorts(net: Net, leaf: nat, d: Destination)
    requires Attached(net, d) && Routed(net, d) && leaf in net.leaves
    ensures LeafEntry(net, leaf, d).outPorts != [] && LeafOut(net, leaf, d) != []
    ensures forall p :: p in LeafEntry(net, leaf, d).outPorts <==> p in LeafOut(net, leaf, d)
  {
    var out := LeafOut(net, leaf, d);
    SortByMembers(AtMost, out);
    assert out[0] in SortBy(AtMost, out);
  }

  /** In an accepted table every leaf delivers in as many hops as its metric says. */
  lemma {:induction false} LeafDelivers(net: Net, cables: seq<Cable>, leaf: nat, d: Destination)
    requires Built(net, cables) && Attached(net, d) && WiredOnce(cables) && Routed(net, d) && leaf in net.leaves
    ensures Delivers(net, cables, leaf, d, 1 + net.Distance(leaf, d.leaf))
    decreases net.Distance(leaf, d.leaf), 1
  {
    hide Built, LeafOut, LeafEntry, Attached, Wire, PortDelivers, WiredOnce, Routed, Net.Distance;
    LeafPorts(net, leaf, d);
    var out := LeafOut(net, leaf, d);
    forall p | p in out ensures PortDelivers(net, cables, leaf, d, p, 1 + net.Distance(leaf, d.leaf)) {
      LeafPortDelivers(net, cables, leaf, d, p);
    }
  }

  lemma {:induction false} LeafPortDelivers(net: Net, cables: seq<Cable>, leaf: nat, d: Destination, p: int)
    requires Built(net, cables) && Attached(net, d) && WiredOnce(cables) && Routed(net, d) && leaf in net.leaves
    requires p in LeafOut(net, leaf, d)
    ensures PortDelivers(net, cables, leaf, d, p, 1 + net.Distance(leaf, d.leaf))
    decreases net.Distance(leaf, d.leaf), 0
  {
    hide Built, LeafOut, Attached, Wire, Plugged, WiredOnce, Routed, Delivers;
    HopForward(net, cables, leaf, d, p);
    if leaf != d.leaf {
      forall y: nat, q | Wire(cables, leaf, p, y, q) ensures Delivers(net, cables, y, d, net.Distance(leaf, d.leaf)) {
        LeafDelivers(net, cables, y, d);
      }
    }
  }

  /** A listed port of a host leads to an attached leaf at the smallest distance. */
  lemma HostHop(net: Net, cables: seq<Cable>, source: nat, d: Destination, p: int) returns (leaf: nat)
    requires Built(net, cables) && Attached(net, d) && WiredOnce(cables)
    requires At(net.hostPorts, source) != [] && p in HostEntry(net, source, d).outPorts
    ensures Plugged(cables, source, p) && leaf in net.leaves
    ensures net.Distance(leaf, d.leaf) == Nearest(net, At(net.hostPorts, source), d.leaf)
    ensures forall y: nat, q | Wire(cables, source, p, y, q) :: y == leaf
  {
    var ports := At(net.hostPorts, source);
    var best := Nearest(net, ports, d.leaf);
    SortByMembers(AtMost, PortsAt(net, ports, d.leaf, best));
    var i :| 0 <= i < |ports| && ports[i].0 == p && net.Distance(ports[i].1, d.leaf) == best;
    leaf := ports[i].1;
    assert (p, leaf) in Attachments(cables, source);
    hide Built, Attached, Wire, HostEntry;
    var lp := AttachmentWire(cables, source, p, leaf);
    AttachmentHasPort(cables, source, p, leaf);
    LeavesOf(net, cables);
  }

  lemma LeavesOf(net: Net, cables: seq<Cable>)
    requires Built(net, cables)
    ensures net.leaves == Leaves(cables)
  {
  }

  /** In an accepted table every host that is not the destination sends to its nearest attached leaves only, and every
      listed port delivers in as many hops as its metric says. */
  lemma HostDelivers(net: Net, cables: seq<Cable>, source: nat, d: Destination, p: int)
    requires Built(net, cables) && Attached(net, d) && WiredOnce(cables) && Routed(net, d)
    requires At(net.hostPorts, source) != [] && p in HostEntry(net, source, d).outPorts
    ensures PortDelivers(net, cables, source, d, p, Nearest(net, At(net.hostPorts, source), d.leaf) + 2)
  {
    hide Built, Attached, Wire, HostEntry, Plugged, WiredOnce, Routed, Delivers, Nearest;
    var leaf := HostHop(net, cables, source, d, p);
    LeafDelivers(net, cables, leaf, d);
  }
}

/** The audit of optical rewiring logs: what an accepted log guarantees about every applied epoch. */
module ToeAudit {
  import opened Collections

  datatype Circuit = Circuit(a: int, ap: int, b: int, bp: int)

  type Port = (int, int)

  type Pair = (int, int)

  datatype Status = INITIAL | SOLVED | RETAINED | REMOVE | ADD | TARGET | APPLIED

  type Key = (nat, Status)

  datatype Scope = GLOBAL | SELECTIVE | OTHER_SCOPE

  datatype Audit = Audit(retained: int, rewired: int, paused: int, total: int, scope: Scope)

  /** The parsed logs; `changed` is the solver's circuit count of a summary row. */
  datatype Logs = Logs(circuits: map<Key, seq<Circuit>>, expected: map<Key, map<Pair, int>>,
                       audits: map<Key, Audit>, changed: map<Key, int>)
  {
    function Circuits(epoch: nat, status: Status): seq<Circuit> {
      if (epoch, status) in circuits then circuits[(epoch, status)] else []
    }
  }

  /** One applied reconfiguration. */
  datatype Plan = Plan(epoch: nat, before: seq<Circuit>, retained: seq<Circuit>, added: seq<Circuit>,
                       after: seq<Circuit>)

  // --------------------------------------------------------------- ports and leaf pairs

  function PairOf(c: Circuit): Pair { (c.a, c.b) }

  function Sources(circuits: seq<Circuit>): (r: seq<Port>)
    ensures |r| == |circuits|
  {
    if circuits == [] then [] else [(circuits[0].a, circuits[0].ap)] + Sources(circuits[1..])
  }

  function Targets(circuits: seq<Circuit>): (r: seq<Port>)
    ensures |r| == |circuits|
  {
    if circuits == [] then [] else [(circuits[0].b, circuits[0].bp)] + Targets(circuits[1..])
  }

  function Endpoints(circuits: seq<Circuit>): seq<Port> {
    Sources(circuits) + Targets(circuits)
  }

  function PairCount(circuits: seq<Circuit>, p: Pair): nat {
    if circuits == [] then 0 else (if PairOf(circuits[0]) == p then 1 else 0) + PairCount(circuits[1..], p)
  }

  /** The leaf pairs in use, each once. */
  function Pairs(circuits: seq<Circuit>): (r: seq<Pair>)
    ensures Distinct(r)
    ensures forall p :: p in r <==> exists c | c in circuits :: PairOf(c) == p
  {
    if circuits == [] then []
    else
      var rest := Pairs(circuits[1..]);
      var p := PairOf(circuits[0]);
      assert forall c :: c in circuits <==> c == circuits[0] || c in circuits[1..];
      if p in rest then rest else [p] + rest
  }

  /** Circuits per leaf pair. */
  function Topology(circuits: seq<Circuit>): map<Pair, int> {
    map p | p in Pairs(circuits) :: PairCount(circuits, p)
  }

  function Degree(ports: seq<Port>, leaf: int): nat {
    if ports == [] then 0 else (if ports[0].0 == leaf then 1 else 0) + Degree(ports[1..], leaf)
  }

  const FIRST_LEAF := 37
  const LAST_LEAF := 56
  const CIRCUITS := 640
  const LEAF_DEGREE := 64
  const LEAF_PAIRS := 160

  /** Four leaves each form a group; circuits join leaves of different groups. */
  predicate CrossGroup(a: int, b: int) {
    FIRST_LEAF <= a < b <= LAST_LEAF && (a - FIRST_LEAF) / 4 != (b - FIRST_LEAF) / 4
  }

  /** All 640 circuits on distinct ports, every leaf used 64 times, every cross-group leaf pair covered. */
  predicate ValidPorts(circuits: seq<Circuit>) {
    && |circuits| == CIRCUITS
    && |set p | p in Endpoints(circuits)| == 2 * CIRCUITS
    && (forall p | p in Endpoints(circuits) :: FIRST_LEAF <= p.0 <= LAST_LEAF)
    && (forall leaf | FIRST_LEAF <= leaf <= LAST_LEAF :: Degree(Endpoints(circuits), leaf) == LEAF_DEGREE)
    && |Topology(circuits)| == LEAF_PAIRS
    && forall c | c in circuits :: CrossGroup(c.a, c.b)
  }

  // ------------------------------------------------------------------ leaf-pair coverage

  /** The pairs of one leaf with larger ones, up to `until`, and those of the first `n` leaves. */
  function PairsWith(a: int, until: int): set<Pair>
    decreases until
  {
    if until < FIRST_LEAF then {}
    else PairsWith(a, until - 1) + if CrossGroup(a, until) then {(a, until)} else {}
  }

  function CrossPairs(n: nat): set<Pair> {
    if n == 0 then {} else CrossPairs(n - 1) + PairsWith(FIRST_LEAF + n - 1, LAST_LEAF)
  }

  /** How many leaves are in a later group than that of the leaf at this position. */
  function LaterLeaves(position: nat): nat {
    Max(0, 16 - position / 4 * 4)
  }

  lemma {:induction false} PairsWithAll(a: int, until: int)
    requires FIRST_LEAF <= a <= LAST_LEAF && FIRST_LEAF - 1 <= until <= LAST_LEAF
    ensures forall b | b <= until && CrossGroup(a, b) :: (a, b) in PairsWith(a, until)
    ensures |PairsWith(a, until)| <= Max(0, until - (FIRST_LEAF + (a - FIRST_LEAF) / 4 * 4 + 3))
    decreases until
  {
    if until >= FIRST_LEAF {
      PairsWithAll(a, until - 1);
    }
  }

  lemma OneLeaf(position: nat)
    requires position <= LAST_LEAF - FIRST_LEAF
    ensures forall a, b | a == FIRST_LEAF + position && CrossGroup(a, b) :: (a, b) in PairsWith(a, LAST_LEAF)
    ensures |PairsWith(FIRST_LEAF + position, LAST_LEAF)| <= LaterLeaves(position)
  {
    PairsWithAll(FIRST_LEAF + position, LAST_LEAF);
  }

  /** At most this many pairs with the first `n` leaves as the smaller ones. */
  function PairBound(n: nat): nat {
    if n == 0 then 0 else PairBound(n - 1) + LaterLeaves(n - 1)
  }

  lemma {:induction false} CrossPairsAll(n: nat)
    requires n <= LAST_LEAF - FIRST_LEAF + 1
    ensures forall a, b | CrossGroup(a, b) && a < FIRST_LEAF + n :: (a, b) in CrossPairs(n)
    ensures |CrossPairs(n)| <= PairBound(n)
  {
    hide CrossGroup, PairsWith, LaterLeaves;
    if n == 0 {
      NoLeaf();
    } else {
      CrossPairsAll(n - 1);
      OneLeaf(n - 1);
    }
  }

  lemma NoLeaf()
    ensures forall a, b | CrossGroup(a, b) :: a >= FIRST_LEAF
  {
  }

  lemma PairBoundAll()
    ensures PairBound(20) == LEAF_PAIRS
  {
    assert PairBound(4) == 64 && PairBound(8) == 112 && PairBound(12) == 144 && PairBound(16) == 160;
  }

  lemma FullSubset<T>(a: set<T>, b: set<T>)
    requires a <= b && |b| <= |a|
    ensures a == b
  {
    assert b == a + (b - a);
  }

  /** 160 leaf pairs are all there are: every two leaves of different groups have a circuit. */
  lemma EveryPairCovered(circuits: seq<Circuit>, a: int, b: int)
    requires ValidPorts(circuits) && CrossGroup(a, b)
    ensures (a, b) in Topology(circuits) && exists c :: c in circuits && PairOf(c) == (a, b)
  {
    hide CrossPairs, PairBound, PairsWith, Degree, Endpoints;
    CrossPairsAll(20);
    PairBoundAll();
    var used := Topology(circuits).Keys;
    assert |used| == LEAF_PAIRS;
    forall p | p in used ensures p in CrossPairs(20) {
      var c :| c in circuits && PairOf(c) == p;
      assert CrossGroup(c.a, c.b);
    }
    FullSubset(used, CrossPairs(20));
    assert (a, b) in used;
  }

  // -------------------------------------------------------------------- optimality

  /** Circuits two sets have in common. */
  ghost function Shared(x: seq<Circuit>, y: seq<Circuit>): nat {
    |multiset(x) * multiset(y)|
  }

  /** For each leaf pair in `pairs`, as many circuits as both the current and the target count allow. */
  function Reusable(pairs: seq<Pair>, current: seq<Circuit>, target: map<Pair, int>): int
    requires forall p | p in pairs :: p in target
  {
    if pairs == [] then 0
    else Min(PairCount(current, pairs[0]), target[pairs[0]]) + Reusable(pairs[1..], current, target)
  }

  /** Counts over distinct pairs: a sum that grows by one per circuit. */
  ghost function CountAll(pairs: seq<Pair>, circuits: seq<Circuit>): nat {
    if pairs == [] then 0 else PairCount(circuits, pairs[0]) + CountAll(pairs[1..], circuits)
  }

  lemma {:induction false} CountAllStep(pairs: seq<Pair>, c: Circuit, rest: seq<Circuit>)
    requires Distinct(pairs)
    ensures CountAll(pairs, [c] + rest) == CountAll(pairs, rest) + (if PairOf(c) in pairs then 1 else 0)
  {
    assert ([c] + rest)[1..] == rest;
    if pairs != [] {
      CountAllStep(pairs[1..], c, rest);
      assert pairs[0] !in pairs[1..];
    }
  }

  lemma {:induction false} CountAllIsLength(pairs: seq<Pair>, circuits: seq<Circuit>)
    requires Distinct(pairs) && forall c | c in circuits :: PairOf(c) in pairs
    ensures CountAll(pairs, circuits) == |circuits|
  {
    if circuits == [] {
      CountAllEmpty(pairs);
    } else {
      CountAllIsLength(pairs, circuits[1..]);
      assert circuits == [circuits[0]] + circuits[1..];
      CountAllStep(pairs, circuits[0], circuits[1..]);
    }
  }

  lemma {:induction false} CountAllEmpty(pairs: seq<Pair>)
    ensures CountAll(pairs, []) == 0
  {
    if pairs != [] {
      CountAllEmpty(pairs[1..]);
    }
  }

  lemma {:induction false} PairCountAppend(x: seq<Circuit>, y: seq<Circuit>, p: Pair)
    ensures PairCount(x + y, p) == PairCount(x, p) + PairCount(y, p)
  {
    if x == [] {
      assert x + y == y;
    } else {
      assert (x + y)[1..] == x[1..] + y;
      PairCountAppend(x[1..], y, p);
    }
  }

  /** One occurrence taken out of a sequence. */
  lemma TakeOut(z: seq<Circuit>, c: Circuit) returns (i: nat, rest: seq<Circuit>)
    requires c in z
    ensures i < |z| && z[i] == c && rest == z[..i] + z[i + 1..]
    ensures z == z[..i] + [c] + z[i + 1..] && multiset(z) == multiset{c} + multiset(rest)
  {
    i :| 0 <= i < |z| && z[i] == c;
    rest := z[..i] + z[i + 1..];
    assert z == z[..i] + [c] + z[i + 1..];
  }

  lemma PairCountTakeOut(z: seq<Circuit>, i: nat, p: Pair)
    requires i < |z|
    ensures PairCount(z, p) == PairCount([z[i]], p) + PairCount(z[..i] + z[i + 1..], p)
  {
    hide PairCount;
    Rejoin(z, i);
    PairCountAppend(z[..i], [z[i]] + z[i + 1..], p);
    PairCountAppend([z[i]], z[i + 1..], p);
    PairCountAppend(z[..i], z[i + 1..], p);
  }

  lemma Rejoin(z: seq<Circuit>, i: nat)
    requires i < |z|
    ensures z[..i] + ([z[i]] + z[i + 1..]) == z
  {
  }

  /** The first circuit of a sub-multiset taken out of both. */
  lemma TakeFirst(y: seq<Circuit>, z: seq<Circuit>) returns (i: nat, rest: seq<Circuit>)
    requires y != [] && multiset(y) <= multiset(z)
    ensures i < |z| && z[i] == y[0] && rest == z[..i] + z[i + 1..] && multiset(y[1..]) <= multiset(rest)
  {
    assert y == [y[0]] + y[1..];
    assert multiset(y) == multiset{y[0]} + multiset(y[1..]);
    assert y[0] in multiset(z);
    i, rest := TakeOut(z, y[0]);
    assert multiset(y[1..]) == multiset(y) - multiset{y[0]} && multiset(rest) == multiset(z) - multiset{y[0]};
  }

  lemma {:induction false} SubsetCounts(y: seq<Circuit>, z: seq<Circuit>, p: Pair)
    requires multiset(y) <= multiset(z)
    ensures PairCount(y, p) <= PairCount(z, p)
  {
    if y != [] {
      hide PairCount;
      assert y == [y[0]] + y[1..];
      var i, rest := TakeFirst(y, z);
      SubsetCounts(y[1..], rest, p);
      PairCountTakeOut(z, i, p);
      PairCountAppend([y[0]], y[1..], p);
    }
  }

  lemma {:induction false} BagAsSeq(m: multiset<Circuit>) returns (s: seq<Circuit>)
    ensures multiset(s) == m
    decreases |m|
  {
    if m == multiset{} {
      s := [];
    } else {
      var c :| c in m;
      var rest := BagAsSeq(m - multiset{c});
      s := [c] + rest;
    }
  }

  lemma {:induction false} CountsWithin(pairs: seq<Pair>, y: seq<Circuit>, current: seq<Circuit>, x: seq<Circuit>,
                                        target: map<Pair, int>)
    requires forall p | p in pairs :: p in target && target[p] == PairCount(x, p)
    requires multiset(y) <= multiset(current) && multiset(y) <= multiset(x)
    ensures CountAll(pairs, y) <= Reusable(pairs, current, target)
  {
    if pairs != [] {
      SubsetCounts(y, current, pairs[0]);
      SubsetCounts(y, x, pairs[0]);
      CountsWithin(pairs[1..], y, current, x, target);
    }
  }

  lemma {:induction false} CountPresent(circuits: seq<Circuit>, p: Pair)
    ensures PairCount(circuits, p) > 0 <==> p in Pairs(circuits)
  {
    if circuits != [] {
      CountPresent(circuits[1..], p);
      assert forall c :: c in circuits <==> c == circuits[0] || c in circuits[1..];
    }
  }

  /** No circuit set with the target counts shares more circuits with the current one than can be reused. */
  lemma SharedWithinReusable(current: seq<Circuit>, x: seq<Circuit>, target: map<Pair, int>)
    requires Topology(x) == target && forall p | p in Pairs(current) :: p in target
    ensures Shared(x, current) <= Reusable(Pairs(current), current, target)
  {
    var y := BagAsSeq(multiset(x) * multiset(current));
    assert |y| == |multiset(y)|;
    forall c | c in y ensures PairOf(c) in Pairs(current) {
      assert c in multiset(y);
    }
    CountAllIsLength(Pairs(current), y);
    CountsWithin(Pairs(current), y, current, x, target);
  }

  /** Some `k` circuits of one leaf pair. */
  lemma {:induction false} OfPair(current: seq<Circuit>, p: Pair, k: nat) returns (chosen: seq<Circuit>)
    requires k <= PairCount(current, p)
    ensures multiset(chosen) <= multiset(current) && |chosen| == k && forall c | c in chosen :: PairOf(c) == p
  {
    if k == 0 {
      chosen := [];
    } else {
      assert current == [current[0]] + current[1..];
      if PairOf(current[0]) == p {
        var rest := OfPair(current[1..], p, k - 1);
        chosen := [current[0]] + rest;
      } else {
        chosen := OfPair(current[1..], p, k);
      }
    }
  }

  lemma {:induction false} CountOfPair(chosen: seq<Circuit>, p: Pair, q: Pair)
    requires forall c | c in chosen :: PairOf(c) == p
    ensures PairCount(chosen, q) == if q == p then |chosen| else 0
  {
    if chosen != [] {
      CountOfPair(chosen[1..], p, q);
    }
  }

  /** Circuits in use, of each given pair as many as its target count allows. */
  ghost predicate KeepsMost(pairs: seq<Pair>, current: seq<Circuit>, target: map<Pair, int>, kept: seq<Circuit>) {
    && multiset(kept) <= multiset(current) && (forall c | c in kept :: PairOf(c) in pairs)
    && forall p | p in pairs && p in target :: PairCount(kept, p) == Min(PairCount(current, p), target[p])
  }

  lemma DisjointBags(x: seq<Circuit>, y: seq<Circuit>, z: seq<Circuit>)
    requires multiset(x) <= multiset(z) && multiset(y) <= multiset(z)
    requires forall c, d | c in x && d in y :: PairOf(c) != PairOf(d)
    ensures multiset(x + y) <= multiset(z)
  {
    forall c ensures multiset(x + y)[c] <= multiset(z)[c] {
      assert multiset(x + y)[c] == multiset(x)[c] + multiset(y)[c];
      assert c in multiset(x) ==> c in x;
      assert c in multiset(y) ==> c in y;
    }
  }

  lemma {:induction false} KeepMost(pairs: seq<Pair>, current: seq<Circuit>, target: map<Pair, int>)
    returns (kept: seq<Circuit>)
    requires Distinct(pairs) && forall p | p in pairs :: p in target && target[p] >= 0
    ensures KeepsMost(pairs, current, target, kept) && |kept| == Reusable(pairs, current, target)
  {
    if pairs == [] {
      kept := [];
    } else {
      hide PairCount;
      var p := pairs[0];
      var rest := KeepMost(pairs[1..], current, target);
      var chosen := OfPair(current, p, Min(PairCount(current, p), target[p]));
      kept := chosen + rest;
      DisjointBags(chosen, rest, current);
      forall q | q in pairs ensures PairCount(kept, q) == Min(PairCount(current, q), target[q]) {
        PairCountAppend(chosen, rest, q);
        CountOfPair(chosen, p, q);
        if q == p {
          NoneOfPair(rest, p);
        }
      }
    }
  }

  lemma {:induction false} NoneOfPair(circuits: seq<Circuit>, p: Pair)
    requires forall c | c in circuits :: PairOf(c) != p
    ensures PairCount(circuits, p) == 0
  {
    if circuits != [] {
      NoneOfPair(circuits[1..], p);
    }
  }

  /** Circuits on some ports, so that each given pair has its target count. */
  lemma {:induction false} FillUp(pairs: seq<Pair>, kept: seq<Circuit>, target: map<Pair, int>)
    returns (x: seq<Circuit>)
    requires Distinct(pairs) && forall p | p in pairs :: p in target && PairCount(kept, p) <= target[p]
    ensures multiset(kept) <= multiset(x)
    ensures forall q :: PairCount(x, q) == if q in pairs then target[q] else PairCount(kept, q)
  {
    if pairs == [] {
      x := kept;
    } else {
      hide PairCount;
      var p := pairs[0];
      var rest := FillUp(pairs[1..], kept, target);
      var more := seq(target[p] - PairCount(kept, p), _ => Circuit(p.0, 0, p.1, 0));
      x := rest + more;
      forall q ensures PairCount(x, q) == if q in pairs then target[q] else PairCount(kept, q) {
        PairCountAppend(rest, more, q);
        CountOfPair(more, p, q);
      }
    }
  }

  /** The bound is attained: some circuit set with the target counts shares as many circuits as can be reused. */
  lemma ReusableAttained(current: seq<Circuit>, z: seq<Circuit>) returns (x: seq<Circuit>)
    requires forall p | p in Pairs(current) :: p in Topology(z)
    ensures Topology(x) == Topology(z)
    ensures Shared(x, current) >= Reusable(Pairs(current), current, Topology(z))
  {
    hide PairCount, Reusable;
    var target := Topology(z);
    var kept := KeepMost(Pairs(current), current, target);
    forall p | p in Pairs(z) ensures PairCount(kept, p) <= target[p] {
      if p !in Pairs(current) {
        NoneOfPair(kept, p);
      }
    }
    x := FillUp(Pairs(z), kept, target);
    forall p ensures p in Pairs(x) <==> p in Pairs(z) {
      CountPresent(x, p);
      CountPresent(z, p);
      if p !in Pairs(z) {
        NoneOfPair(kept, p);
      }
    }
    SharedCovers(kept, x, current);
  }

  lemma SharedCovers(kept: seq<Circuit>, x: seq<Circuit>, current: seq<Circuit>)
    requires multiset(kept) <= multiset(x) && multiset(kept) <= multiset(current)
    ensures Shared(x, current) >= |kept|
  {
    var both := multiset(x) * multiset(current);
    assert multiset(kept) <= both;
    assert both == multiset(kept) + (both - multiset(kept));
  }

  // ------------------------------------------------------------------------ port reuse

  /** The used ports as a bag. */
  ghost function PortBag(circuits: seq<Circuit>): multiset<Port> {
    if circuits == [] then multiset{}
    else multiset{(circuits[0].a, circuits[0].ap), (circuits[0].b, circuits[0].bp)} + PortBag(circuits[1..])
  }

  lemma {:induction false} EndpointsBag(circuits: seq<Circuit>)
    ensures multiset(Endpoints(circuits)) == PortBag(circuits)
  {
    if circuits != [] {
      EndpointsBag(circuits[1..]);
      var a, b := (circuits[0].a, circuits[0].ap), (circuits[0].b, circuits[0].bp);
      assert multiset(Sources(circuits)) == multiset{a} + multiset(Sources(circuits[1..]));
      assert multiset(Targets(circuits)) == multiset{b} + multiset(Targets(circuits[1..]));
    }
  }

  lemma {:induction false} PortBagAppend(x: seq<Circuit>, y: seq<Circuit>)
    ensures PortBag(x + y) == PortBag(x) + PortBag(y)
  {
    if x == [] {
      assert x + y == y;
    } else {
      assert (x + y)[1..] == x[1..] + y;
      PortBagAppend(x[1..], y);
    }
  }

  lemma PortBagTakeOut(z: seq<Circuit>, i: nat)
    requires i < |z|
    ensures PortBag(z) == PortBag([z[i]]) + PortBag(z[..i] + z[i + 1..])
  {
    hide PortBag;
    Rejoin(z, i);
    PortBagAppend(z[..i], [z[i]] + z[i + 1..]);
    PortBagAppend([z[i]], z[i + 1..]);
    PortBagAppend(z[..i], z[i + 1..]);
  }

  lemma {:induction false} SameCircuitsSamePorts(x: seq<Circuit>, y: seq<Circuit>)
    requires multiset(x) == multiset(y)
    ensures PortBag(x) == PortBag(y)
  {
    hide PortBag;
    if x == [] {
      assert |y| == |multiset(y)| == 0;
    } else {
      var c := x[0];
      assert x == [c] + x[1..];
      assert multiset(x) == multiset{c} + multiset(x[1..]);
      assert c in multiset(y);
      var i, rest := TakeOut(y, c);
      assert multiset(x[1..]) == multiset(x) - multiset{c} && multiset(rest) == multiset(y) - multiset{c};
      SameCircuitsSamePorts(x[1..], rest);
      PortBagTakeOut(y, i);
      PortBagAppend([c], x[1..]);
    }
  }

  lemma {:induction false} SameCircuitsSameCounts(x: seq<Circuit>, y: seq<Circuit>)
    requires multiset(x) == multiset(y)
    ensures Topology(x) == Topology(y)
  {
    forall p ensures PairCount(x, p) == PairCount(y, p) && (p in Pairs(x) <==> p in Pairs(y)) {
      SubsetCounts(x, y, p);
      SubsetCounts(y, x, p);
      CountPresent(x, p);
      CountPresent(y, p);
    }
  }

  // -------------------------------------------------------------------------- one epoch

  /** The conditions a logged plan must meet against the circuits in use. */
  predicate PlanOk(current: seq<Circuit>, retained: seq<Circuit>, removed: seq<Circuit>, added: seq<Circuit>,
                   changed: int, target: map<Pair, int>)
  {
    && multiset(retained) + multiset(removed) == multiset(current)
    && |removed| == |added| == changed
    && multiset(Endpoints(removed)) == multiset(Endpoints(added))
    && ValidPorts(retained + added)
    && Topology(retained + added) == target
    && (forall p | p in Pairs(current) :: p in target)
    && |retained| == Reusable(Pairs(current), current, target)
  }

  /** What acceptance means for one applied epoch. */
  ghost predicate Sound(plan: Plan) {
    && ValidPorts(plan.after) && multiset(plan.after) == multiset(plan.retained + plan.added)
    && multiset(Endpoints(plan.after)) == multiset(Endpoints(plan.before))
    && Optimal(plan)
  }

  /** The plan keeps as many of the circuits in use as any circuit set with its counts could. */
  ghost predicate Optimal(plan: Plan) {
    && Shared(plan.after, plan.before) == |plan.retained|
    && forall x: seq<Circuit> | Topology(x) == Topology(plan.after) :: Shared(x, plan.before) <= |plan.retained|
  }

  /** The plan splits the circuits in use, rewires as many as the solver said, and uses exactly the released ports. */
  ghost predicate Splits(current: seq<Circuit>, retained: seq<Circuit>, removed: seq<Circuit>, added: seq<Circuit>,
                         changed: int)
  {
    && multiset(retained) + multiset(removed) == multiset(current) && |removed| == |added| == changed
    && multiset(Endpoints(removed)) == multiset(Endpoints(added))
  }

  /** From valid circuits a logged plan is accepted exactly when it splits them, leads to valid circuits with the
      target counts, and no circuit set with these counts could keep more circuits. */
  lemma PlanOkExactly(current: seq<Circuit>, retained: seq<Circuit>, removed: seq<Circuit>, added: seq<Circuit>,
                      changed: int, target: map<Pair, int>)
    requires ValidPorts(current)
    ensures PlanOk(current, retained, removed, added, changed, target) <==>
              && Splits(current, retained, removed, added, changed)
              && ValidPorts(retained + added) && Topology(retained + added) == target
              && forall x: seq<Circuit> | Topology(x) == target :: Shared(x, current) <= |retained|
  {
    hide Topology, ValidPorts, Endpoints, Reusable, Shared, Pairs;
    var z := retained + added;
    if Splits(current, retained, removed, added, changed) && ValidPorts(z) && Topology(z) == target {
      AllCovered(current, z);
      MostExactly(current, retained, removed, added);
    }
  }

  /** As many circuits are retained as can be reused exactly when no circuit set with these counts keeps more. */
  lemma MostExactly(current: seq<Circuit>, retained: seq<Circuit>, removed: seq<Circuit>, added: seq<Circuit>)
    requires multiset(retained) + multiset(removed) == multiset(current)
    requires forall p | p in Pairs(current) :: p in Topology(retained + added)
    ensures |retained| == Reusable(Pairs(current), current, Topology(retained + added)) <==>
            forall x: seq<Circuit> | Topology(x) == Topology(retained + added) :: Shared(x, current) <= |retained|
  {
    hide Topology, Reusable, Shared, Pairs;
    var target := Topology(retained + added);
    SharedCovers(retained, retained + added, current);
    var most := ReusableAttained(current, retained + added);
    forall x: seq<Circuit> | Topology(x) == target
      ensures Shared(x, current) <= Reusable(Pairs(current), current, target)
    {
      SharedWithinReusable(current, x, target);
    }
  }

  lemma AllCovered(current: seq<Circuit>, z: seq<Circuit>)
    requires ValidPorts(current) && ValidPorts(z)
    ensures forall p | p in Pairs(current) :: p in Topology(z)
  {
    forall p | p in Pairs(current) ensures p in Topology(z) {
      var c :| c in current && PairOf(c) == p;
      EveryPairCovered(z, c.a, c.b);
    }
  }

  /** An accepted plan reuses exactly the released ports and rewires no more than the target counts force. */
  lemma AcceptedIsSound(plan: Plan, removed: seq<Circuit>, changed: int, target: map<Pair, int>)
    requires PlanOk(plan.before, plan.retained, removed, plan.added, changed, target)
    requires ValidPorts(plan.after) && multiset(plan.after) == multiset(plan.retained + plan.added)
    ensures Sound(plan)
  {
    PortsReused(plan, removed);
    SameCircuitsSameCounts(plan.after, plan.retained + plan.added);
    SharedCovers(plan.retained, plan.after, plan.before);
    forall x: seq<Circuit> | Topology(x) == Topology(plan.after) ensures Shared(x, plan.before) <= |plan.retained| {
      SharedWithinReusable(plan.before, x, target);
    }
  }

  lemma PortsReused(plan: Plan, removed: seq<Circuit>)
    requires multiset(plan.retained) + multiset(removed) == multiset(plan.before)
    requires multiset(Endpoints(removed)) == multiset(Endpoints(plan.added))
    requires multiset(plan.after) == multiset(plan.retained + plan.added)
    ensures multiset(Endpoints(plan.after)) == multiset(Endpoints(plan.before))
  {
    EndpointsBag(removed);
    EndpointsBag(plan.added);
    EndpointsBag(plan.after);
    EndpointsBag(plan.before);
    SameCircuitsSamePorts(plan.after, plan.retained + plan.added);
    PortBagAppend(plan.retained, plan.added);
    PortBagAppend(plan.retained, removed);
    assert multiset(plan.retained + removed) == multiset(plan.before);
    SameCircuitsSamePorts(plan.retained + removed, plan.before);
  }

  // --------------------------------------------------------------------------- the run

  /** The logs report an applied rewiring for the epoch: it was solved, changes circuits, and finished. */
  predicate Rewired(logs: Logs, epoch: nat) {
    (epoch, SOLVED) in logs.changed && logs.changed[(epoch, SOLVED)] != 0 && (epoch, APPLIED) in logs.changed
  }

  /** The plan is the one the logs report, and the audit row agrees with it. */
  predicate Recorded(logs: Logs, plan: Plan) {
    var applied := (plan.epoch, APPLIED);
    && plan.retained == logs.Circuits(plan.epoch, RETAINED) && plan.added == logs.Circuits(plan.epoch, ADD)
    && plan.after == logs.Circuits(plan.epoch, APPLIED)
    && applied in logs.expected && Topology(plan.after) == logs.expected[applied]
    && applied in logs.audits
    && var audit := logs.audits[applied];
       && audit.retained == |plan.retained| && audit.rewired == |plan.added| == |plan.before| - |plan.retained|
       && 0 <= audit.paused <= audit.total
       && ((audit.scope == GLOBAL && audit.paused == audit.total) || audit.scope == SELECTIVE)
  }

  /** An epoch without an applied rewiring leaves no trace that contradicts the circuits in use. */
  predicate Untouched(logs: Logs, epoch: nat, current: seq<Circuit>) {
    (epoch, SOLVED) in logs.changed ==>
      if logs.changed[(epoch, SOLVED)] == 0
      then (epoch, APPLIED) in logs.expected && Topology(current) == logs.expected[(epoch, APPLIED)]
      else logs.Circuits(epoch, APPLIED) == []
  }

  function LoggedPlan(logs: Logs, epoch: nat, current: seq<Circuit>): Plan {
    Plan(epoch, current, logs.Circuits(epoch, RETAINED), logs.Circuits(epoch, ADD), logs.Circuits(epoch, APPLIED))
  }

  /** The log's plan for a solved epoch meets every condition against the circuits in use. */
  predicate Planned(logs: Logs, epoch: nat, current: seq<Circuit>)
    requires (epoch, SOLVED) in logs.changed
  {
    && (epoch, TARGET) in logs.expected
    && PlanOk(current, logs.Circuits(epoch, RETAINED), logs.Circuits(epoch, REMOVE), logs.Circuits(epoch, ADD),
              logs.changed[(epoch, SOLVED)], logs.expected[(epoch, TARGET)])
  }

  /** Nothing in the logs of this epoch gives a reason to reject it. */
  predicate Acceptable(logs: Logs, epoch: nat, current: seq<Circuit>) {
    (epoch, SOLVED) in logs.changed ==>
      && (logs.changed[(epoch, SOLVED)] != 0 ==> Planned(logs, epoch, current))
      && if !Rewired(logs, epoch) then Untouched(logs, epoch, current)
         else
           var plan := LoggedPlan(logs, epoch, current);
           && ValidPorts(plan.after) && multiset(plan.after) == multiset(plan.retained + plan.added)
           && Recorded(logs, plan)
  }

  /** The circuits in use after some applied plans. */
  function Current(initial: seq<Circuit>, plans: seq<Plan>): seq<Circuit> {
    if plans == [] then initial else plans[|plans| - 1].after
  }

  /** The plan at `i` is sound, recorded, starts from the circuits its predecessor left, and uses the initial ports. */
  ghost predicate StepOk(logs: Logs, initial: seq<Circuit>, plans: seq<Plan>, i: nat)
    requires i < |plans|
  {
    && Sound(plans[i]) && Recorded(logs, plans[i])
    && plans[i].before == Current(initial, plans[..i])
    && multiset(Endpoints(plans[i].after)) == multiset(Endpoints(initial))
  }

  /** The applied plans of a log follow one another from the initial circuits, in increasing epochs. */
  ghost predicate RunOk(logs: Logs, initial: seq<Circuit>, plans: seq<Plan>) {
    && (forall i: nat | i < |plans| :: StepOk(logs, initial, plans, i))
    && (forall i, j | 0 <= i < j < |plans| :: plans[i].epoch < plans[j].epoch)
  }

  lemma StepKept(logs: Logs, initial: seq<Circuit>, plans: seq<Plan>, plan: Plan, i: nat)
    requires i < |plans| && StepOk(logs, initial, plans, i)
    ensures StepOk(logs, initial, plans + [plan], i)
  {
    hide Sound, Recorded, Endpoints, Current;
    assert (plans + [plan])[..i] == plans[..i];
  }

  lemma PortsSoFar(logs: Logs, initial: seq<Circuit>, plans: seq<Plan>)
    requires forall i: nat | i < |plans| :: StepOk(logs, initial, plans, i)
    ensures multiset(Endpoints(Current(initial, plans))) == multiset(Endpoints(initial))
  {
    hide Sound, Recorded, Endpoints;
    if plans != [] {
      assert StepOk(logs, initial, plans, |plans| - 1);
    }
  }

  lemma NewStep(logs: Logs, initial: seq<Circuit>, plans: seq<Plan>, plan: Plan)
    requires forall i: nat | i < |plans| :: StepOk(logs, initial, plans, i)
    requires Sound(plan) && Recorded(logs, plan) && plan.before == Current(initial, plans)
    ensures StepOk(logs, initial, plans + [plan], |plans|)
  {
    hide Recorded, Endpoints, ValidPorts, Optimal, Current;
    PortsSoFar(logs, initial, plans);
    assert (plans + [plan])[..|plans|] == plans;
  }

  lemma RunExtends(logs: Logs, initial: seq<Circuit>, plans: seq<Plan>, plan: Plan)
    requires RunOk(logs, initial, plans) && Sound(plan) && Recorded(logs, plan)
    requires plan.before == Current(initial, plans)
    requires forall k | 0 <= k < |plans| :: plans[k].epoch < plan.epoch
    ensures RunOk(logs, initial, plans + [plan])
  {
    hide Sound, Recorded, Endpoints, ValidPorts, Optimal, Current;
    forall i: nat | i < |plans| + 1
      ensures StepOk(logs, initial, plans + [plan], i)
    {
      if i < |plans| {
        StepKept(logs, initial, plans, plan, i);
      } else {
        NewStep(logs, initial, plans, plan);
      }
    }
  }

  method AuditEpoch(logs: Logs, epoch: nat, current: seq<Circuit>) returns (r: Result<Option<Plan>>)
    ensures r.Ok? <==> Acceptable(logs, epoch, current)
    ensures r.Ok? ==> (r.value.Some? <==> Rewired(logs, epoch))
    ensures r.Ok? && r.value.Some? ==>
      && r.value.value.before == current && r.value.value.epoch == epoch
      && Sound(r.value.value) && Recorded(logs, r.value.value)
    ensures r.Ok? && r.value.None? ==> Untouched(logs, epoch, current)
  {
    hide ValidPorts, Topology, Endpoints, Reusable, Optimal, Sound, Pairs;
    if (epoch, SOLVED) !in logs.changed {
      return Ok(None);
    }
    var changed := logs.changed[(epoch, SOLVED)];
    if changed == 0 {
      if (epoch, APPLIED) !in logs.expected || Topology(current) != logs.expected[(epoch, APPLIED)] {
        return Err("no-op topology differs from current ports");
      }
      return Ok(None);
    }
    var retained, removed := logs.Circuits(epoch, RETAINED), logs.Circuits(epoch, REMOVE);
    var added := logs.Circuits(epoch, ADD);
    if (epoch, TARGET) !in logs.expected
       || !PlanOk(current, retained, removed, added, changed, logs.expected[(epoch, TARGET)]) {
      return Err("plan rejected");
    }
    assert |current| == |multiset(current)| == |retained| + |removed|;
    var actual := logs.Circuits(epoch, APPLIED);
    if (epoch, APPLIED) !in logs.changed {
      return if actual == [] then Ok(None) else Err("unexpected applied ports");
    }
    if !ValidPorts(actual) || multiset(actual) != multiset(retained + added) {
      return Err("actual ports differ from plan");
    }
    if (epoch, APPLIED) !in logs.expected || Topology(actual) != logs.expected[(epoch, APPLIED)] {
      return Err("applied counts differ from actual ports");
    }
    if (epoch, APPLIED) !in logs.audits {
      return Err("missing audit");
    }
    var audit := logs.audits[(epoch, APPLIED)];
    if audit.retained != |retained| || audit.rewired != changed {
      return Err("inconsistent audit counts");
    }
    if !(0 <= audit.paused <= audit.total) {
      return Err("invalid TP counts");
    }
    if audit.scope == GLOBAL {
      if audit.paused != audit.total {
        return Err("global scope must pause all TPs");
      }
    } else if audit.scope != SELECTIVE {
      return Err("unknown drain scope");
    }
    var plan := LoggedPlan(logs, epoch, current);
    AcceptedIsSound(plan, removed, changed, logs.expected[(epoch, TARGET)]);
    return Ok(Some(plan));
  }

  ghost function Epochs(plans: seq<Plan>): set<nat> {
    set plan | plan in plans :: plan.epoch
  }

  /** The epochs among the given ones that must have a plan. */
  ghost function RewiredAmong(logs: Logs, epochs: seq<nat>): set<nat> {
    set e | e in epochs && Rewired(logs, e)
  }

  /** The epoch has a summary row. */
  predicate Summarised(logs: Logs, epoch: nat) {
    exists k :: k in logs.changed && k.0 == epoch
  }

  /** The circuits in use when an epoch begins: those of the last rewired epoch before it, or the initial ones. */
  ghost function InUse(logs: Logs, epoch: nat): seq<Circuit> {
    if epoch == 0 then logs.Circuits(0, INITIAL)
    else if Rewired(logs, epoch - 1) then logs.Circuits(epoch - 1, APPLIED)
    else InUse(logs, epoch - 1)
  }

  lemma {:induction false} InUseStays(logs: Logs, a: nat, b: nat)
    requires a <= b && forall e: nat | a <= e < b :: !Rewired(logs, e)
    ensures InUse(logs, b) == InUse(logs, a)
  {
    if a < b {
      InUseStays(logs, a, b - 1);
    }
  }

  /** The epoch is acceptable from the circuits in use when it begins. */
  ghost predicate AcceptableThen(logs: Logs, epoch: nat) {
    Acceptable(logs, epoch, InUse(logs, epoch))
  }

  /** The first epoch that gives a reason to reject the logs. */
  ghost predicate FirstRefused(logs: Logs, at: nat) {
    && Summarised(logs, at) && !AcceptableThen(logs, at)
    && forall e: nat | e < at && Summarised(logs, e) :: AcceptableThen(logs, e)
  }

  /** Audits all epochs in order. Accepted exactly when the initial circuits are valid and every summarised epoch is
      acceptable from the circuits that the applied plans before it left. The applied plans then are exactly the rewired
      epochs, each optimal, and the ports in use are the initial ones throughout. */
  method Check(logs: Logs) returns (r: Result<seq<Plan>>, ghost at: nat)
    ensures r.Ok? <==>
              && ValidPorts(logs.Circuits(0, INITIAL))
              && forall e: nat | Summarised(logs, e) :: AcceptableThen(logs, e)
    ensures r.Err? && ValidPorts(logs.Circuits(0, INITIAL)) ==> FirstRefused(logs, at)
    ensures r.Ok? ==> ValidPorts(logs.Circuits(0, INITIAL)) && RunOk(logs, logs.Circuits(0, INITIAL), r.value)
    ensures r.Ok? ==> forall e: nat :: Rewired(logs, e) <==> e in Epochs(r.value)
  {
    hide Sound, Recorded, ValidPorts, Current, RunOk, Untouched, Acceptable, Rewired, Epochs, RewiredAmong, Summarised,
      InUse, AcceptableThen, FirstRefused, Ascending;
    var initial := logs.Circuits(0, INITIAL);
    at := 0;
    if !ValidPorts(initial) {
      return Err("initial"), at;
    }
    var current, plans := initial, [];
    RunStart(logs, initial);
    var epochs := Sorted(set k | k in logs.changed :: k.0);
    AllSummarised(logs, epochs);
    for i := 0 to |epochs|
      invariant RunOk(logs, initial, plans) && current == Current(initial, plans)
      invariant Epochs(plans) == RewiredAmong(logs, epochs[..i])
      invariant current == if i == 0 then initial else InUse(logs, epochs[i - 1] + 1)
      invariant forall j | 0 <= j < i :: AcceptableThen(logs, epochs[j])
    {
      at := epochs[i];
      InUseNow(logs, epochs, i);
      var result := AuditEpoch(logs, epochs[i], current);
      AcceptableNow(logs, epochs[i], current);
      if result.Err? {
        RefusedFirst(logs, epochs, i);
        return Err(result.reason), at;
      }
      RewiredNext(logs, epochs, i);
      InUseAfter(logs, epochs[i]);
      if result.value.Some? {
        var plan := result.value.value;
        EpochsAppend(logs, epochs, i, plans, plan);
        RunExtends(logs, initial, plans, plan);
        CurrentIsLast(initial, plans, plan);
        RecordedAfter(logs, plan);
        plans := plans + [plan];
        current := plan.after;
      }
    }
    assert epochs[..|epochs|] == epochs;
    AllRewired(logs, epochs);
    return Ok(plans), at;
  }

  lemma InUseAfter(logs: Logs, epoch: nat)
    ensures InUse(logs, epoch + 1) == if Rewired(logs, epoch) then logs.Circuits(epoch, APPLIED) else InUse(logs, epoch)
  {
  }

  lemma AcceptableNow(logs: Logs, epoch: nat, current: seq<Circuit>)
    requires current == InUse(logs, epoch)
    ensures AcceptableThen(logs, epoch) == Acceptable(logs, epoch, current)
  {
  }

  lemma RefusedFirst(logs: Logs, epochs: seq<nat>, i: nat)
    requires Ascending(epochs) && i < |epochs| && forall e: nat :: Summarised(logs, e) <==> e in epochs
    requires !AcceptableThen(logs, epochs[i]) && forall j | 0 <= j < i :: AcceptableThen(logs, epochs[j])
    ensures FirstRefused(logs, epochs[i])
  {
    hide Summarised, AcceptableThen;
    assert epochs[i] in epochs;
  }

  lemma RecordedAfter(logs: Logs, plan: Plan)
    requires Recorded(logs, plan)
    ensures plan.after == logs.Circuits(plan.epoch, APPLIED)
  {
  }

  lemma RewiredSummarised(logs: Logs, epoch: nat)
    requires Rewired(logs, epoch)
    ensures Summarised(logs, epoch)
  {
    assert (epoch, SOLVED) in logs.changed;
  }

  lemma AllSummarised(logs: Logs, epochs: seq<nat>)
    requires forall e :: e in epochs <==> e in set k | k in logs.changed :: k.0
    ensures forall e: nat :: Summarised(logs, e) <==> e in epochs
  {
  }

  lemma NoneBetween(epochs: seq<nat>, i: nat)
    requires Ascending(epochs) && i < |epochs|
    ensures forall e: nat | (if i == 0 then 0 else epochs[i - 1] + 1) <= e < epochs[i] :: e !in epochs
  {
    forall j | 0 <= j < |epochs| ensures epochs[j] >= epochs[i] || (i > 0 && epochs[j] <= epochs[i - 1]) {
      assert j < i - 1 ==> epochs[j] < epochs[i - 1];
      assert i < j ==> epochs[i] < epochs[j];
    }
  }

  /** Nothing is rewired between two summarised epochs, nor before the first. */
  lemma InUseNow(logs: Logs, epochs: seq<nat>, i: nat)
    requires Ascending(epochs) && i < |epochs| && forall e: nat :: Summarised(logs, e) <==> e in epochs
    ensures InUse(logs, epochs[i]) == if i == 0 then logs.Circuits(0, INITIAL) else InUse(logs, epochs[i - 1] + 1)
  {
    hide Rewired, Summarised;
    var from := if i == 0 then 0 else epochs[i - 1] + 1;
    NoneBetween(epochs, i);
    forall e: nat | from <= e < epochs[i] ensures !Rewired(logs, e) {
      if Rewired(logs, e) {
        RewiredSummarised(logs, e);
      }
    }
    InUseStays(logs, from, epochs[i]);
  }

  lemma RewiredNext(logs: Logs, epochs: seq<nat>, i: nat)
    requires i < |epochs|
    ensures RewiredAmong(logs, epochs[..i + 1])
         == RewiredAmong(logs, epochs[..i]) + (if Rewired(logs, epochs[i]) then {epochs[i]} else {})
  {
    hide Rewired;
    assert epochs[..i + 1] == epochs[..i] + [epochs[i]];
  }

  lemma EpochsAppend(logs: Logs, epochs: seq<nat>, i: nat, plans: seq<Plan>, plan: Plan)
    requires Ascending(epochs) && i < |epochs| && plan.epoch == epochs[i]
    requires Epochs(plans) == RewiredAmong(logs, epochs[..i])
    ensures Epochs(plans + [plan]) == Epochs(plans) + {epochs[i]}
    ensures forall k | 0 <= k < |plans| :: plans[k].epoch < plan.epoch
  {
    hide Rewired;
    forall k | 0 <= k < |plans| ensures plans[k].epoch < plan.epoch {
      assert plans[k].epoch in Epochs(plans);
    }
    assert forall x :: x in plans + [plan] <==> x in plans || x == plan;
  }

  lemma AllRewired(logs: Logs, epochs: seq<nat>)
    requires forall e :: e in epochs <==> e in set k | k in logs.changed :: k.0
    ensures forall e: nat :: Rewired(logs, e) <==> e in RewiredAmong(logs, epochs)
  {
    forall e: nat ensures Rewired(logs, e) <==> e in RewiredAmong(logs, epochs) {
      if Rewired(logs, e) {
        assert (e, SOLVED) in logs.changed;
      }
    }
  }

  lemma RunStart(logs: Logs, initial: seq<Circuit>)
    ensures RunOk(logs, initial, []) && Current(initial, []) == initial && Epochs([]) == {} == RewiredAmong(logs, [])
  {
  }

  lemma CurrentIsLast(initial: seq<Circuit>, plans: seq<Plan>, plan: Plan)
    ensures Current(initial, plans + [plan]) == plan.after
  {
  }

  /** Distinct endpoints: no physical port is used twice, and each leaf keeps its degree. */
  lemma PortsUsedOnce(circuits: seq<Circuit>)
    requires ValidPorts(circuits)
    ensures Distinct(Endpoints(circuits))
  {
    FullSetDistinct(Endpoints(circuits));
  }

  lemma SetOf(ports: seq<Port>)
    requires ports != []
    ensures (set p | p in ports) == (set p | p in ports[1..]) + {ports[0]}
  {
  }

  lemma DistinctCons(ports: seq<Port>)
    requires ports != [] && ports[0] !in ports[1..] && Distinct(ports[1..])
    ensures Distinct(ports)
  {
    assert forall i | 0 < i < |ports| :: ports[i] == ports[1..][i - 1];
  }

  lemma {:induction false} FullSetDistinct(ports: seq<Port>)
    requires |set p | p in ports| == |ports|
    ensures Distinct(ports)
  {
    if ports != [] {
      hide Distinct;
      SetOf(ports);
      SetWithin(ports[1..]);
      var rest := set p | p in ports[1..];
      assert ports[0] !in rest;
      FullSetDistinct(ports[1..]);
      DistinctCons(ports);
    }
  }

  lemma {:induction false} SetWithin(ports: seq<Port>)
    ensures |set p | p in ports| <= |ports|
  {
    if ports != [] {
      SetWithin(ports[1..]);
      SetOf(ports);
    }
  }
}

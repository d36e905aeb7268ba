/** The capacity a leaf pair had over a window, read off the circuit snapshots of a run. */
module Capacity {
  import opened Collections
  import opened Ordering

  type Pair = (int, int)

  /** Applied snapshots in time order; `epochs[i]` is in force from `times[i]` on, epoch 0 before. */
  datatype History = History(times: seq<int>, epochs: seq<nat>, snapshots: map<nat, map<Pair, nat>>)
  {
    ghost predicate Valid() { Rising(times) && |epochs| == |times| }

    function EpochAt(t: int): nat
      requires Valid()
    {
      var i := BisectRight(times, t);
      if i > 0 then epochs[i - 1] else 0
    }
  }

  function Undirected(p: Pair): Pair { (Min(p.0, p.1), Max(p.0, p.1)) }

  ghost predicate Known(h: History, t: int)
    requires h.Valid()
  {
    h.EpochAt(t) in h.snapshots
  }

  /** The circuits between the pair at an instant. */
  function CircuitsAt(h: History, p: Pair, t: int): nat
    requires h.Valid()
  {
    if h.EpochAt(t) !in h.snapshots then 0
    else var s := h.snapshots[h.EpochAt(t)]; if Undirected(p) in s then s[Undirected(p)] else 0
  }

  /** Instant by instant, the circuits of the window added up. */
  ghost function CircuitTime(h: History, p: Pair, start: int, end: int): nat
    requires h.Valid()
    decreases end - start
  {
    if end <= start then 0 else CircuitTime(h, p, start, end - 1) + CircuitsAt(h, p, end - 1)
  }

  lemma {:induction false} SplitTime(h: History, p: Pair, a: int, b: int, c: int)
    requires h.Valid() && a <= b <= c
    ensures CircuitTime(h, p, a, c) == CircuitTime(h, p, a, b) + CircuitTime(h, p, b, c)
    decreases c - b
  {
    if b < c {
      SplitTime(h, p, a, b, c - 1);
    }
  }

  /** The snapshot in force: the last one not after t. Before the first, epoch 0 is. */
  lemma LastSnapshot(h: History, t: int)
    requires h.Valid()
    ensures (forall i | 0 <= i < |h.times| :: h.times[i] > t) ==> h.EpochAt(t) == 0
    ensures forall i | 0 <= i < |h.times| && h.times[i] <= t && (i + 1 < |h.times| ==> h.times[i + 1] > t) ::
              h.EpochAt(t) == h.epochs[i]
  {
    var k := BisectRight(h.times, t);
    assert k > 0 ==> h.times[k - 1] <= t;
  }

  /** Both directions of a pair have the circuits that the snapshot in force lists under the smaller leaf first. */
  lemma EitherDirection(h: History, a: int, b: int, t: int)
    requires h.Valid() && a <= b
    ensures CircuitsAt(h, (a, b), t) == CircuitsAt(h, (b, a), t)
    ensures Known(h, t) && (a, b) in h.snapshots[h.EpochAt(t)] ==>
              CircuitsAt(h, (a, b), t) == h.snapshots[h.EpochAt(t)][(a, b)]
    ensures !Known(h, t) || (a, b) !in h.snapshots[h.EpochAt(t)] ==> CircuitsAt(h, (a, b), t) == 0
  {
  }

  /** No snapshot lies strictly between the two instants. */
  ghost predicate Gap(times: seq<int>, a: int, b: int) {
    forall i | 0 <= i < |times| :: times[i] <= a || b <= times[i]
  }

  /** The epoch at the left end of a gap is in force throughout. */
  lemma SameEpoch(h: History, a: int, b: int, t: int)
    requires h.Valid() && a <= t < b && Gap(h.times, a, b)
    ensures h.EpochAt(t) == h.EpochAt(a)
  {
    var i, j := BisectRight(h.times, a), BisectRight(h.times, t);
    hide BisectRight;
    assert i < |h.times| ==> b <= h.times[i];
    assert i > 0 ==> h.times[i - 1] <= t;
  }

  lemma GapShrinks(times: seq<int>, a: int, b: int)
    requires Gap(times, a, b)
    ensures Gap(times, a, b - 1)
  {
  }

  lemma SameCircuits(h: History, p: Pair, a: int, b: int)
    requires h.Valid() && a < b && Gap(h.times, a, b)
    ensures CircuitsAt(h, p, b - 1) == CircuitsAt(h, p, a)
  {
    SameEpoch(h, a, b, b - 1);
  }

  lemma OneMore(length: nat, count: nat)
    ensures (length + 1) * count == length * count + count
  {
  }

  lemma {:induction false} ConstantTime(h: History, p: Pair, a: int, b: int)
    requires h.Valid() && a <= b && Gap(h.times, a, b)
    ensures CircuitTime(h, p, a, b) == (b - a) * CircuitsAt(h, p, a)
    decreases b - a
  {
    if a < b {
      hide Gap, History.EpochAt, BisectRight, CircuitsAt;
      GapShrinks(h.times, a, b);
      ConstantTime(h, p, a, b - 1);
      SameCircuits(h, p, a, b);
      OneMore(b - 1 - a, CircuitsAt(h, p, a));
    }
  }

  ghost predicate KnownOver(h: History, a: int, b: int)
    requires h.Valid()
  {
    forall t | a <= t < b :: Known(h, t)
  }

  /** What the pair could carry from `start` until `end`. */
  ghost function Carried(h: History, p: Pair, start: int, end: int, gbps: real): real
    requires h.Valid()
  {
    CircuitTime(h, p, start, end) as real * gbps
  }

  function Piece(length: int, count: nat, gbps: real): real {
    length as real * count as real * gbps
  }

  /** One stretch between boundaries: known or not as a whole, and of constant capacity. */
  lemma Stretch(h: History, p: Pair, start: int, a: int, b: int, gbps: real)
    requires h.Valid() && start <= a <= b && Gap(h.times, a, b)
    ensures Known(h, a) && KnownOver(h, start, a) ==> KnownOver(h, start, b)
    ensures a < b && KnownOver(h, start, b) ==> Known(h, a)
    ensures Carried(h, p, start, b, gbps) == Carried(h, p, start, a, gbps) + Piece(b - a, CircuitsAt(h, p, a), gbps)
  {
    hide Gap, History.EpochAt, CircuitTime, CircuitsAt;
    forall t | a <= t < b ensures h.EpochAt(t) == h.EpochAt(a) {
      SameEpoch(h, a, b, t);
    }
    ConstantTime(h, p, a, b);
    SplitTime(h, p, start, a, b);
    Scale(CircuitTime(h, p, start, a), b - a, CircuitsAt(h, p, a), CircuitTime(h, p, start, b), gbps);
  }

  lemma Scale(x: nat, length: int, count: nat, total: nat, gbps: real)
    requires total == x + length * count
    ensures total as real * gbps == x as real * gbps + length as real * count as real * gbps
  {
    assert (length * count) as real == length as real * count as real;
  }

  /** The snapshot times strictly inside a window, in order. */
  function Inside(times: seq<int>, start: int, end: int): (r: seq<int>)
    ensures forall x :: x in r <==> x in times && start < x < end
  {
    if times == [] then []
    else
      var last := |times| - 1;
      assert forall x :: x in times <==> x == times[last] || x in times[..last];
      Inside(times[..last], start, end) + if start < times[last] < end then [times[last]] else []
  }

  lemma {:induction false} InsideRising(times: seq<int>, start: int, end: int)
    requires Rising(times)
    ensures Rising(Inside(times, start, end))
  {
    if times != [] {
      var last := |times| - 1;
      InsideRising(times[..last], start, end);
      var rest := Inside(times[..last], start, end);
      forall i | 0 <= i < |rest| ensures rest[i] <= times[last] {
        assert rest[i] in times[..last];
      }
    }
  }

  /** Boundaries in order from `start` to `end`, no snapshot strictly between neighbours. */
  ghost predicate Cut(times: seq<int>, start: int, end: int, bounds: seq<int>) {
    && |bounds| >= 2 && bounds[0] == start && bounds[|bounds| - 1] == end
    && forall i | 0 <= i < |bounds| - 1 :: CutAt(times, start, end, bounds[i], bounds[i + 1])
  }

  ghost predicate CutAt(times: seq<int>, start: int, end: int, a: int, b: int) {
    start <= a <= b <= end && Gap(times, a, b) && (start < end ==> a < end)
  }

  lemma BoundsCut(times: seq<int>, start: int, end: int)
    requires Rising(times) && start <= end
    ensures Cut(times, start, end, [start] + Inside(times, start, end) + [end])
  {
    var inner := Inside(times, start, end);
    var bounds := [start] + inner + [end];
    InsideRising(times, start, end);
    hide Inside;
    forall i | 0 <= i < |inner| ensures start < inner[i] < end {
      assert inner[i] in inner;
    }
    forall i | 0 <= i < |bounds| - 1 ensures CutAt(times, start, end, bounds[i], bounds[i + 1]) {
      forall k | 0 <= k < |times| ensures times[k] <= bounds[i] || bounds[i + 1] <= times[k] {
        if start < times[k] < end {
          assert times[k] in inner;
          var j :| 0 <= j < |inner| && inner[j] == times[k];
          InnerOrder(inner, i, j);
        }
      }
    }
  }

  lemma InnerOrder(inner: seq<int>, i: nat, j: nat)
    requires Rising(inner) && i <= |inner| && j < |inner|
    ensures j < i ==> inner[j] <= inner[i - 1]
    ensures j >= i ==> inner[i] <= inner[j]
  {
  }

  /** The instant-by-instant capacity of the window, or nothing when some instant has no snapshot. */
  method CapacityIntegral(h: History, initialKnown: bool, p: Pair, interval: Option<(int, int)>, gbps: real)
    returns (r: Option<real>)
    requires h.Valid() && (interval.Some? ==> interval.value.0 <= interval.value.1)
    ensures r.Some? <==> initialKnown && interval.Some? && Known(h, interval.value.0)
                         && KnownOver(h, interval.value.0, interval.value.1)
    ensures r.Some? ==> r.value == Carried(h, p, interval.value.0, interval.value.1, gbps)
  {
    if !initialKnown || interval.None? {
      return None;
    }
    var (start, end) := interval.value;
    var bounds := [start] + Inside(h.times, start, end) + [end];
    BoundsCut(h.times, start, end);
    hide CircuitTime, Carried, Piece, Gap, CircuitsAt, BisectRight, History.EpochAt, History.Valid, Inside;
    NoTime(h, p, start, gbps);
    var total := 0.0;
    for i := 0 to |bounds| - 1
      invariant (i > 0 ==> Known(h, start)) && KnownOver(h, start, bounds[i])
      invariant total == Carried(h, p, start, bounds[i], gbps)
    {
      var a, b := bounds[i], bounds[i + 1];
      Stretch(h, p, start, a, b, gbps);
      if h.EpochAt(a) !in h.snapshots {
        return None;
      }
      total := total + Piece(b - a, CircuitsAt(h, p, a), gbps);
    }
    return Some(total);
  }

  lemma NoTime(h: History, p: Pair, start: int, gbps: real)
    requires h.Valid()
    ensures Carried(h, p, start, start, gbps) == 0.0 && KnownOver(h, start, start)
  {
  }
}

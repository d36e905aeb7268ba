/** Finite sets of numbers in order, and the ordered dictionary behind every bounded cache. */
module Collections {

  datatype Option<+T> = None | Some(value: T)

  datatype Result<+T> = Ok(value: T) | Err(reason: string)

  function Max(a: int, b: int): int {
    if a >= b then a else b
  }

  function Min(a: int, b: int): int {
    if a <= b then a else b
  }

  // ---------------------------------------------------------------- sorted sets

  ghost predicate Ascending(s: seq<nat>) {
    forall i, j | 0 <= i < j < |s| :: s[i] < s[j]
  }

  ghost predicate IsLargest(s: set<nat>, m: nat) {
    m in s && forall x | x in s :: x <= m
  }

  lemma {:induction false} FindLargest(s: set<nat>) returns (m: nat)
    requires s != {}
    ensures IsLargest(s, m)
  {
    m :| m in s;
    if s != {m} {
      var m' := FindLargest(s - {m});
      assert forall x | x in s :: x == m || x in s - {m};
      m := if m' > m then m' else m;
    }
  }

  function Largest(s: set<nat>): (m: nat)
    requires s != {}
    ensures m in s && forall x | x in s :: x <= m
  {
    assert exists m :: IsLargest(s, m) by { var m := FindLargest(s); }
    var m :| m in s && forall x | x in s :: x <= m;
    m
  }

  ghost predicate IsSmallest(s: set<nat>, m: nat) {
    m in s && forall x | x in s :: m <= x
  }

  lemma {:induction false} FindSmallest(s: set<nat>) returns (m: nat)
    requires s != {}
    ensures IsSmallest(s, m)
  {
    m :| m in s;
    if s != {m} {
      var m' := FindSmallest(s - {m});
      assert forall x | x in s :: x == m || x in s - {m};
      m := if m' < m then m' else m;
    }
  }

  function Smallest(s: set<nat>): (m: nat)
    requires s != {}
    ensures m in s && forall x | x in s :: m <= x
  {
    assert exists m :: IsSmallest(s, m) by { var m := FindSmallest(s); }
    var m :| m in s && forall x | x in s :: m <= x;
    m
  }

  /** The elements of a set in increasing order. */
  function Sorted(s: set<nat>): (r: seq<nat>)
    ensures Ascending(r)
    ensures forall x :: x in r <==> x in s
    ensures |r| == |s|
  {
    if s == {} then [] else
      var m := Largest(s);
      Sorted(s - {m}) + [m]
  }

  lemma AscendingLast(s: seq<nat>)
    requires Ascending(s) && s != []
    ensures Ascending(s[..|s| - 1]) && s[|s| - 1] in s && forall x | x in s :: x <= s[|s| - 1]
    ensures forall x :: x in s[..|s| - 1] <==> x in s && x != s[|s| - 1]
  {
    assert s == s[..|s| - 1] + [s[|s| - 1]];
  }

  lemma EmptyTogether(a: seq<nat>, b: seq<nat>)
    requires forall x :: x in a <==> x in b
    ensures a == [] ==> b == []
  {
    if b != [] {
      assert b[0] in b;
    }
  }

  /** Increasing lists of the same elements are equal. */
  lemma {:induction false} AscendingUnique(a: seq<nat>, b: seq<nat>)
    requires Ascending(a) && Ascending(b) && forall x :: x in a <==> x in b
    ensures a == b
  {
    EmptyTogether(a, b);
    EmptyTogether(b, a);
    if a != [] {
      hide Ascending;
      var m, n := |a| - 1, |b| - 1;
      AscendingLast(a);
      AscendingLast(b);
      assert a[m] == b[n];
      forall x: nat ensures x in a[..m] <==> x in b[..n] {
        assert x in a[..|a| - 1] <==> x in a && x != a[m];
        assert x in b[..|b| - 1] <==> x in b && x != b[n];
      }
      AscendingUnique(a[..m], b[..n]);
      assert a == a[..m] + [a[m]] && b == b[..n] + [b[n]];
    }
  }

  // ------------------------------------------------------------ ordered dictionary

  ghost predicate Distinct<K(!new)>(s: seq<K>) {
    forall i, j | 0 <= i < j < |s| :: s[i] != s[j]
  }

  /** Drops a key from the order, keeping the others in place. */
  function Without<K(==,!new)>(order: seq<K>, k: K): (r: seq<K>)
    ensures forall x :: x in r <==> x in order && x != k
    ensures k !in order ==> r == order
  {
    if order == [] then []
    else if order[0] == k then Without(order[1..], k)
    else [order[0]] + Without(order[1..], k)
  }

  lemma PrependDistinct<K(!new)>(k: K, s: seq<K>)
    requires Distinct(s) && k !in s
    ensures Distinct([k] + s)
  {
  }

  lemma AppendDistinct<K(!new)>(s: seq<K>, k: K)
    requires Distinct(s) && k !in s
    ensures Distinct(s + [k])
  {
    assert forall i | 0 <= i < |s| :: s[i] in s;
  }

  lemma WithoutDistinct<K(!new)>(order: seq<K>, k: K)
    requires Distinct(order)
    ensures Distinct(Without(order, k))
  {
    if order != [] {
      WithoutDistinct(order[1..], k);
      assert order[0] !in order[1..];
      PrependDistinct(order[0], Without(order[1..], k));
    }
  }

  /** Oldest key first; `entries` has exactly the keys of `order`. */
  datatype Lru<K(==,!new), V> = Lru(order: seq<K>, entries: map<K, V>) {

    ghost predicate Valid() {
      && (forall k :: k in order <==> k in entries)
      && Distinct(order)
    }

    /** Assignment followed by `move_to_end`. */
    function Put(k: K, v: V): Lru<K, V> {
      Lru(Without(order, k) + [k], entries[k := v])
    }

    /** `popitem(last=False)`. */
    function PopOldest(): Lru<K, V>
      requires order != []
    {
      Lru(order[1..], entries - {order[0]})
    }

    lemma PutValid(k: K, v: V)
      requires Valid()
      ensures Put(k, v).Valid()
    {
      WithoutDistinct(order, k);
      AppendDistinct(Without(order, k), k);
    }

    lemma PopValid()
      requires Valid() && order != []
      ensures PopOldest().Valid()
    {
      forall k ensures k in order[1..] <==> k in entries - {order[0]} {
        assert forall j | 1 <= j < |order| :: order[j] != order[0];
        if k in order && k != order[0] {
          var i :| 0 <= i < |order| && order[i] == k;
          assert order[1..][i - 1] == k;
        }
      }
    }
  }

  function EmptyLru<K(!new), V>(): Lru<K, V> {
    Lru([], map[])
  }

  /** Total weight of the listed entries: the quantity a cache's counter claims to hold. */
  ghost function Total<K(!new), V>(order: seq<K>, entries: map<K, V>, weight: (K, V) -> nat): nat
    requires forall k | k in order :: k in entries
  {
    if order == [] then 0
    else weight(order[0], entries[order[0]]) + Total(order[1..], entries, weight)
  }

  ghost function CacheWeight<K(!new), V>(c: Lru<K, V>, weight: (K, V) -> nat): nat
    requires c.Valid()
  {
    Total(c.order, c.entries, weight)
  }

  lemma {:induction false} TotalAppend<K(!new), V>(a: seq<K>, b: seq<K>, entries: map<K, V>, weight: (K, V) -> nat)
    requires forall k | k in a + b :: k in entries
    ensures (forall k | k in a :: k in entries) && (forall k | k in b :: k in entries)
    ensures Total(a + b, entries, weight) == Total(a, entries, weight) + Total(b, entries, weight)
  {
    forall k | k in a || k in b ensures k in entries {
      assert k in a + b;
    }
    if a == [] {
      assert a + b == b;
    } else {
      assert (a + b)[1..] == a[1..] + b;
      TotalAppend(a[1..], b, entries, weight);
    }
  }

  /** Only the values of the listed keys matter. */
  lemma {:induction false} TotalAgrees<K(!new), V>(order: seq<K>, e: map<K, V>, e': map<K, V>, weight: (K, V) -> nat)
    requires forall k | k in order :: k in e && k in e' && weight(k, e[k]) == weight(k, e'[k])
    ensures Total(order, e, weight) == Total(order, e', weight)
  {
    if order != [] {
      TotalAgrees(order[1..], e, e', weight);
    }
  }

  lemma {:induction false} TotalWithout<K(!new), V>(order: seq<K>, k: K, entries: map<K, V>, weight: (K, V) -> nat)
    requires Distinct(order)
    requires k in order && forall x | x in order :: x in entries
    ensures Total(Without(order, k), entries, weight) + weight(k, entries[k]) == Total(order, entries, weight)
  {
    if order[0] == k {
      assert k !in order[1..];
    } else {
      TotalWithout(order[1..], k, entries, weight);
      var rest := Without(order[1..], k);
      assert ([order[0]] + rest)[1..] == rest;
    }
  }

  /** A bounded cache: an ordered dictionary and the counter that is meant to hold its total weight. */
  datatype Cache<K(==,!new), V> = Cache(lru: Lru<K, V>, weight: int) {

    ghost predicate Valid(w: (K, V) -> nat) {
      lru.Valid() && weight == CacheWeight(lru, w)
    }

    predicate Has(k: K) {
      k in lru.entries
    }

    function Get(k: K): V
      requires Has(k)
    {
      lru.entries[k]
    }
  }

  function EmptyCache<K(!new), V>(): Cache<K, V> {
    Cache(EmptyLru(), 0)
  }

  /** A new key adds its own weight. */
  function Insert<K(!new), V>(c: Cache<K, V>, k: K, v: V, w: (K, V) -> nat): (d: Cache<K, V>)
    requires c.Valid(w) && !c.Has(k)
    ensures d.Valid(w) && d.lru.entries == c.lru.entries[k := v] && d.lru.order == c.lru.order + [k]
  {
    PutWeight(c.lru, k, v, w);
    Cache(c.lru.Put(k, v), c.weight + w(k, v))
  }

  /** Replacing a value that weighs the same, and refreshing its age, leaves the counter right. */
  function Refresh<K(!new), V>(c: Cache<K, V>, k: K, v: V, ghost w: (K, V) -> nat): (d: Cache<K, V>)
    requires c.Valid(w) && c.Has(k) && w(k, v) == w(k, c.Get(k))
    ensures d.Valid(w) && d.lru.entries == c.lru.entries[k := v]
    ensures v == c.Get(k) ==> d.lru.entries == c.lru.entries
    ensures d.lru.order != [] && d.lru.order[|d.lru.order| - 1] == k
  {
    RefreshWeight(c.lru, k, v, w);
    Cache(c.lru.Put(k, v), c.weight)
  }

  function Evict<K(!new), V>(c: Cache<K, V>, w: (K, V) -> nat): (d: Cache<K, V>)
    requires c.Valid(w) && c.lru.order != []
    ensures d.Valid(w) && d.lru.order == c.lru.order[1..]
    ensures c.Has(c.lru.order[0]) && d.lru.entries == c.lru.entries - {c.lru.order[0]}
  {
    PopWeight(c.lru, w);
    Cache(c.lru.PopOldest(), c.weight - w(c.lru.order[0], c.lru.entries[c.lru.order[0]]))
  }

  /** Every entry is either still resident or among the evicted ones, with its last value. */
  ghost predicate Splits<K(!new), V>(whole: map<K, V>, resident: map<K, V>, evicted: map<K, V>) {
    && (forall k :: k in whole <==> k in resident || k in evicted)
    && (forall k | k in resident :: k !in evicted && whole[k] == resident[k])
    && (forall k | k in evicted :: whole[k] == evicted[k])
  }

  lemma SplitFurther<K(!new), V>(whole: map<K, V>, resident: map<K, V>, evicted: map<K, V>, k: K)
    requires Splits(whole, resident, evicted) && k in resident
    ensures Splits(whole, resident - {k}, evicted[k := resident[k]])
  {
  }

  lemma EmptyWeighsNothing<K(!new), V>(c: Cache<K, V>, w: (K, V) -> nat)
    requires c.Valid(w) && c.lru.order == []
    ensures c.weight == 0
  {
  }

  /** Evicts the oldest entries beyond the limits. The counter is the total weight throughout, so it never
      drives the loop past an empty cache; with `keepOne` the newest entry always stays. */
  method Trim<K(!new), V>(c: Cache<K, V>, w: (K, V) -> nat, limit: nat, heavy: nat, keepOne: bool)
    returns (d: Cache<K, V>, evicted: map<K, V>)
    requires c.Valid(w) && limit > 0
    ensures d.Valid(w) && Splits(c.lru.entries, d.lru.entries, evicted)
    ensures |d.lru.order| <= limit && (d.weight <= heavy || (keepOne && |d.lru.order| <= 1))
    ensures keepOne && c.lru.order != [] ==> d.Has(c.lru.order[|c.lru.order| - 1])
  {
    d, evicted := c, map[];
    ghost var gone := 0;
    while |d.lru.order| > limit || (d.weight > heavy && (!keepOne || |d.lru.order| > 1))
      invariant d.Valid(w) && Splits(c.lru.entries, d.lru.entries, evicted)
      invariant gone <= |c.lru.order| && d.lru.order == c.lru.order[gone..]
      invariant keepOne && c.lru.order != [] ==> gone < |c.lru.order|
      decreases |d.lru.order|
    {
      if d.lru.order == [] {
        EmptyWeighsNothing(d, w);
      }
      var oldest := d.lru.order[0];
      SplitFurther(c.lru.entries, d.lru.entries, evicted, oldest);
      evicted := evicted[oldest := d.lru.entries[oldest]];
      d := Evict(d, w);
      gone := gone + 1;
    }
  }

  /** A new key adds its own weight. */
  lemma PutWeight<K(!new), V>(c: Lru<K, V>, k: K, v: V, weight: (K, V) -> nat)
    requires c.Valid() && k !in c.entries
    ensures c.Put(k, v).Valid() && CacheWeight(c.Put(k, v), weight) == CacheWeight(c, weight) + weight(k, v)
  {
    c.PutValid(k, v);
    var d := c.Put(k, v);
    TotalAppend(c.order, [k], d.entries, weight);
    TotalAgrees(c.order, c.entries, d.entries, weight);
    assert [k][1..] == [];
  }

  /** Replacing a value that weighs the same, or refreshing its age, changes nothing. */
  lemma RefreshWeight<K(!new), V>(c: Lru<K, V>, k: K, v: V, weight: (K, V) -> nat)
    requires c.Valid() && k in c.entries && weight(k, v) == weight(k, c.entries[k])
    ensures c.Put(k, v).Valid() && CacheWeight(c.Put(k, v), weight) == CacheWeight(c, weight)
  {
    c.PutValid(k, v);
    var d := c.Put(k, v);
    TotalAppend(Without(c.order, k), [k], d.entries, weight);
    TotalAgrees(c.order, c.entries, d.entries, weight);
    TotalWithout(c.order, k, d.entries, weight);
    assert [k][1..] == [];
  }

  lemma PopWeight<K(!new), V>(c: Lru<K, V>, weight: (K, V) -> nat)
    requires c.Valid() && c.order != []
    ensures c.PopOldest().Valid() && c.order[0] in c.entries
    ensures CacheWeight(c.PopOldest(), weight) == CacheWeight(c, weight) - weight(c.order[0], c.entries[c.order[0]])
  {
    c.PopValid();
    assert forall k | k in c.order[1..] :: k in c.order && k != c.order[0];
    TotalAgrees(c.order[1..], c.entries, c.PopOldest().entries, weight);
  }
}

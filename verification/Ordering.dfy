/** Stable sorting by a comparison, and insertion points in sorted lists. */
module Ordering {

  ghost predicate TotalOrder<T(!new)>(le: (T, T) -> bool) {
    && (forall x, y :: le(x, y) || le(y, x))
    && (forall x, y, z :: le(x, y) && le(y, z) ==> le(x, z))
  }

  ghost predicate Ordered<T>(le: (T, T) -> bool, s: seq<T>) {
    forall i, j | 0 <= i < j < |s| :: le(s[i], s[j])
  }

  function Insert<T(!new)>(le: (T, T) -> bool, x: T, s: seq<T>): (r: seq<T>)
    ensures multiset(r) == multiset(s) + multiset{x}
  {
    if s == [] || le(x, s[0]) then [x] + s
    else
      assert s == [s[0]] + s[1..];
      [s[0]] + Insert(le, x, s[1..])
  }

  /** Insertion before equal elements, from the back: a stable sort. */
  function SortBy<T(!new)>(le: (T, T) -> bool, s: seq<T>): (r: seq<T>)
    ensures multiset(r) == multiset(s)
  {
    if s == [] then [] else
      assert s == [s[0]] + s[1..];
      Insert(le, s[0], SortBy(le, s[1..]))
  }

  lemma {:induction false} InsertOrdered<T(!new)>(le: (T, T) -> bool, x: T, s: seq<T>)
    requires TotalOrder(le) && Ordered(le, s)
    ensures Ordered(le, Insert(le, x, s))
  {
    if s != [] && !le(x, s[0]) {
      var rest := Insert(le, x, s[1..]);
      InsertOrdered(le, x, s[1..]);
      forall j | 0 <= j < |rest| ensures le(s[0], rest[j]) {
        assert rest[j] in multiset(rest);
        assert rest[j] == x || rest[j] in s[1..];
      }
    } else if s != [] {
      forall j | 0 <= j < |s| ensures le(x, s[j]) {
        assert le(x, s[0]) && (j == 0 || le(s[0], s[j]));
      }
    }
  }

  lemma SortByMembers<T(!new)>(le: (T, T) -> bool, s: seq<T>)
    ensures forall x :: x in SortBy(le, s) <==> x in s
  {
    assert forall x :: x in SortBy(le, s) <==> x in multiset(SortBy(le, s));
  }

  lemma {:induction false} SortByOrdered<T(!new)>(le: (T, T) -> bool, s: seq<T>)
    requires TotalOrder(le)
    ensures Ordered(le, SortBy(le, s))
  {
    if s != [] {
      SortByOrdered(le, s[1..]);
      InsertOrdered(le, s[0], SortBy(le, s[1..]));
    }
  }

  /** Where each element of the sorted sequence came from: every element once, the smaller ones first, and equal ones
      in their old order. */
  ghost predicate SortedFrom<T(!new)>(le: (T, T) -> bool, s: seq<T>, sorted: seq<T>, from: seq<nat>) {
    && |from| == |sorted| == |s| && (forall k | 0 <= k < |from| :: from[k] < |s| && sorted[k] == s[from[k]])
    && (forall i: nat | i < |s| :: i in from)
    && forall k, l | 0 <= k < l < |from| ::
         le(sorted[k], sorted[l]) && from[k] != from[l] && (le(sorted[l], sorted[k]) ==> from[k] < from[l])
  }

  /** `x` spliced into a sequence at position k. */
  function Splice<T>(s: seq<T>, x: T, k: nat): (r: seq<T>)
    requires k <= |s|
    ensures |r| == |s| + 1 && forall a | 0 <= a < |r| :: r[a] == if a < k then s[a] else if a == k then x else s[a - 1]
  {
    s[..k] + [x] + s[k..]
  }

  /** The element goes before the first one that is not smaller. */
  lemma {:induction false} InsertPlace<T(!new)>(le: (T, T) -> bool, x: T, s: seq<T>) returns (k: nat)
    ensures k <= |s| && Insert(le, x, s) == Splice(s, x, k)
    ensures forall j | 0 <= j < k :: !le(x, s[j])
  {
    if s == [] || le(x, s[0]) {
      k := 0;
    } else {
      var rest := InsertPlace(le, x, s[1..]);
      k := rest + 1;
      Spliced(s, x, rest);
      assert forall j | 0 < j < k :: s[j] == s[1..][j - 1];
    }
  }

  lemma Spliced<T>(s: seq<T>, x: T, k: nat)
    requires s != [] && k <= |s| - 1
    ensures [s[0]] + Splice(s[1..], x, k) == Splice(s, x, k + 1)
  {
  }

  /** The sort is stable. */
  lemma {:induction false} SortByStable<T(!new)>(le: (T, T) -> bool, s: seq<T>) returns (from: seq<nat>)
    requires TotalOrder(le)
    ensures SortedFrom(le, s, SortBy(le, s), from)
  {
    if s == [] {
      from := [];
    } else {
      var before := SortByStable(le, s[1..]);
      var k := InsertPlace(le, s[0], SortBy(le, s[1..]));
      from := Splice(Shifted(before), 0, k);
      SortByOrdered(le, s);
      InsertedFrom(le, s, SortBy(le, s[1..]), before, k);
    }
  }

  function Shifted(from: seq<nat>): (r: seq<nat>)
    ensures |r| == |from| && forall i | 0 <= i < |r| :: r[i] == from[i] + 1
  {
    seq(|from|, i requires 0 <= i < |from| => from[i] + 1)
  }

  lemma SpliceAt<T>(s: seq<T>, x: T, k: nat, a: nat)
    requires k <= |s| && a <= |s|
    ensures |Splice(s, x, k)| == |s| + 1
    ensures Splice(s, x, k)[a] == if a < k then s[a] else if a == k then x else s[a - 1]
  {
  }

  lemma InsertedFrom<T(!new)>(le: (T, T) -> bool, s: seq<T>, sorted: seq<T>, before: seq<nat>, k: nat)
    requires s != [] && SortedFrom(le, s[1..], sorted, before) && k <= |sorted|
    requires Ordered(le, Splice(sorted, s[0], k)) && forall j | 0 <= j < k :: !le(s[0], sorted[j])
    ensures SortedFrom(le, s, Splice(sorted, s[0], k), Splice(Shifted(before), 0, k))
  {
    hide Splice;
    var from, result := Splice(Shifted(before), 0, k), Splice(sorted, s[0], k);
    SpliceAt(sorted, s[0], k, 0);
    SpliceAt(Shifted(before), 0, k, 0);
    forall i: nat | i < |s| ensures i in from {
      CameFrom(le, s, sorted, before, k, i);
    }
    forall a | 0 <= a < |from| ensures from[a] < |s| && result[a] == s[from[a]] {
      SpliceAt(sorted, s[0], k, a);
      SpliceAt(Shifted(before), 0, k, a);
    }
    forall a, b | 0 <= a < b < |from|
      ensures le(result[a], result[b]) && from[a] != from[b] && (le(result[b], result[a]) ==> from[a] < from[b])
    {
      SpliceAt(sorted, s[0], k, a);
      SpliceAt(Shifted(before), 0, k, a);
      SpliceAt(sorted, s[0], k, b);
      SpliceAt(Shifted(before), 0, k, b);
      var a', b' := if a < k then a else a - 1, if b < k then b else b - 1;
      if a != k && b != k {
        assert le(sorted[b'], sorted[a']) ==> before[a'] < before[b'];
      }
    }
  }

  lemma CameFrom<T(!new)>(le: (T, T) -> bool, s: seq<T>, sorted: seq<T>, before: seq<nat>, k: nat, i: nat)
    requires i < |s| && SortedFrom(le, s[1..], sorted, before) && k <= |sorted|
    ensures i in Splice(Shifted(before), 0, k)
  {
    hide Splice;
    SpliceAt(Shifted(before), 0, k, k);
    if i > 0 {
      var previous: nat := i - 1;
      assert previous in before;
      var l :| 0 <= l < |before| && before[l] == previous;
      SpliceAt(Shifted(before), 0, k, if l < k then l else l + 1);
    }
  }

  /** Where the kept elements of a sequence are, in order. */
  ghost predicate KeptAt<T(!new)>(s: seq<T>, keep: T -> bool, kept: seq<T>, at: seq<nat>) {
    && |at| == |kept| && (forall k | 0 <= k < |at| :: at[k] < |s| && kept[k] == s[at[k]] && keep(kept[k]))
    && (forall k, l | 0 <= k < l < |at| :: at[k] < at[l])
    && forall i: nat | i < |s| && keep(s[i]) :: i in at
  }

  /** One more element. */
  lemma KeptNext<T(!new)>(s: seq<T>, keep: T -> bool, kept: seq<T>, at: seq<nat>)
    requires s != [] && KeptAt(s[..|s| - 1], keep, kept, at)
    ensures var last := |s| - 1;
      KeptAt(s, keep, kept + (if keep(s[last]) then [s[last]] else []), at + if keep(s[last]) then [last] else [])
  {
    var last := |s| - 1;
    forall i: nat | i < |s| && keep(s[i]) ensures i in at + if keep(s[last]) then [last] else [] {
      assert i < last ==> s[..last][i] == s[i];
    }
  }

  /** Where the kept elements of a sequence are, once sorted: the smaller ones first, equal ones in their old order. */
  ghost predicate SortedAt<T(!new)>(le: (T, T) -> bool, s: seq<T>, keep: T -> bool, sorted: seq<T>, at: seq<nat>) {
    && |at| == |sorted| && (forall k | 0 <= k < |at| :: at[k] < |s| && sorted[k] == s[at[k]] && keep(sorted[k]))
    && (forall i: nat | i < |s| && keep(s[i]) :: i in at)
    && forall k, l | 0 <= k < l < |at| ::
         le(sorted[k], sorted[l]) && at[k] != at[l] && (le(sorted[l], sorted[k]) ==> at[k] < at[l])
  }

  /** The places in another order. */
  function Places(place: seq<nat>, from: seq<nat>): (at: seq<nat>)
    requires forall k | 0 <= k < |from| :: from[k] < |place|
    ensures |at| == |from| && forall k | 0 <= k < |at| :: at[k] == place[from[k]]
  {
    seq(|from|, k requires 0 <= k < |from| => place[from[k]])
  }

  /** Every place is still there. */
  lemma PlaceStays(place: seq<nat>, from: seq<nat>, i: nat)
    requires (forall k | 0 <= k < |from| :: from[k] < |place|) && (forall d: nat | d < |place| :: d in from)
    requires i in place
    ensures i in Places(place, from)
  {
    var d: nat :| d < |place| && place[d] == i;
    assert d in from;
    var k :| 0 <= k < |from| && from[k] == d;
    assert Places(place, from)[k] == i;
  }

  /** What the two say of one element, and of two. */
  lemma KeptItem<T(!new)>(le: (T, T) -> bool, s: seq<T>, keep: T -> bool, kept: seq<T>, place: seq<nat>,
                          sorted: seq<T>, from: seq<nat>, k: nat)
    requires KeptAt(s, keep, kept, place) && SortedFrom(le, kept, sorted, from) && k < |from|
    ensures |sorted| == |from| && from[k] < |place| && place[from[k]] < |s|
    ensures sorted[k] == s[place[from[k]]] && keep(sorted[k])
  {
  }

  lemma KeptOrder<T(!new)>(le: (T, T) -> bool, s: seq<T>, keep: T -> bool, kept: seq<T>, place: seq<nat>,
                           sorted: seq<T>, from: seq<nat>, k: nat, l: nat)
    requires KeptAt(s, keep, kept, place) && SortedFrom(le, kept, sorted, from) && k < l < |from|
    ensures |sorted| == |from| && from[k] < |place| && from[l] < |place| && le(sorted[k], sorted[l])
    ensures place[from[k]] != place[from[l]] && (le(sorted[l], sorted[k]) ==> place[from[k]] < place[from[l]])
  {
    assert from[k] != from[l];
    if from[k] < from[l] {
      assert place[from[k]] < place[from[l]];
    } else {
      assert place[from[l]] < place[from[k]];
    }
  }

  lemma KeptAll<T(!new)>(le: (T, T) -> bool, s: seq<T>, keep: T -> bool, kept: seq<T>, place: seq<nat>,
                         sorted: seq<T>, from: seq<nat>)
    requires KeptAt(s, keep, kept, place) && SortedFrom(le, kept, sorted, from)
    ensures |from| == |sorted| && (forall d: nat | d < |place| :: d in from)
    ensures forall i: nat | i < |s| && keep(s[i]) :: i in place
  {
  }

  lemma SortedKept<T(!new)>(le: (T, T) -> bool, s: seq<T>, keep: T -> bool, kept: seq<T>, place: seq<nat>)
    returns (at: seq<nat>)
    requires TotalOrder(le) && KeptAt(s, keep, kept, place)
    ensures SortedAt(le, s, keep, SortBy(le, kept), at)
  {
    hide SortBy, KeptAt, SortedFrom, TotalOrder, Places;
    var sorted := SortBy(le, kept);
    var from := SortByStable(le, kept);
    KeptAll(le, s, keep, kept, place, sorted, from);
    forall k | 0 <= k < |from|
      ensures from[k] < |place| && place[from[k]] < |s| && sorted[k] == s[place[from[k]]] && keep(sorted[k])
    {
      KeptItem(le, s, keep, kept, place, sorted, from, k);
    }
    at := Places(place, from);
    PlacesAre(place, from);
    forall i: nat | i < |s| && keep(s[i]) ensures i in at {
      PlaceStays(place, from, i);
    }
    forall k, l | 0 <= k < l < |at|
      ensures le(sorted[k], sorted[l]) && at[k] != at[l] && (le(sorted[l], sorted[k]) ==> at[k] < at[l])
    {
      KeptOrder(le, s, keep, kept, place, sorted, from, k, l);
    }
  }

  lemma PlacesAre(place: seq<nat>, from: seq<nat>)
    requires forall k | 0 <= k < |from| :: from[k] < |place|
    ensures |Places(place, from)| == |from|
    ensures forall k | 0 <= k < |from| :: Places(place, from)[k] == place[from[k]]
  {
  }

  ghost predicate Rising(s: seq<int>) {
    forall i, j | 0 <= i < j < |s| :: s[i] <= s[j]
  }

  /** The first position whose element exceeds `x`. */
  function BisectRight(s: seq<int>, x: int): (k: nat)
    requires Rising(s)
    ensures k <= |s|
    ensures forall i | 0 <= i < k :: s[i] <= x
    ensures forall i | k <= i < |s| :: s[i] > x
  {
    if s == [] then 0
    else
      var last := |s| - 1;
      if s[last] <= x then |s| else BisectRight(s[..last], x)
  }
}

/** Merged time intervals, and how much of a window they cover. */
module Intervals {
  import opened Collections
  import opened Ordering

  datatype Span = Span(start: int, end: int)
  {
    predicate Holds(t: int) { start <= t < end }
  }

  predicate Earlier(x: Span, y: Span) {
    x.start < y.start || (x.start == y.start && x.end <= y.end)
  }

  /** Some interval holds the instant. */
  ghost predicate Covers(spans: seq<Span>, t: int) {
    exists i :: 0 <= i < |spans| && spans[i].Holds(t)
  }

  /** Non-empty, in order, and a gap between any two. */
  ghost predicate Separated(spans: seq<Span>) {
    && (forall i | 0 <= i < |spans| :: spans[i].start < spans[i].end)
    && (forall i, j | 0 <= i < j < |spans| :: spans[i].end < spans[j].start)
  }

  /** Extends the last interval when the new one touches it, and appends it otherwise. */
  function Absorb(spans: seq<Span>, s: Span): seq<Span> {
    var last := |spans| - 1;
    if spans != [] && s.start <= spans[last].end
    then spans[last := Span(spans[last].start, Max(spans[last].end, s.end))]
    else spans + [s]
  }

  /** Absorbing a non-empty interval that starts no earlier than any before adds exactly its instants. */
  lemma AbsorbCovers(spans: seq<Span>, s: Span)
    requires Separated(spans) && s.start < s.end
    requires forall i | 0 <= i < |spans| :: spans[i].start <= s.start
    ensures Separated(Absorb(spans, s))
    ensures forall i | 0 <= i < |Absorb(spans, s)| :: Absorb(spans, s)[i].start <= s.start
    ensures forall t :: Covers(Absorb(spans, s), t) <==> Covers(spans, t) || s.Holds(t)
  {
    var r, last := Absorb(spans, s), |spans| - 1;
    forall t ensures Covers(r, t) <==> Covers(spans, t) || s.Holds(t) {
      if Covers(spans, t) {
        var i :| 0 <= i < |spans| && spans[i].Holds(t);
        assert r[i].Holds(t);
      }
      if s.Holds(t) {
        assert r[|r| - 1].Holds(t);
      }
      if Covers(r, t) {
        var i :| 0 <= i < |r| && r[i].Holds(t);
        assert i < last ==> spans[i].Holds(t);
        assert i == last ==> spans[i].Holds(t) || s.Holds(t);
      }
    }
  }

  lemma EarlierIsTotal()
    ensures TotalOrder(Earlier)
  {
  }

  lemma CoversNext(spans: seq<Span>, i: nat, t: int)
    requires i < |spans|
    ensures Covers(spans[..i + 1], t) <==> Covers(spans[..i], t) || spans[i].Holds(t)
  {
    if Covers(spans[..i], t) {
      var k :| 0 <= k < i && spans[..i][k].Holds(t);
      assert spans[..i + 1][k].Holds(t);
    }
    assert spans[..i + 1][i] == spans[i];
    if Covers(spans[..i + 1], t) {
      var k :| 0 <= k <= i && spans[..i + 1][k].Holds(t);
      assert k < i ==> spans[..i][k].Holds(t);
    }
  }

  lemma SameMembersCover(x: seq<Span>, y: seq<Span>)
    requires forall s :: s in x <==> s in y
    ensures forall t :: Covers(x, t) <==> Covers(y, t)
  {
    forall t ensures Covers(x, t) <==> Covers(y, t) {
      CoversMember(x, t);
      CoversMember(y, t);
    }
  }

  lemma CoversMember(x: seq<Span>, t: int)
    ensures Covers(x, t) <==> exists s :: s in x && s.Holds(t)
  {
    if s :| s in x && s.Holds(t) {
      var i :| 0 <= i < |x| && x[i] == s;
      assert x[i].Holds(t);
    }
  }

  /** The same instants as the raw intervals, as separated intervals. */
  method MergedIntervals(intervals: seq<Span>) returns (result: seq<Span>)
    ensures Separated(result)
    ensures forall t :: Covers(result, t) <==> Covers(intervals, t)
  {
    var ordered := SortBy(Earlier, intervals);
    EarlierIsTotal();
    SortByOrdered(Earlier, intervals);
    SortByMembers(Earlier, intervals);
    result := [];
    for i := 0 to |ordered|
      invariant Separated(result)
      invariant forall k, j | 0 <= k < |result| && i <= j < |ordered| :: result[k].start <= ordered[j].start
      invariant forall t :: Covers(result, t) <==> Covers(ordered[..i], t)
    {
      forall t ensures Covers(ordered[..i + 1], t) <==> Covers(ordered[..i], t) || ordered[i].Holds(t) {
        CoversNext(ordered, i, t);
      }
      var start, end := ordered[i].start, ordered[i].end;
      if end <= start {
        continue;
      }
      AbsorbCovers(result, ordered[i]);
      ghost var absorbed := Absorb(result, ordered[i]);
      var last := |result| - 1;
      if result != [] && start <= result[last].end {
        result := result[last := Span(result[last].start, Max(result[last].end, end))];
      } else {
        result := result + [Span(start, end)];
      }
      assert result == absorbed;
    }
    assert ordered[..|ordered|] == ordered;
    SameMembersCover(ordered, intervals);
  }

  ghost function Instants(lo: int, hi: int): set<int> {
    set t | lo <= t < hi && Span(lo, hi).Holds(t)
  }

  /** The instants of a window that some interval holds. */
  ghost function Covered(spans: seq<Span>, start: int, end: int): set<int> {
    set t | start <= t < end && Covers(spans, t)
  }

  lemma {:induction false} InstantCount(lo: int, hi: int)
    ensures |Instants(lo, hi)| == Max(0, hi - lo)
    decreases hi - lo
  {
    if lo < hi {
      InstantCount(lo, hi - 1);
      assert Instants(lo, hi) == Instants(lo, hi - 1) + {hi - 1};
    } else {
      assert Instants(lo, hi) == {};
    }
  }

  lemma CoveredNext(spans: seq<Span>, i: nat, start: int, end: int)
    requires Separated(spans) && i < |spans|
    ensures |Covered(spans[..i + 1], start, end)|
         == |Covered(spans[..i], start, end)| + Max(0, Min(end, spans[i].end) - Max(start, spans[i].start))
  {
    var lo, hi := Max(start, spans[i].start), Min(end, spans[i].end);
    var before, added := Covered(spans[..i], start, end), Instants(lo, hi);
    forall t ensures t in Covered(spans[..i + 1], start, end) <==> t in before || t in added {
      CoversNext(spans, i, t);
    }
    assert Covered(spans[..i + 1], start, end) == before + added;
    assert before !! added;
    InstantCount(lo, hi);
  }

  lemma CoveredNothing(spans: seq<Span>, i: nat, start: int, end: int)
    requires i <= |spans| && forall k | 0 <= k < i :: spans[k].end <= start
    ensures Covered(spans[..i], start, end) == {}
  {
  }

  lemma CoveredRest(spans: seq<Span>, i: nat, start: int, end: int)
    requires i <= |spans| && forall k | i <= k < |spans| :: end <= spans[k].start
    ensures Covered(spans, start, end) == Covered(spans[..i], start, end)
  {
    forall t | start <= t < end ensures Covers(spans, t) <==> Covers(spans[..i], t) {
      if Covers(spans, t) {
        var k :| 0 <= k < |spans| && spans[k].Holds(t);
        assert spans[..i][k].Holds(t);
      }
    }
  }

  function Ends(spans: seq<Span>): (r: seq<int>)
    ensures |r| == |spans| && forall i | 0 <= i < |r| :: r[i] == spans[i].end
  {
    seq(|spans|, i requires 0 <= i < |spans| => spans[i].end)
  }

  /** How many instants of the window the intervals hold; absent for an open or reversed window. */
  method Overlap(start: Option<int>, end: Option<int>, intervals: seq<Span>, ends: seq<int>) returns (r: Option<int>)
    requires Separated(intervals) && ends == Ends(intervals)
    ensures r.Some? <==> start.Some? && end.Some? && start.value <= end.value
    ensures r.Some? ==> r.value == |Covered(intervals, start.value, end.value)|
  {
    if start.None? || end.None? || end.value < start.value {
      return None;
    }
    var total := 0;
    var i := BisectRight(ends, start.value);
    CoveredNothing(intervals, i, start.value, end.value);
    while i < |intervals| && intervals[i].start < end.value
      invariant i <= |intervals|
      invariant total == |Covered(intervals[..i], start.value, end.value)|
    {
      CoveredNext(intervals, i, start.value, end.value);
      total := total + Max(0, Min(end.value, intervals[i].end) - Max(start.value, intervals[i].start));
      i := i + 1;
    }
    CoveredRest(intervals, i, start.value, end.value);
    return Some(total);
  }

  /** Merging first and searching by end counts exactly the instants that some raw interval holds. */
  method CoveredTime(raw: seq<Span>, start: int, end: int) returns (r: Option<int>)
    ensures r == if start <= end then Some(|Covered(raw, start, end)|) else None
  {
    var merged := MergedIntervals(raw);
    r := Overlap(Some(start), Some(end), merged, Ends(merged));
    assert Covered(merged, start, end) == Covered(raw, start, end);
  }
}

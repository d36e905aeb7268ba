/**
 * The recording schedule: highlight windows around the interesting instants, and a playback speed for every stretch
 * such that the whole recording has the requested length. Times are ticks of a grid fine enough for every time in the
 * logs; `second` is the number of ticks in a second.
 */
module Highlights {
  import opened Collections
  import opened Intervals

  datatype Segment = Segment(start: int, end: int, weight: nat)

  datatype Settings = Settings(begin: int, end: int, duration: real, logBegin: int, logEnd: int)

  datatype Schedule = Schedule(windows: seq<Span>, segments: seq<Segment>, speeds: seq<real>)

  const SLOW: nat := 4

  /** The window shown slowly around an instant: from one second before to three seconds after, within the recording. */
  function Around(t: int, begin: int, end: int, second: nat): Span {
    Span(Max(begin, t - second), Min(end, t + 3 * second))
  }

  // ------------------------------------------------------------------------------- windows

  /** The instant lies in the window of one of the first `n` anchors. */
  ghost predicate NearOne(anchors: seq<nat>, n: nat, begin: int, end: int, second: nat, t: int)
    requires n <= |anchors|
  {
    exists i :: 0 <= i < n && Around(anchors[i], begin, end, second).Holds(t)
  }

  /** The instant lies in the window of an interesting instant strictly inside the recording. */
  ghost predicate Interesting(instants: set<int>, begin: int, end: int, second: nat, t: int) {
    exists x :: x in instants && begin < x < end && Around(x, begin, end, second).Holds(t)
  }

  lemma AnchorsAreInstants(anchors: seq<nat>, instants: set<int>, begin: int, end: int, second: nat, t: int)
    requires 0 <= begin && forall x: nat :: x in anchors <==> x in instants && begin < x < end
    ensures NearOne(anchors, |anchors|, begin, end, second, t) <==> Interesting(instants, begin, end, second, t)
  {
    if NearOne(anchors, |anchors|, begin, end, second, t) {
      var i :| 0 <= i < |anchors| && Around(anchors[i], begin, end, second).Holds(t);
      assert anchors[i] in anchors;
    }
    if x :| x in instants && begin < x < end && Around(x, begin, end, second).Holds(t) {
      var i :| 0 <= i < |anchors| && anchors[i] == x;
    }
  }

  /** The interesting instants strictly inside the recording, in order. */
  function Anchors(instants: set<int>, begin: int, end: int): (r: seq<nat>)
    requires 0 <= begin
    ensures Ascending(r) && (forall i | 0 <= i < |r| :: begin < r[i] < end)
    ensures forall x: nat :: x in r <==> x in instants && begin < x < end
  {
    var inside: set<nat> := set x | x in instants && begin < x < end;
    var r := Sorted(inside);
    assert forall i | 0 <= i < |r| :: r[i] in r;
    r
  }

  /** Merges the windows of the instants: separated, and holding exactly what some instant's window holds. */
  method Windows(anchors: seq<nat>, begin: nat, end: nat, second: nat) returns (windows: seq<Span>)
    requires second > 0 && Ascending(anchors) && forall i | 0 <= i < |anchors| :: begin < anchors[i] < end
    ensures Separated(windows)
    ensures forall i | 0 <= i < |windows| :: begin <= windows[i].start && windows[i].end <= end
    ensures forall t :: Covers(windows, t) <==> NearOne(anchors, |anchors|, begin, end, second, t)
  {
    windows := [];
    for n := 0 to |anchors|
      invariant Separated(windows)
      invariant forall i | 0 <= i < |windows| :: begin <= windows[i].start && windows[i].end <= end
      invariant forall i, j | 0 <= i < |windows| && n <= j < |anchors| ::
        windows[i].start <= Around(anchors[j], begin, end, second).start
      invariant forall t :: Covers(windows, t) <==> NearOne(anchors, n, begin, end, second, t)
    {
      var lo, hi := Max(begin, anchors[n] - second), Min(end, anchors[n] + 3 * second);
      AbsorbCovers(windows, Span(lo, hi));
      ghost var absorbed := Absorb(windows, Span(lo, hi));
      var last := |windows| - 1;
      if windows != [] && lo <= windows[last].end {
        windows := windows[last := Span(windows[last].start, Max(windows[last].end, hi))];
      } else {
        windows := windows + [Span(lo, hi)];
      }
      assert windows == absorbed;
    }
  }

  // ------------------------------------------------------------------------------ segments

  /** Whether the midpoint of a stretch lies in some window, its ends included. */
  predicate Highlighted(start: int, end: int, windows: seq<Span>) {
    exists w | w in windows :: 2 * w.start <= start + end <= 2 * w.end
  }

  function Segments(cuts: seq<nat>, windows: seq<Span>): (r: seq<Segment>)
    requires cuts != []
    ensures |r| == |cuts| - 1
    ensures forall i | 0 <= i < |r| ::
              r[i] == Segment(cuts[i], cuts[i + 1], if Highlighted(cuts[i], cuts[i + 1], windows) then SLOW else 1)
  {
    seq(|cuts| - 1, i requires 0 <= i < |cuts| - 1 =>
      Segment(cuts[i], cuts[i + 1], if Highlighted(cuts[i], cuts[i + 1], windows) then SLOW else 1))
  }

  /** Non-empty, each beginning where its predecessor ends, from `begin` to `end`. */
  ghost predicate Tiles(segments: seq<Segment>, begin: int, end: int) {
    && |segments| > 0 && segments[0].start == begin && segments[|segments| - 1].end == end
    && (forall i | 0 <= i < |segments| :: segments[i].start < segments[i].end)
    && (forall i | 0 < i < |segments| :: segments[i - 1].end == segments[i].start)
  }

  ghost predicate Inside(s: Segment, w: Span) { w.start <= s.start && s.end <= w.end }

  ghost predicate Beside(s: Segment, w: Span) { s.end <= w.start || w.end <= s.start }

  /** A slow segment lies inside a window, a normal one meets none except at its ends. */
  ghost predicate Faithful(s: Segment, windows: seq<Span>) {
    || (s.weight == SLOW && exists w :: w in windows && Inside(s, w))
    || (s.weight == 1 && forall w | w in windows :: Beside(s, w))
  }

  /** Tiles the recording, slow exactly in the windows. */
  ghost predicate Classified(segments: seq<Segment>, windows: seq<Span>, begin: int, end: int) {
    Tiles(segments, begin, end) && forall i | 0 <= i < |segments| :: Faithful(segments[i], windows)
  }

  /** No edge of the window lies strictly inside the stretch. */
  ghost predicate EdgesOutside(w: Span, start: int, end: int) {
    (w.start <= start || end <= w.start) && (w.end <= start || end <= w.end)
  }

  /** A stretch with no window edge strictly inside is classified by its midpoint. */
  lemma MidpointDecides(start: int, end: int, windows: seq<Span>)
    requires start < end && forall w | w in windows :: w.start < w.end && EdgesOutside(w, start, end)
    ensures Faithful(Segment(start, end, if Highlighted(start, end, windows) then SLOW else 1), windows)
  {
    var s := Segment(start, end, if Highlighted(start, end, windows) then SLOW else 1);
    if w :| w in windows && 2 * w.start <= start + end <= 2 * w.end {
      assert EdgesOutside(w, start, end);
      assert Inside(s, w);
    } else {
      assert forall w | w in windows :: EdgesOutside(w, start, end);
    }
  }

  /** Neighbouring cuts have none of the cut points strictly between them. */
  lemma NothingBetween(cuts: seq<nat>, i: nat, x: nat)
    requires Ascending(cuts) && i + 1 < |cuts| && x in cuts
    ensures x <= cuts[i] || cuts[i + 1] <= x
  {
    var j :| 0 <= j < |cuts| && cuts[j] == x;
  }

  /** Non-empty windows within the recording. */
  ghost predicate Within(windows: seq<Span>, begin: nat, end: nat) {
    begin < end && forall w | w in windows :: begin <= w.start < w.end <= end
  }

  /** The ends of the recording and of its windows. */
  function CutPoints(windows: seq<Span>, begin: nat, end: nat): (r: set<nat>)
    requires Within(windows, begin, end)
    ensures begin in r && end in r && (forall x | x in r :: begin <= x <= end)
    ensures forall w | w in windows :: w.start in r && w.end in r
  {
    {begin, end} + (set w | w in windows :: w.start) + (set w | w in windows :: w.end)
  }

  lemma SegmentIsFaithful(windows: seq<Span>, begin: nat, end: nat, i: nat)
    requires Within(windows, begin, end)
    requires i + 1 < |Sorted(CutPoints(windows, begin, end))|
    ensures var cuts := Sorted(CutPoints(windows, begin, end));
            Faithful(Segment(cuts[i], cuts[i + 1], if Highlighted(cuts[i], cuts[i + 1], windows) then SLOW else 1),
                     windows)
  {
    hide Faithful, Highlighted, Sorted;
    var cuts := Sorted(CutPoints(windows, begin, end));
    forall w | w in windows ensures EdgesOutside(w, cuts[i], cuts[i + 1]) {
      NothingBetween(cuts, i, w.start);
      NothingBetween(cuts, i, w.end);
    }
    MidpointDecides(cuts[i], cuts[i + 1], windows);
  }

  lemma SegmentsTile(cuts: seq<nat>, windows: seq<Span>)
    requires Ascending(cuts) && |cuts| > 1
    ensures Tiles(Segments(cuts, windows), cuts[0], cuts[|cuts| - 1])
    ensures forall i | 0 <= i < |Segments(cuts, windows)| :: Segments(cuts, windows)[i].weight > 0
  {
    hide Highlighted;
    var segments := Segments(cuts, windows);
    forall i | 0 <= i < |segments|
      ensures segments[i].start < segments[i].end && segments[i].weight > 0
      ensures segments[i].start == cuts[i] && segments[i].end == cuts[i + 1]
    {
    }
  }

  lemma SegmentsAreFaithful(windows: seq<Span>, begin: nat, end: nat)
    requires Within(windows, begin, end)
    ensures var cuts := Sorted(CutPoints(windows, begin, end));
            cuts != [] && Classified(Segments(cuts, windows), windows, begin, end)
            && forall i | 0 <= i < |Segments(cuts, windows)| :: Segments(cuts, windows)[i].weight > 0
  {
    hide Faithful, Highlighted, Sorted, CutPoints, Tiles;
    var cuts := Sorted(CutPoints(windows, begin, end));
    FirstAndLast(cuts, begin, end);
    SegmentsTile(cuts, windows);
    forall i | 0 <= i < |cuts| - 1 ensures Faithful(Segments(cuts, windows)[i], windows) {
      SegmentIsFaithful(windows, begin, end, i);
    }
  }

  lemma FirstAndLast(cuts: seq<nat>, begin: nat, end: nat)
    requires Ascending(cuts) && begin in cuts && end in cuts && begin < end && forall x | x in cuts :: begin <= x <= end
    ensures |cuts| > 1 && cuts[0] == begin && cuts[|cuts| - 1] == end
  {
    var i :| 0 <= i < |cuts| && cuts[i] == begin;
    var j :| 0 <= j < |cuts| && cuts[j] == end;
    assert cuts[0] in cuts && cuts[|cuts| - 1] in cuts;
  }

  // -------------------------------------------------------------------------------- speeds

  function Seconds(ticks: int, second: nat): real
    requires second > 0
  {
    ticks as real / second as real
  }

  /** The weighted length of the segments, in seconds. */
  function Weighted(segments: seq<Segment>, second: nat): real
    requires second > 0
  {
    if segments == [] then 0.0
    else
      Seconds(segments[0].end - segments[0].start, second) * segments[0].weight as real
      + Weighted(segments[1..], second)
  }

  function Speed(s: Segment, total: real, duration: real): real
    requires s.weight > 0 && duration > 0.0
  {
    total / (duration * s.weight as real)
  }

  /** How long the segments take to play, each at its own speed. */
  ghost function PlayTime(segments: seq<Segment>, speeds: seq<real>, second: nat): real
    requires |speeds| == |segments| && second > 0 && forall i | 0 <= i < |speeds| :: speeds[i] > 0.0
  {
    if segments == [] then 0.0
    else Seconds(segments[0].end - segments[0].start, second) / speeds[0] + PlayTime(segments[1..], speeds[1..], second)
  }

  lemma Share(x: real, weight: real, total: real, duration: real)
    requires total > 0.0 && duration > 0.0 && weight > 0.0
    ensures total / (duration * weight) > 0.0
    ensures x / (total / (duration * weight)) * total == x * weight * duration
  {
    var d := duration * weight;
    var speed := total / d;
    assert speed * d == total;
    assert speed > 0.0;
    var q := x / speed;
    assert q * speed == x;
    assert q * total == q * (speed * d) == (q * speed) * d == x * d;
  }

  lemma {:induction false} PlayTimeShare(segments: seq<Segment>, speeds: seq<real>, total: real, duration: real,
                                         second: nat)
    requires total > 0.0 && duration > 0.0 && second > 0 && |speeds| == |segments|
    requires forall i | 0 <= i < |segments| ::
               segments[i].weight > 0 && speeds[i] == Speed(segments[i], total, duration) && speeds[i] > 0.0
    ensures PlayTime(segments, speeds, second) * total == Weighted(segments, second) * duration
  {
    if segments != [] {
      var x := Seconds(segments[0].end - segments[0].start, second);
      Share(x, segments[0].weight as real, total, duration);
      PlayTimeShare(segments[1..], speeds[1..], total, duration, second);
      Regroup(x / speeds[0], PlayTime(segments[1..], speeds[1..], second), total, x * segments[0].weight as real,
              Weighted(segments[1..], second), duration);
    }
  }

  lemma Regroup(a: real, b: real, total: real, x: real, y: real, duration: real)
    requires a * total == x * duration && b * total == y * duration
    ensures (a + b) * total == (x + y) * duration
  {
  }

  lemma {:induction false} WeightedPositive(segments: seq<Segment>, second: nat)
    requires second > 0 && segments != []
    requires forall i | 0 <= i < |segments| :: segments[i].start < segments[i].end && segments[i].weight > 0
    ensures Weighted(segments, second) > 0.0
  {
    var s := segments[0];
    PositiveProduct(Seconds(s.end - s.start, second), s.weight as real);
    if |segments| > 1 {
      WeightedPositive(segments[1..], second);
    } else {
      assert segments[1..] == [];
    }
  }

  lemma PositiveProduct(x: real, y: real)
    requires x > 0.0 && y > 0.0
    ensures x * y > 0.0
  {
  }

  lemma Cancel(x: real, y: real, total: real)
    requires x * total == total * y && total > 0.0
    ensures x == y
  {
  }

  /** The speeds of a weighting play the recording in exactly the requested time. */
  lemma ExactDuration(segments: seq<Segment>, speeds: seq<real>, duration: real, second: nat)
    requires duration > 0.0 && second > 0 && |speeds| == |segments| > 0
    requires forall i | 0 <= i < |segments| :: segments[i].start < segments[i].end && segments[i].weight > 0
    requires forall i | 0 <= i < |segments| :: speeds[i] == Speed(segments[i], Weighted(segments, second), duration)
    ensures forall i | 0 <= i < |segments| :: speeds[i] > 0.0
    ensures PlayTime(segments, speeds, second) == duration
  {
    var total := Weighted(segments, second);
    WeightedPositive(segments, second);
    forall i | 0 <= i < |segments| ensures speeds[i] > 0.0 {
      Share(0.0, segments[i].weight as real, total, duration);
    }
    PlayTimeShare(segments, speeds, total, duration, second);
    Cancel(PlayTime(segments, speeds, second), duration, total);
  }

  function Effort(s: Segment, speed: real): real { speed * s.weight as real }

  lemma SpeedTimesWeight(s: Segment, total: real, duration: real)
    requires s.weight > 0 && duration > 0.0
    ensures Effort(s, Speed(s, total, duration)) == total / duration
  {
    var w := s.weight as real;
    var speed := total / (duration * w);
    assert speed * (duration * w) == total;
    assert (speed * w) * duration == total;
  }

  /** Positive speeds in inverse proportion to the weights that play the segments in exactly the given time. */
  ghost predicate Paced(segments: seq<Segment>, speeds: seq<real>, duration: real, second: nat)
    requires second > 0
  {
    && |speeds| == |segments| && (forall i | 0 <= i < |speeds| :: speeds[i] > 0.0)
    && (forall i, j | 0 <= i < j < |speeds| :: Effort(segments[i], speeds[i]) == Effort(segments[j], speeds[j]))
    && PlayTime(segments, speeds, second) == duration
  }

  lemma AllNonEmpty(segments: seq<Segment>, windows: seq<Span>, begin: int, end: int)
    requires Classified(segments, windows, begin, end)
    ensures segments != [] && forall i | 0 <= i < |segments| :: segments[i].start < segments[i].end
  {
  }

  method Speeds(segments: seq<Segment>, duration: real, second: nat) returns (speeds: seq<real>)
    requires second > 0 && duration > 0.0 && segments != []
    requires forall i | 0 <= i < |segments| :: segments[i].start < segments[i].end && segments[i].weight > 0
    ensures Paced(segments, speeds, duration, second)
  {
    hide Weighted, Speed, PlayTime, Effort;
    var total := Weighted(segments, second);
    speeds := [];
    for i := 0 to |segments|
      invariant |speeds| == i && forall k | 0 <= k < i :: speeds[k] == Speed(segments[k], total, duration)
    {
      speeds := speeds + [Speed(segments[i], total, duration)];
    }
    ExactDuration(segments, speeds, duration, second);
    forall i | 0 <= i < |speeds| ensures Effort(segments[i], speeds[i]) == total / duration {
      SpeedTimesWeight(segments[i], total, duration);
    }
  }

  /** The schedule of a recording: its segments tile the interval, slow exactly in the windows, and play in exactly the
      requested time. */
  method BuildSchedule(s: Settings, instants: set<int>, second: nat) returns (r: Result<Schedule>)
    requires second > 0
    ensures r.Ok? <==> 0 <= s.begin < s.end && s.duration > 0.0 && s.logBegin <= s.begin && s.end <= s.logEnd
    ensures r.Ok? ==> Separated(r.value.windows)
    ensures r.Ok? ==> forall t :: Covers(r.value.windows, t) <==> Interesting(instants, s.begin, s.end, second, t)
    ensures r.Ok? ==> Classified(r.value.segments, r.value.windows, s.begin, s.end)
    ensures r.Ok? ==> Paced(r.value.segments, r.value.speeds, s.duration, second)
  {
    if s.begin < 0 || s.end <= s.begin || s.duration <= 0.0 {
      return Err("recording start/end/duration must define a positive finite interval");
    }
    if s.begin < s.logBegin || s.end > s.logEnd {
      return Err("recording interval must be inside the available log range");
    }
    hide Interesting, NearOne, Covers, Classified, Paced, Anchors, CutPoints, Highlighted;
    var anchors := Anchors(instants, s.begin, s.end);
    var windows := Windows(anchors, s.begin, s.end, second);
    forall t ensures Covers(windows, t) <==> Interesting(instants, s.begin, s.end, second, t) {
      AnchorsAreInstants(anchors, instants, s.begin, s.end, second, t);
    }
    SegmentsAreFaithful(windows, s.begin, s.end);
    var segments := Segments(Sorted(CutPoints(windows, s.begin, s.end)), windows);
    AllNonEmpty(segments, windows, s.begin, s.end);
    var speeds := Speeds(segments, s.duration, second);
    return Ok(Schedule(windows, segments, speeds));
  }
}

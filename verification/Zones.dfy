/** The stabbing index over the observation windows around optical reconfigurations. */
module Zones {
  import opened Collections
  import opened Ordering

  datatype Phase = PRE | PAUSE | RECOVERY | POST
  {
    /** The position of the phase's name in alphabetical order. */
    function Rank(): nat {
      match this case PAUSE => 0 case POST => 1 case PRE => 2 case RECOVERY => 3
    }
  }

  datatype Event = Event(epoch: nat, pauseStart: Option<int>, pauseEnd: Option<int>)

  datatype Zone = Zone(start: int, end: int, epoch: nat, phase: Phase)

  datatype Case = Case(id: nat, isBaseline: bool, duration: Option<int>, events: seq<Event>)

  datatype Args = Args(recovery: nat, window: nat)

  datatype Hit = Hit(target: nat, epoch: nat, phase: Phase)

  // ------------------------------------------------------------------ windows of an event

  function EventZones(e: Event, args: Args, nextPause: Option<int>): seq<Zone> {
    if e.pauseStart.None? || e.pauseEnd.None? then []
    else
      var start, end := e.pauseStart.value, e.pauseEnd.value;
      var post0 := end + args.recovery;
      var post1 := if nextPause.Some? then Min(post0 + args.window, nextPause.value) else post0 + args.window;
      [Zone(Max(0, start - args.window), start, e.epoch, PRE), Zone(start, end, e.epoch, PAUSE),
       Zone(end, post0, e.epoch, RECOVERY), Zone(post0, Max(post0, post1), e.epoch, POST)]
  }

  /** Cuts a window at the end of the run; a window that ends before it starts becomes empty. */
  function Clip(z: Zone, duration: Option<int>): Zone {
    z.(end := Max(z.start, if duration.Some? then Min(z.end, duration.value) else z.end))
  }

  predicate Matches(z: Zone, t: int, binEnd: Option<int>) {
    z.start <= t < z.end && (binEnd.Some? ==> binEnd.value <= z.end)
  }

  /** An instant falls into at most one phase of an event, and never into both an event's aftermath and the next
      pause. */
  lemma OnePhasePerEvent(e: Event, args: Args, nextPause: Option<int>, duration: Option<int>, t: int, i: nat, j: nat)
    requires i < j < |EventZones(e, args, nextPause)| && e.pauseStart.value <= e.pauseEnd.value
    ensures !(Matches(Clip(EventZones(e, args, nextPause)[i], duration), t, None)
              && Matches(Clip(EventZones(e, args, nextPause)[j], duration), t, None))
    ensures j == 3 && nextPause.Some? && nextPause.value <= t ==>
              !Matches(Clip(EventZones(e, args, nextPause)[j], duration), t, None)
  {
    var zones := EventZones(e, args, nextPause);
    assert zones[0].end == zones[1].start && zones[1].end == zones[2].start && zones[2].end == zones[3].start;
  }

  // ------------------------------------------------------------------------ linear scan

  /** The windows of a list that hold the instant, in order. */
  function Scan(target: nat, zones: seq<Zone>, t: int, binEnd: Option<int>): seq<Hit> {
    if zones == [] then []
    else Hits(target, zones[0], t, binEnd) + Scan(target, zones[1..], t, binEnd)
  }

  function Hits(target: nat, z: Zone, t: int, binEnd: Option<int>): seq<Hit> {
    if Matches(z, t, binEnd) then [Hit(target, z.epoch, z.phase)] else []
  }

  lemma ScanEmpty(target: nat, t: int, binEnd: Option<int>)
    ensures Scan(target, [], t, binEnd) == []
  {
  }

  lemma ScanStep(target: nat, zones: seq<Zone>, t: int, binEnd: Option<int>)
    requires zones != []
    ensures Scan(target, zones, t, binEnd) == Hits(target, zones[0], t, binEnd) + Scan(target, zones[1..], t, binEnd)
  {
  }

  lemma {:induction false} ScanAppend(target: nat, x: seq<Zone>, y: seq<Zone>, t: int, binEnd: Option<int>)
    ensures Scan(target, x + y, t, binEnd) == Scan(target, x, t, binEnd) + Scan(target, y, t, binEnd)
  {
    hide Scan, Hits;
    if x == [] {
      assert x + y == y;
      ScanEmpty(target, t, binEnd);
    } else {
      assert (x + y)[1..] == x[1..] + y;
      ScanStep(target, x, t, binEnd);
      ScanStep(target, x + y, t, binEnd);
      ScanAppend(target, x[1..], y, t, binEnd);
    }
  }

  lemma {:induction false} ScanNothing(target: nat, x: seq<Zone>, t: int, binEnd: Option<int>)
    requires forall i | 0 <= i < |x| :: !Matches(x[i], t, binEnd)
    ensures Scan(target, x, t, binEnd) == []
  {
    if x != [] {
      ScanNothing(target, x[1..], t, binEnd);
    }
  }

  /** The scan yields one hit for every window that holds the instant (and the whole bin), and nothing else. */
  lemma {:induction false} ScanMembers(target: nat, zones: seq<Zone>, t: int, binEnd: Option<int>, h: Hit)
    ensures h in Scan(target, zones, t, binEnd) <==>
              exists z :: z in zones && Matches(z, t, binEnd) && h == Hit(target, z.epoch, z.phase)
  {
    if zones != [] {
      ScanMembers(target, zones[1..], t, binEnd, h);
      assert forall z :: z in zones <==> z == zones[0] || z in zones[1..];
    }
  }

  // ------------------------------------------------------------------------------ index

  predicate Earlier(x: Zone, y: Zone) {
    x.start < y.start
    || (x.start == y.start
        && (x.end < y.end
            || (x.end == y.end
                && (x.epoch < y.epoch || (x.epoch == y.epoch && x.phase.Rank() <= y.phase.Rank())))))
  }

  lemma EarlierIsTotal()
    ensures TotalOrder(Earlier)
  {
  }

  function Starts(zones: seq<Zone>): (r: seq<int>)
    ensures |r| == |zones| && forall i | 0 <= i < |r| :: r[i] == zones[i].start
  {
    seq(|zones|, i requires 0 <= i < |zones| => zones[i].start)
  }

  /** The largest end so far, at every position. */
  ghost predicate PrefixMax(zones: seq<Zone>, ends: seq<int>) {
    && |ends| == |zones| && Rising(ends)
    && forall i, j | 0 <= i <= j < |zones| :: zones[i].end <= ends[j]
  }

  ghost predicate Indexed(zones: seq<Zone>, index: (seq<int>, seq<int>)) {
    index.0 == Starts(zones) && Rising(index.0) && PrefixMax(zones, index.1)
  }

  /** The part of the list between the two insertion points. */
  function Slice(zones: seq<Zone>, index: (seq<int>, seq<int>), t: int): seq<Zone>
    requires Indexed(zones, index)
  {
    var lower, upper := BisectRight(index.1, t), BisectRight(index.0, t);
    if lower <= upper then zones[lower..upper] else []
  }

  /** Outside the insertion points nothing matches: what lies before has ended, what lies behind has not begun. */
  lemma OutsideNeverMatches(zones: seq<Zone>, index: (seq<int>, seq<int>), t: int, binEnd: Option<int>)
    requires Indexed(zones, index)
    ensures forall i | 0 <= i < BisectRight(index.1, t) :: !Matches(zones[i], t, binEnd)
    ensures forall i | BisectRight(index.0, t) <= i < |zones| :: !Matches(zones[i], t, binEnd)
  {
    assert forall i | 0 <= i < BisectRight(index.1, t) :: zones[i].end <= index.1[i] <= t;
    assert forall i | BisectRight(index.0, t) <= i < |zones| :: zones[i].start == index.0[i] > t;
  }

  lemma ScanMiddle(target: nat, zones: seq<Zone>, lower: nat, upper: nat, t: int, binEnd: Option<int>)
    requires lower <= upper <= |zones|
    requires forall i | 0 <= i < lower || upper <= i < |zones| :: !Matches(zones[i], t, binEnd)
    ensures Scan(target, zones[lower..upper], t, binEnd) == Scan(target, zones, t, binEnd)
  {
    hide Scan, Matches;
    var before, middle, after := zones[..lower], zones[lower..upper], zones[upper..];
    assert zones == before + (middle + after);
    ScanAppend(target, before, middle + after, t, binEnd);
    ScanAppend(target, middle, after, t, binEnd);
    ScanNothing(target, before, t, binEnd);
    ScanNothing(target, after, t, binEnd);
  }

  /** The slice loses no match. */
  lemma SliceLosesNothing(target: nat, zones: seq<Zone>, index: (seq<int>, seq<int>), t: int, binEnd: Option<int>)
    requires Indexed(zones, index)
    ensures Scan(target, Slice(zones, index, t), t, binEnd) == Scan(target, zones, t, binEnd)
  {
    hide Matches;
    var lower, upper := BisectRight(index.1, t), BisectRight(index.0, t);
    OutsideNeverMatches(zones, index, t, binEnd);
    if lower <= upper {
      ScanMiddle(target, zones, lower, upper, t, binEnd);
    } else {
      ScanNothing(target, zones, t, binEnd);
    }
  }

  method Index(zones: seq<Zone>) returns (index: (seq<int>, seq<int>))
    requires Ordered(Earlier, zones)
    ensures Indexed(zones, index)
  {
    var maxEnd, prefix := 0, [];
    for i := 0 to |zones|
      invariant |prefix| == i && Rising(prefix)
      invariant forall k | 0 <= k < i :: prefix[k] <= maxEnd
      invariant forall k, j | 0 <= k <= j < i :: zones[k].end <= prefix[j]
    {
      maxEnd := Max(maxEnd, zones[i].end);
      prefix := prefix + [maxEnd];
      assert forall k | 0 <= k < i :: zones[k].end <= prefix[i - 1] <= maxEnd;
    }
    assert forall i, j | 0 <= i < j < |zones| :: Earlier(zones[i], zones[j]);
    index := (Starts(zones), prefix);
  }

  // ------------------------------------------------------------------------ the windows

  function PauseOf(e: Event): int {
    if e.pauseStart.Some? then e.pauseStart.value else 0
  }

  predicate Sooner(x: Event, y: Event) { PauseOf(x) <= PauseOf(y) }

  /** The events with a known pause. */
  function Dated(events: seq<Event>): seq<Event> {
    if events == [] then []
    else
      var last := |events| - 1;
      Dated(events[..last])
      + if events[last].pauseStart.Some? && events[last].pauseEnd.Some? then [events[last]] else []
  }

  /** The non-empty clipped windows. */
  function Clipped(zones: seq<Zone>, duration: Option<int>): seq<Zone> {
    if zones == [] then []
    else
      var z := Clip(zones[0], duration);
      (if z.end > z.start then [z] else []) + Clipped(zones[1..], duration)
  }

  lemma {:induction false} ClippedLast(zones: seq<Zone>, k: nat, duration: Option<int>)
    requires k < |zones|
    ensures var z := Clip(zones[k], duration);
            Clipped(zones[..k + 1], duration) == Clipped(zones[..k], duration) + if z.end > z.start then [z] else []
  {
    hide Clip;
    if k == 0 {
      assert zones[..1] == [zones[0]] && zones[..0] == [];
      assert [zones[0]][1..] == [];
    } else {
      ClippedLast(zones[1..], k - 1, duration);
      assert zones[..k + 1][1..] == zones[1..][..k] && zones[..k][1..] == zones[1..][..k - 1];
    }
  }

  lemma NothingClipped(zones: seq<Zone>, duration: Option<int>)
    requires zones == []
    ensures Clipped(zones, duration) == []
  {
  }

  function NextPause(events: seq<Event>, i: nat): Option<int>
    requires i < |events|
  {
    if i + 1 < |events| then events[i + 1].pauseStart else None
  }

  /** The windows of the first `n` events, each event's aftermath ending at its successor's pause. */
  function Windows(events: seq<Event>, n: nat, args: Args, duration: Option<int>): seq<Zone>
    requires n <= |events|
  {
    if n == 0 then []
    else
      Windows(events, n - 1, args, duration)
      + Clipped(EventZones(events[n - 1], args, NextPause(events, n - 1)), duration)
  }

  /** All windows of a case. */
  function CaseWindows(c: Case, args: Args): seq<Zone> {
    var events := SortBy(Sooner, Dated(c.events));
    Windows(events, |events|, args, c.duration)
  }

  // --------------------------------------------------------- what the windows of a case are

  ghost predicate HasPause(e: Event) {
    e.pauseStart.Some? && e.pauseEnd.Some?
  }

  /** Event j pauses after event i; of two that pause at once, the later one listed. */
  ghost predicate PausesAfter(events: seq<Event>, i: nat, j: nat)
    requires i < |events| && j < |events|
  {
    && HasPause(events[i]) && HasPause(events[j])
    && var (x, y) := (events[i].pauseStart.value, events[j].pauseStart.value);
       x < y || (x == y && i < j)
  }

  /** Where instant u stands to event i: in the window before its pause, in the pause, in the recovery after it, or in
      the window after that, as long as no later event pauses. */
  ghost predicate Around(events: seq<Event>, args: Args, i: nat, phase: Phase, u: int)
    requires i < |events|
  {
    && HasPause(events[i])
    && var (start, end) := (events[i].pauseStart.value, events[i].pauseEnd.value);
       match phase
       case PRE => Max(0, start - args.window) <= u < start
       case PAUSE => start <= u < end
       case RECOVERY => end <= u < end + args.recovery
       case POST =>
         && end + args.recovery <= u < end + args.recovery + args.window
         && forall j | 0 <= j < |events| && PausesAfter(events, i, j) :: u < events[j].pauseStart.value
  }

  /** The instant t, and the later ones of the bin. */
  ghost predicate InBin(t: int, binEnd: Option<int>, u: int) {
    u == t || (binEnd.Some? && t < u < binEnd.value)
  }

  ghost predicate InRun(duration: Option<int>, u: int) {
    duration.Some? ==> u < duration.value
  }

  /** The instant is around event i in this phase, during the run, and so is the rest of the bin. */
  ghost predicate Observed(c: Case, args: Args, i: nat, phase: Phase, t: int, binEnd: Option<int>)
    requires i < |c.events|
  {
    forall u | InBin(t, binEnd, u) :: InRun(c.duration, u) && Around(c.events, args, i, phase, u)
  }

  /** Some window of the list holds the instant and the whole bin. */
  ghost predicate Holds(zones: seq<Zone>, epoch: nat, phase: Phase, t: int, binEnd: Option<int>) {
    exists z :: z in zones && Matches(z, t, binEnd) && z.epoch == epoch && z.phase == phase
  }

  /** The windows are exactly those around the events of the case. */
  ghost predicate Observes(zones: seq<Zone>, c: Case, args: Args) {
    forall epoch, phase, t, binEnd ::
      Holds(zones, epoch, phase, t, binEnd) <==>
      exists i :: 0 <= i < |c.events| && c.events[i].epoch == epoch && Observed(c, args, i, phase, t, binEnd)
  }

  /** A window cut at the end of the run holds exactly the instants of the window before that end. */
  lemma ClipMeans(z: Zone, duration: Option<int>, t: int, binEnd: Option<int>)
    ensures Matches(Clip(z, duration), t, binEnd) <==>
            forall u | InBin(t, binEnd, u) :: InRun(duration, u) && z.start <= u < z.end
  {
    var cut := Clip(z, duration);
    if Matches(cut, t, None) && binEnd.Some? && cut.end < binEnd.value {
      assert InBin(t, binEnd, cut.end);
    }
    assert InBin(t, binEnd, t);
  }

  lemma {:induction false} HoldsClipped(zones: seq<Zone>, duration: Option<int>, epoch: nat, phase: Phase, t: int,
                                        binEnd: Option<int>)
    ensures Holds(Clipped(zones, duration), epoch, phase, t, binEnd) <==>
            exists k :: 0 <= k < |zones| && Matches(Clip(zones[k], duration), t, binEnd)
                        && zones[k].epoch == epoch && zones[k].phase == phase
  {
    if zones != [] {
      HoldsClipped(zones[1..], duration, epoch, phase, t, binEnd);
      var z := Clip(zones[0], duration);
      HoldsBoth(if z.end > z.start then [z] else [], Clipped(zones[1..], duration), epoch, phase, t, binEnd);
      assert forall k | 0 < k < |zones| :: zones[k] == zones[1..][k - 1];
    }
  }

  lemma HoldsBoth(x: seq<Zone>, y: seq<Zone>, epoch: nat, phase: Phase, t: int, binEnd: Option<int>)
    ensures Holds(x + y, epoch, phase, t, binEnd) <==>
            Holds(x, epoch, phase, t, binEnd) || Holds(y, epoch, phase, t, binEnd)
  {
    hide Matches;
  }

  function Place(phase: Phase): nat {
    match phase case PRE => 0 case PAUSE => 1 case RECOVERY => 2 case POST => 3
  }

  lemma ZoneOf(e: Event, args: Args, next: Option<int>, phase: Phase, u: int)
    requires HasPause(e)
    ensures var zones := EventZones(e, args, next);
      && |zones| == 4 && zones[Place(phase)].phase == phase
      && (zones[Place(phase)].start <= u < zones[Place(phase)].end <==> Beside(e, args, next, phase, u))
      && forall k | 0 <= k < 4 :: zones[k].epoch == e.epoch && (zones[k].phase == phase ==> k == Place(phase))
  {
  }

  /** The windows of event `e`, cut at the end of the run. */
  lemma EventHolds(e: Event, args: Args, next: Option<int>, duration: Option<int>, epoch: nat, phase: Phase, t: int,
                   binEnd: Option<int>)
    ensures Holds(Clipped(EventZones(e, args, next), duration), epoch, phase, t, binEnd) <==>
            e.epoch == epoch && forall u | InBin(t, binEnd, u) :: InRun(duration, u) && Beside(e, args, next, phase, u)
  {
    hide Matches, Clip, InBin, InRun, Beside, EventZones;
    var zones := EventZones(e, args, next);
    HoldsClipped(zones, duration, epoch, phase, t, binEnd);
    Now(t, binEnd);
    if HasPause(e) {
      ZoneOf(e, args, next, phase, t);
      ClipMeans(zones[Place(phase)], duration, t, binEnd);
      forall u
        ensures zones[Place(phase)].start <= u < zones[Place(phase)].end <==> Beside(e, args, next, phase, u)
      {
        ZoneOf(e, args, next, phase, u);
      }
    } else {
      NoZones(e, args, next, phase, t);
    }
  }

  lemma NoZones(e: Event, args: Args, next: Option<int>, phase: Phase, u: int)
    requires !HasPause(e)
    ensures EventZones(e, args, next) == [] && !Beside(e, args, next, phase, u)
  {
  }

  lemma Now(t: int, binEnd: Option<int>)
    ensures InBin(t, binEnd, t)
  {
  }

  /** As `Around`, with the next pause given. */
  ghost predicate Beside(e: Event, args: Args, next: Option<int>, phase: Phase, u: int) {
    && HasPause(e)
    && var (start, end) := (e.pauseStart.value, e.pauseEnd.value);
       match phase
       case PRE => Max(0, start - args.window) <= u < start
       case PAUSE => start <= u < end
       case RECOVERY => end <= u < end + args.recovery
       case POST => end + args.recovery <= u < end + args.recovery + args.window && (next.Some? ==> u < next.value)
  }

  lemma {:induction false} DatedPositions(events: seq<Event>) returns (at: seq<nat>)
    ensures KeptAt(events, HasPause, Dated(events), at)
  {
    if events == [] {
      at := [];
    } else {
      var last: nat := |events| - 1;
      var before := DatedPositions(events[..last]);
      at := before + if HasPause(events[last]) then [last] else [];
      forall i: nat | i < |events| && HasPause(events[i]) ensures i in at {
        assert i < last ==> HasPause(events[..last][i]) && i in before;
      }
    }
  }

  /** The events with a pause in the order of their pauses: where each is listed. */
  ghost predicate PausedAt(events: seq<Event>, sorted: seq<Event>, at: seq<nat>) {
    && |at| == |sorted| && (forall k | 0 <= k < |at| :: at[k] < |events| && events[at[k]] == sorted[k])
    && (forall k | 0 <= k < |at| :: HasPause(sorted[k]))
    && (forall k, l | 0 <= k < l < |at| :: PausesAfter(events, at[k], at[l]))
    && forall i: nat | i < |events| && HasPause(events[i]) :: i in at
  }

  lemma SoonerIsTotal()
    ensures TotalOrder(Sooner)
  {
  }

  lemma PausesInOrder(events: seq<Event>) returns (at: seq<nat>)
    ensures PausedAt(events, SortBy(Sooner, Dated(events)), at)
  {
    hide Dated, SortBy;
    SoonerIsTotal();
    var place := DatedPositions(events);
    at := SortedKept(Sooner, events, HasPause, Dated(events), place);
    forall k, l | 0 <= k < l < |at| ensures PausesAfter(events, at[k], at[l]) {
      assert Sooner(events[at[k]], events[at[l]]);
    }
  }

  /** The next pause in order decides as all later ones do. */
  lemma NextDecides(events: seq<Event>, args: Args, sorted: seq<Event>, at: seq<nat>, k: nat, phase: Phase, u: int)
    requires PausedAt(events, sorted, at) && k < |sorted|
    ensures Beside(sorted[k], args, NextPause(sorted, k), phase, u) <==> Around(events, args, at[k], phase, u)
  {
    forall j: nat | j < |events| && PausesAfter(events, at[k], j)
      ensures k + 1 < |sorted| && events[at[k + 1]].pauseStart.value <= events[j].pauseStart.value
    {
      assert j in at;
      var l :| 0 <= l < |at| && at[l] == j;
      assert l < k ==> PausesAfter(events, at[l], at[k]);
      if k + 1 < l {
        assert PausesAfter(events, at[k + 1], at[l]);
      }
    }
    if k + 1 < |sorted| {
      assert PausesAfter(events, at[k], at[k + 1]);
    }
  }

  lemma {:induction false} WindowsHold(c: Case, args: Args, sorted: seq<Event>, at: seq<nat>, n: nat, epoch: nat,
                                       phase: Phase, t: int, binEnd: Option<int>)
    requires PausedAt(c.events, sorted, at) && n <= |sorted|
    ensures Holds(Windows(sorted, n, args, c.duration), epoch, phase, t, binEnd) <==>
            exists k :: 0 <= k < n && c.events[at[k]].epoch == epoch && Observed(c, args, at[k], phase, t, binEnd)
  {
    hide PausedAt, Around, Beside, InBin, InRun, EventZones, Clipped, NextPause;
    if n > 0 {
      WindowsHold(c, args, sorted, at, n - 1, epoch, phase, t, binEnd);
      OneEvent(c, args, sorted, at, n - 1, epoch, phase, t, binEnd);
    }
  }

  lemma OneEvent(c: Case, args: Args, sorted: seq<Event>, at: seq<nat>, k: nat, epoch: nat, phase: Phase, t: int,
                 binEnd: Option<int>)
    requires PausedAt(c.events, sorted, at) && k < |sorted|
    ensures Holds(Clipped(EventZones(sorted[k], args, NextPause(sorted, k)), c.duration), epoch, phase, t, binEnd) <==>
            c.events[at[k]].epoch == epoch && Observed(c, args, at[k], phase, t, binEnd)
  {
    hide Around, Beside, InBin, InRun, EventZones, Clipped, NextPause, Holds;
    EventHolds(sorted[k], args, NextPause(sorted, k), c.duration, epoch, phase, t, binEnd);
    forall u
      ensures Beside(sorted[k], args, NextPause(sorted, k), phase, u) <==> Around(c.events, args, at[k], phase, u)
    {
      NextDecides(c.events, args, sorted, at, k, phase, u);
    }
  }

  /** The listed windows hold an instant exactly where it is around an event of the case, during the run. */
  lemma CaseObserves(zones: seq<Zone>, c: Case, args: Args)
    requires multiset(zones) == multiset(CaseWindows(c, args))
    ensures Observes(zones, c, args)
  {
    hide Matches, SortBy, Dated, Windows, Observed;
    var sorted := SortBy(Sooner, Dated(c.events));
    var at := PausesInOrder(c.events);
    var windows := CaseWindows(c, args);
    assert forall z :: z in zones <==> z in multiset(zones);
    assert forall z :: z in windows <==> z in multiset(windows);
    forall epoch: nat, phase, t, binEnd
      ensures Holds(zones, epoch, phase, t, binEnd) <==>
              exists i :: 0 <= i < |c.events| && c.events[i].epoch == epoch && Observed(c, args, i, phase, t, binEnd)
    {
      WindowsHold(c, args, sorted, at, |sorted|, epoch, phase, t, binEnd);
      OrderedOrListed(c, args, sorted, at, epoch, phase, t, binEnd);
      assert Holds(zones, epoch, phase, t, binEnd) == Holds(windows, epoch, phase, t, binEnd);
    }
  }

  /** Counting the events in the order of their pauses or as they are listed is the same. */
  lemma OrderedOrListed(c: Case, args: Args, sorted: seq<Event>, at: seq<nat>, epoch: nat, phase: Phase, t: int,
                        binEnd: Option<int>)
    requires PausedAt(c.events, sorted, at)
    ensures (exists k :: 0 <= k < |sorted| && c.events[at[k]].epoch == epoch
                         && Observed(c, args, at[k], phase, t, binEnd)) <==>
            exists i :: 0 <= i < |c.events| && c.events[i].epoch == epoch && Observed(c, args, i, phase, t, binEnd)
  {
    hide Observed;
    forall i: nat | i < |c.events| && Observed(c, args, i, phase, t, binEnd)
      ensures exists k :: 0 <= k < |at| && at[k] == i
    {
      OnlyPaused(c, args, i, phase, t, binEnd);
      assert i in at;
    }
  }

  lemma OnlyPaused(c: Case, args: Args, i: nat, phase: Phase, t: int, binEnd: Option<int>)
    requires i < |c.events| && Observed(c, args, i, phase, t, binEnd)
    ensures HasPause(c.events[i])
  {
    assert InBin(t, binEnd, t);
  }

  /** These are the windows of the case: each once, and exactly those around its events. */
  ghost predicate WindowsOf(zones: seq<Zone>, c: Case, args: Args) {
    multiset(zones) == multiset(CaseWindows(c, args)) && Observes(zones, c, args)
  }

  method Intervals(c: Case, args: Args) returns (intervals: seq<Zone>)
    ensures Ordered(Earlier, intervals) && WindowsOf(intervals, c, args)
  {
    hide Observes, EventZones, SortBy, Clipped, NextPause, Dated;
    var events := SortBy(Sooner, Dated(c.events));
    intervals := [];
    for i := 0 to |events|
      invariant intervals == Windows(events, i, args, c.duration)
    {
      var zones := EventZones(events[i], args, NextPause(events, i));
      ghost var before := intervals;
      NothingClipped(zones[..0], c.duration);
      for k := 0 to |zones|
        invariant intervals == before + Clipped(zones[..k], c.duration)
      {
        ClippedLast(zones, k, c.duration);
        var z := zones[k];
        var end := if c.duration.Some? then Min(z.end, c.duration.value) else z.end;
        end := Max(z.start, end);
        if end > z.start {
          intervals := intervals + [Zone(z.start, end, z.epoch, z.phase)];
        }
      }
      assert zones[..|zones|] == zones;
    }
    EarlierIsTotal();
    SortByOrdered(Earlier, intervals);
    intervals := SortBy(Earlier, intervals);
    CaseObserves(intervals, c, args);
  }

  /** The matches over several targets, target by target. */
  function ScanAll(targets: seq<nat>, byTarget: map<nat, seq<Zone>>, t: int, binEnd: Option<int>): seq<Hit> {
    if targets == [] then []
    else
      var last := |targets| - 1;
      ScanAll(targets[..last], byTarget, t, binEnd) + Scan(targets[last], Of(byTarget, targets[last]), t, binEnd)
  }

  function Of(byTarget: map<nat, seq<Zone>>, target: nat): seq<Zone> {
    if target in byTarget then byTarget[target] else []
  }

  lemma ScanAllNext(targets: seq<nat>, n: nat, byTarget: map<nat, seq<Zone>>, t: int, binEnd: Option<int>)
    requires n < |targets|
    ensures ScanAll(targets[..n + 1], byTarget, t, binEnd)
         == ScanAll(targets[..n], byTarget, t, binEnd) + Scan(targets[n], Of(byTarget, targets[n]), t, binEnd)
  {
    hide Scan, Of;
    assert targets[..n + 1][..n] == targets[..n];
  }

  /** The case that last claimed the identifier. */
  function LastCase(cases: seq<Case>, id: nat): Option<Case> {
    if cases == [] then None
    else
      var last := |cases| - 1;
      if !cases[last].isBaseline && cases[last].id == id then Some(cases[last]) else LastCase(cases[..last], id)
  }

  /** Every compared case is listed with exactly the windows around its events. */
  ghost predicate Lists(byTarget: map<nat, seq<Zone>>, cases: seq<Case>, args: Args) {
    && (forall k :: k in byTarget <==> LastCase(cases, k).Some?)
    && forall k | k in byTarget :: WindowsOf(byTarget[k], LastCase(cases, k).value, args)
  }

  lemma NoCase(args: Args)
    ensures Lists(map[], [], args)
  {
  }

  /** A compared case replaces an earlier one of the same identifier. */
  lemma NextCase(byTarget: map<nat, seq<Zone>>, byTarget': map<nat, seq<Zone>>, cases: seq<Case>, n: nat, args: Args)
    requires n < |cases| && Lists(byTarget, cases[..n], args)
    requires cases[n].isBaseline ==> byTarget' == byTarget
    requires !cases[n].isBaseline ==>
               && var c := cases[n];
                  byTarget'.Keys == byTarget.Keys + {c.id} && WindowsOf(byTarget'[c.id], c, args)
                  && forall k | k in byTarget && k != c.id :: byTarget'[k] == byTarget[k]
    ensures Lists(byTarget', cases[..n + 1], args)
  {
    hide WindowsOf;
    assert cases[..n + 1][..n] == cases[..n];
    forall id ensures LastCase(cases[..n + 1], id) ==
      if !cases[n].isBaseline && cases[n].id == id then Some(cases[n]) else LastCase(cases[..n], id)
    {
    }
  }

  method Filter(target: nat, candidates: seq<Zone>, t: int, binEnd: Option<int>) returns (hits: seq<Hit>)
    ensures hits == Scan(target, candidates, t, binEnd)
  {
    hits := [];
    for k := 0 to |candidates|
      invariant hits == Scan(target, candidates[..k], t, binEnd)
    {
      var z := candidates[k];
      assert candidates[..k + 1] == candidates[..k] + [z] && [z][1..] == [];
      ScanAppend(target, candidates[..k], [z], t, binEnd);
      if z.start <= t < z.end && (binEnd.None? || binEnd.value <= z.end) {
        hits := hits + [Hit(target, z.epoch, z.phase)];
      }
    }
    assert candidates[..|candidates|] == candidates;
  }

  class ZoneIndex {
    /** The keys of `byTarget` in insertion order. */
    var targets: seq<nat>
    var byTarget: map<nat, seq<Zone>>
    var indices: map<nat, (seq<int>, seq<int>)>

    ghost predicate Valid()
      reads this
    {
      && (forall k :: k in targets <==> k in byTarget)
      && Distinct(targets)
      && indices.Keys == byTarget.Keys
      && forall k | k in byTarget :: Indexed(byTarget[k], indices[k])
    }

    /** Every compared case is indexed with exactly the windows around its events. */
    constructor (cases: seq<Case>, args: Args)
      ensures Valid() && Lists(byTarget, cases, args)
    {
      targets, byTarget, indices := [], map[], map[];
      new;
      hide CaseWindows, Indexed, Observes, Lists;
      NoCase(args);
      for n := 0 to |cases|
        modifies this
        invariant Valid() && Lists(byTarget, cases[..n], args)
      {
        ghost var before := byTarget;
        if !cases[n].isBaseline {
          AddCase(cases[n], args);
        }
        NextCase(before, byTarget, cases, n, args);
      }
      assert cases[..|cases|] == cases;
    }

    method AddCase(c: Case, args: Args)
      requires Valid()
      modifies this
      ensures Valid()
      ensures byTarget.Keys == old(byTarget).Keys + {c.id}
      ensures targets == old(targets) + if c.id in old(byTarget) then [] else [c.id]
      ensures WindowsOf(byTarget[c.id], c, args)
      ensures forall k | k in old(byTarget) && k != c.id :: byTarget[k] == old(byTarget)[k]
    {
      hide CaseWindows, Indexed, Observes;
      var intervals := Intervals(c, args);
      var index := Index(intervals);
      if c.id !in byTarget {
        targets := targets + [c.id];
      }
      byTarget := byTarget[c.id := intervals];
      indices := indices[c.id := index];
    }

    /** Exactly the windows a linear scan over all intervals of the queried targets would yield. */
    method FindMatches(c: Case, t: int, binEnd: Option<int>) returns (hits: seq<Hit>)
      requires Valid()
      ensures hits == ScanAll(if c.isBaseline then targets else [c.id], byTarget, t, binEnd)
    {
      hide Indexed, Scan, ScanAll, Slice;
      var queried := if c.isBaseline then targets else [c.id];
      hits := [];
      NoTargets(byTarget, t, binEnd);
      for n := 0 to |queried|
        invariant hits == ScanAll(queried[..n], byTarget, t, binEnd)
      {
        var target := queried[n];
        var intervals, index := [], ([], []);
        NothingIndexed();
        if target in byTarget {
          intervals, index := byTarget[target], indices[target];
        }
        var found := Filter(target, Slice(intervals, index, t), t, binEnd);
        SliceLosesNothing(target, intervals, index, t, binEnd);
        ScanAllNext(queried, n, byTarget, t, binEnd);
        hits := hits + found;
      }
      assert queried[..|queried|] == queried;
    }
  }

  lemma {:induction false} ScanAllMembers(targets: seq<nat>, byTarget: map<nat, seq<Zone>>, t: int, binEnd: Option<int>,
                                          h: Hit)
    ensures h in ScanAll(targets, byTarget, t, binEnd) <==>
            h.target in targets && h in Scan(h.target, Of(byTarget, h.target), t, binEnd)
  {
    hide Matches, Of, Scan;
    if targets != [] {
      var last := |targets| - 1;
      ScanAllMembers(targets[..last], byTarget, t, binEnd, h);
      ScanMembers(targets[last], Of(byTarget, targets[last]), t, binEnd, h);
      assert targets == targets[..last] + [targets[last]];
    }
  }

  /** A hit at t: an event of the compared case that it names, around which t lies in the phase it names. */
  lemma HitsObserved(cases: seq<Case>, args: Args, queried: seq<nat>, byTarget: map<nat, seq<Zone>>, t: int,
                     binEnd: Option<int>, h: Hit)
    requires Lists(byTarget, cases, args)
    ensures h in ScanAll(queried, byTarget, t, binEnd) <==>
              && h.target in queried && LastCase(cases, h.target).Some?
              && var c := LastCase(cases, h.target).value;
                 exists i :: 0 <= i < |c.events| && c.events[i].epoch == h.epoch
                             && Observed(c, args, i, h.phase, t, binEnd)
  {
    hide Matches, CaseWindows, Scan, Observed, ScanAll;
    ScanAllMembers(queried, byTarget, t, binEnd, h);
    ScanMembers(h.target, Of(byTarget, h.target), t, binEnd, h);
    assert h in Scan(h.target, Of(byTarget, h.target), t, binEnd) <==>
           Holds(Of(byTarget, h.target), h.epoch, h.phase, t, binEnd);
    if h.target in byTarget {
      assert Observes(byTarget[h.target], LastCase(cases, h.target).value, args);
    }
  }

  lemma NoTargets(byTarget: map<nat, seq<Zone>>, t: int, binEnd: Option<int>)
    ensures ScanAll([], byTarget, t, binEnd) == []
  {
  }

  lemma NothingIndexed()
    ensures Indexed([], ([], []))
  {
  }
}

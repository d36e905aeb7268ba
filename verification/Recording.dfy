/** The merged route intervals of a recording: when some flow uses which transit. */
module Recording {
  import opened Collections
  import opened Ordering
  import opened Intervals
  import opened Listings

  // ---------------------------------------------------------------------- route intervals

  datatype Key = Key(src: int, dst: int, transit: int)

  datatype Record = Record(taskId: nat, flowHash: nat, key: Key, time: int, end: Option<int>)

  type Flow = (nat, nat)

  datatype Route = Route(key: Key, span: Span)

  /** What bounds a route interval besides its own record: the end of the run and, under reconfiguration, the resets. */
  datatype Bounds = Bounds(caseEnd: int, rewires: bool, resets: seq<int>)

  function FlowOf(r: Record): Flow { (r.taskId, r.flowHash) }

  predicate Sooner(x: Record, y: Record) { x.time <= y.time }

  /** The records of one flow, by time. */
  function Timeline(records: seq<Record>, f: Flow): seq<Record> {
    SortBy(Sooner, OfFlow(records, f))
  }

  function OfFlow(records: seq<Record>, f: Flow): seq<Record> {
    if records == [] then []
    else
      var last := |records| - 1;
      OfFlow(records[..last], f) + if FlowOf(records[last]) == f then [records[last]] else []
  }

  /** A route is in use until it ends, the flow takes its next route, or the topology is rewired. */
  function InUse(flow: seq<Record>, i: nat, b: Bounds): Span
    requires i < |flow| && Rising(b.resets)
  {
    var start := flow[i].time;
    var own := if flow[i].end.Some? then flow[i].end.value else b.caseEnd;
    var next := if i + 1 < |flow| then Min(own, flow[i + 1].time) else own;
    var reset := BisectRight(b.resets, start);
    Span(start, if b.rewires && reset < |b.resets| then Min(next, b.resets[reset]) else next)
  }

  /** The non-empty intervals in which the first `n` records of a flow use a route. */
  function FlowSpans(flow: seq<Record>, n: nat, key: Key, b: Bounds): seq<Span>
    requires n <= |flow| && Rising(b.resets)
  {
    if n == 0 then []
    else
      var s := InUse(flow, n - 1, b);
      FlowSpans(flow, n - 1, key, b) + if s.end > s.start && flow[n - 1].key == key then [s] else []
  }

  /** All intervals in which some flow uses a route. */
  function RawSpans(flows: seq<Flow>, records: seq<Record>, key: Key, b: Bounds): seq<Span>
    requires Rising(b.resets)
  {
    if flows == [] then []
    else
      var last := |flows| - 1;
      var flow := Timeline(records, flows[last]);
      RawSpans(flows[..last], records, key, b) + FlowSpans(flow, |flow|, key, b)
  }

  /** The flows in order of first appearance. */
  function Flows(records: seq<Record>): (r: seq<Flow>)
    ensures Distinct(r) && forall f :: f in r <==> OfFlow(records, f) != []
  {
    if records == [] then []
    else
      var last := |records| - 1;
      var earlier := Flows(records[..last]);
      if FlowOf(records[last]) in earlier then earlier else earlier + [FlowOf(records[last])]
  }

  /** Some flow uses the route at the instant. */
  ghost predicate Used(records: seq<Record>, key: Key, t: int, b: Bounds) {
    exists f: Flow :: UsedByFlow(records, f, key, t, b)
  }

  ghost predicate UsedBy(flow: seq<Record>, key: Key, t: int, b: Bounds) {
    exists i: nat :: i < |flow| && UsesAt(flow, i, key, t, b)
  }

  ghost predicate UsesAt(flow: seq<Record>, i: nat, key: Key, t: int, b: Bounds)
    requires i < |flow|
  {
    flow[i].key == key && InForce(flow, i, t, b)
  }

  /** At instant t the flow's latest record is i, which has not ended, and no rewiring came after it. */
  ghost predicate InForce(flow: seq<Record>, i: nat, t: int, b: Bounds)
    requires i < |flow|
  {
    && flow[i].time <= t && (forall j | i < j < |flow| :: t < flow[j].time)
    && t < (if flow[i].end.Some? then flow[i].end.value else b.caseEnd)
    && (b.rewires ==> forall r | r in b.resets :: !(flow[i].time < r <= t))
  }

  /** The computed interval of a record holds exactly the instants at which it is in force. */
  lemma InUseWhen(flow: seq<Record>, i: nat, t: int, b: Bounds)
    requires i < |flow| && Rising(b.resets) && Ordered(Sooner, flow)
    ensures InUse(flow, i, b).Holds(t) <==> InForce(flow, i, t, b)
  {
    NextBounds(flow, i, t);
    var reset := BisectRight(b.resets, flow[i].time);
    if b.rewires && flow[i].time <= t {
      NoReset(b.resets, flow[i].time, t);
    }
  }

  lemma NextBounds(flow: seq<Record>, i: nat, t: int)
    requires i < |flow| && Ordered(Sooner, flow)
    ensures (forall j | i < j < |flow| :: t < flow[j].time) <==> (i + 1 < |flow| ==> t < flow[i + 1].time)
  {
    forall j | i + 1 < j < |flow| ensures flow[i + 1].time <= flow[j].time {
      assert Sooner(flow[i + 1], flow[j]);
    }
  }

  lemma NoReset(resets: seq<int>, start: int, t: int)
    requires Rising(resets)
    ensures var k := BisectRight(resets, start);
      (forall r | r in resets :: !(start < r <= t)) <==> (k < |resets| ==> t < resets[k])
  {
    var k := BisectRight(resets, start);
    if k < |resets| {
      assert resets[k] in resets;
    }
  }

  lemma TimelineOrdered(records: seq<Record>, f: Flow)
    ensures Ordered(Sooner, Timeline(records, f))
  {
    SortByOrdered(Sooner, OfFlow(records, f));
  }

  lemma CoversOne(s: Span, t: int)
    ensures Covers([s], t) <==> s.Holds(t)
  {
    assert [s][0] == s;
  }

  lemma {:induction false} FlowSpansCover(flow: seq<Record>, n: nat, key: Key, t: int, b: Bounds)
    requires n <= |flow| && Rising(b.resets) && Ordered(Sooner, flow)
    ensures Covers(FlowSpans(flow, n, key, b), t) <==> exists i: nat :: i < n && UsesAt(flow, i, key, t, b)
  {
    hide InForce, InUse;
    if n > 0 {
      FlowSpansCover(flow, n - 1, key, t, b);
      var s := InUse(flow, n - 1, b);
      InUseWhen(flow, n - 1, t, b);
      CoversOne(s, t);
      CoversConcat(FlowSpans(flow, n - 1, key, b), if s.end > s.start && flow[n - 1].key == key then [s] else [], t);
      assert UsesAt(flow, n - 1, key, t, b) <==> flow[n - 1].key == key && s.Holds(t);
    }
  }

  lemma WholeFlowCovers(flow: seq<Record>, key: Key, t: int, b: Bounds)
    requires Rising(b.resets) && Ordered(Sooner, flow)
    ensures Covers(FlowSpans(flow, |flow|, key, b), t) <==> UsedBy(flow, key, t, b)
  {
    FlowSpansCover(flow, |flow|, key, t, b);
  }

  lemma CoversConcat(x: seq<Span>, y: seq<Span>, t: int)
    ensures Covers(x + y, t) <==> Covers(x, t) || Covers(y, t)
  {
    CoversMember(x + y, t);
    CoversMember(x, t);
    CoversMember(y, t);
  }

  ghost predicate UsedByFlow(records: seq<Record>, f: Flow, key: Key, t: int, b: Bounds) {
    UsedBy(Timeline(records, f), key, t, b)
  }

  lemma RawSpansNext(flows: seq<Flow>, records: seq<Record>, key: Key, t: int, b: Bounds)
    requires Rising(b.resets) && flows != []
    ensures var last := |flows| - 1;
            Covers(RawSpans(flows, records, key, b), t) <==>
              Covers(RawSpans(flows[..last], records, key, b), t) || UsedByFlow(records, flows[last], key, t, b)
  {
    hide Timeline, UsedBy, FlowSpans, Covers;
    var last := |flows| - 1;
    var flow := Timeline(records, flows[last]);
    TimelineOrdered(records, flows[last]);
    WholeFlowCovers(flow, key, t, b);
    CoversConcat(RawSpans(flows[..last], records, key, b), FlowSpans(flow, |flow|, key, b), t);
  }

  lemma {:induction false} RawSpansCover(flows: seq<Flow>, records: seq<Record>, key: Key, t: int, b: Bounds)
    requires Rising(b.resets)
    ensures Covers(RawSpans(flows, records, key, b), t) <==> exists f :: f in flows && UsedByFlow(records, f, key, t, b)
  {
    if flows != [] {
      RawSpansNext(flows, records, key, t, b);
      hide UsedByFlow, Covers, RawSpans;
      var last := |flows| - 1;
      RawSpansCover(flows[..last], records, key, t, b);
      assert forall f :: f in flows <==> f == flows[last] || f in flows[..last];
    }
  }

  /** The collected intervals hold exactly the instants at which the route is used. */
  lemma RawIsUsed(records: seq<Record>, key: Key, t: int, b: Bounds)
    requires Rising(b.resets)
    ensures Covers(RawSpans(Flows(records), records, key, b), t) <==> Used(records, key, t, b)
  {
    RawSpansCover(Flows(records), records, key, t, b);
    if Used(records, key, t, b) {
      var f: Flow :| UsedByFlow(records, f, key, t, b);
      assert f in Flows(records) by {
        SortByMembers(Sooner, OfFlow(records, f));
      }
    }
  }

  // ------------------------------------------------------------- record by record

  /** Record j is a later one of the same task and flow; of two at one instant, the one written later. */
  ghost predicate Supersedes(records: seq<Record>, i: nat, j: nat)
    requires i < |records| && j < |records|
  {
    && records[i].taskId == records[j].taskId && records[i].flowHash == records[j].flowHash
    && (records[i].time < records[j].time || (records[i].time == records[j].time && i < j))
  }

  /** Record i directs its flow over the route at instant t: it was written, not superseded, has not ended, and no
      rewiring came after it. */
  ghost predicate Directs(records: seq<Record>, i: nat, key: Key, t: int, b: Bounds)
    requires i < |records|
  {
    && records[i].key == key && records[i].time <= t
    && (forall j | 0 <= j < |records| && Supersedes(records, i, j) :: t < records[j].time)
    && t < (if records[i].end.Some? then records[i].end.value else b.caseEnd)
    && (b.rewires ==> forall r | r in b.resets :: !(records[i].time < r <= t))
  }

  lemma {:induction false} OfFlowAt(records: seq<Record>, f: Flow) returns (at: seq<nat>)
    ensures KeptAt(records, (r: Record) => FlowOf(r) == f, OfFlow(records, f), at)
  {
    if records == [] {
      at := [];
    } else {
      var last: nat := |records| - 1;
      var before := OfFlowAt(records[..last], f);
      at := before + if FlowOf(records[last]) == f then [last] else [];
      KeptNext(records, (r: Record) => FlowOf(r) == f, OfFlow(records[..last], f), before);
    }
  }

  ghost predicate TimelineFrom(records: seq<Record>, f: Flow, at: seq<nat>) {
    SortedAt(Sooner, records, (r: Record) => FlowOf(r) == f, Timeline(records, f), at)
  }

  lemma TimelineAt(records: seq<Record>, f: Flow) returns (at: seq<nat>)
    ensures TimelineFrom(records, f, at)
  {
    hide OfFlow, SortBy;
    var place := OfFlowAt(records, f);
    at := SortedKept(Sooner, records, (r: Record) => FlowOf(r) == f, OfFlow(records, f), place);
  }

  lemma LaterInFlow(records: seq<Record>, f: Flow, at: seq<nat>, k: nat, j: nat) returns (l: nat)
    requires TimelineFrom(records, f, at) && k < |at| && at[k] < |records| && j < |records|
    requires Supersedes(records, at[k], j)
    ensures k < l < |at| && l < |Timeline(records, f)| && Timeline(records, f)[l] == records[j]
  {
    hide Timeline;
    assert FlowOf(records[at[k]]) == f && FlowOf(records[j]) == f && j in at;
    l :| l < |at| && at[l] == j;
  }

  lemma LaterInRecords(records: seq<Record>, f: Flow, at: seq<nat>, k: nat, l: nat)
    requires TimelineFrom(records, f, at) && k < l < |Timeline(records, f)|
    ensures |at| == |Timeline(records, f)| && at[k] < |records| && at[l] < |records|
    ensures Supersedes(records, at[k], at[l]) && Timeline(records, f)[l] == records[at[l]]
  {
    hide Timeline;
    assert Sooner(Timeline(records, f)[k], Timeline(records, f)[l]);
    assert FlowOf(records[at[k]]) == f && FlowOf(records[at[l]]) == f;
  }

  lemma InFlow(records: seq<Record>, f: Flow, at: seq<nat>, k: nat)
    requires TimelineFrom(records, f, at) && k < |at|
    ensures |at| == |Timeline(records, f)| && at[k] < |records| && Timeline(records, f)[k] == records[at[k]]
  {
  }

  /** What the timeline of a flow says about a record, and what all records say about it, is the same. */
  lemma DirectsInFlow(records: seq<Record>, f: Flow, at: seq<nat>, k: nat, key: Key, t: int, b: Bounds)
    requires TimelineFrom(records, f, at) && k < |at|
    ensures k < |Timeline(records, f)| && at[k] < |records|
    ensures UsesAt(Timeline(records, f), k, key, t, b) <==> Directs(records, at[k], key, t, b)
  {
    hide Timeline, TimelineFrom, Supersedes;
    InFlow(records, f, at, k);
    forall j: nat | j < |records| && Supersedes(records, at[k], j)
      ensures exists l :: k < l < |Timeline(records, f)| && Timeline(records, f)[l] == records[j]
    {
      var l := LaterInFlow(records, f, at, k, j);
    }
    forall l: nat | k < l < |Timeline(records, f)|
      ensures exists j :: 0 <= j < |records| && Supersedes(records, at[k], j) && Timeline(records, f)[l] == records[j]
    {
      LaterInRecords(records, f, at, k, l);
    }
  }

  /** Some record directs its flow over the route. */
  ghost predicate Directed(records: seq<Record>, key: Key, t: int, b: Bounds) {
    exists i: nat :: i < |records| && Directs(records, i, key, t, b)
  }

  lemma InFlows(records: seq<Record>, f: Flow, at: seq<nat>, k: nat)
    requires TimelineFrom(records, f, at) && k < |Timeline(records, f)|
    ensures k < |at|
  {
  }

  lemma PlaceOf(records: seq<Record>, f: Flow, at: seq<nat>, i: nat) returns (k: nat)
    requires TimelineFrom(records, f, at) && i < |records| && FlowOf(records[i]) == f
    ensures k < |at| && at[k] == i
  {
    assert i in at;
    k :| k < |at| && at[k] == i;
  }

  /** Some flow uses the route at t exactly when some record directs its flow over it then. */
  lemma UsedMeans(records: seq<Record>, key: Key, t: int, b: Bounds)
    ensures Used(records, key, t, b) <==> Directed(records, key, t, b)
  {
    hide Timeline, UsesAt, Directs, SortedAt;
    if Used(records, key, t, b) {
      var f: Flow :| UsedByFlow(records, f, key, t, b);
      var at := TimelineAt(records, f);
      var k: nat :| k < |Timeline(records, f)| && UsesAt(Timeline(records, f), k, key, t, b);
      InFlows(records, f, at, k);
      DirectsInFlow(records, f, at, k, key, t, b);
    }
    if i: nat :| i < |records| && Directs(records, i, key, t, b) {
      var f := FlowOf(records[i]);
      var at := TimelineAt(records, f);
      var k := PlaceOf(records, f, at, i);
      DirectsInFlow(records, f, at, k, key, t, b);
      assert UsedByFlow(records, f, key, t, b);
    }
  }

  predicate RouteOrder(x: Route, y: Route) {
    x.span.start < y.span.start
    || (x.span.start == y.span.start
        && (x.key.src < y.key.src
            || (x.key.src == y.key.src
                && (x.key.dst < y.key.dst || (x.key.dst == y.key.dst && x.key.transit <= y.key.transit)))))
  }

  lemma RouteOrderIsTotal()
    ensures TotalOrder(RouteOrder)
  {
  }

  /** Listed once each, non-empty, and with a gap between any two intervals of one route. */
  ghost predicate Apart(routes: seq<Route>) {
    && (forall r | r in routes :: multiset(routes)[r] == 1 && r.span.start < r.span.end)
    && forall x, y | x in routes && y in routes :: Strangers(x, y)
  }

  ghost predicate Listed(routes: seq<Route>, key: Key, t: int) {
    exists r :: r in routes && r.key == key && r.span.Holds(t)
  }

  function RoutesOf(key: Key, spans: seq<Span>): (r: seq<Route>)
    ensures |r| == |spans| && forall i | 0 <= i < |r| :: r[i] == Route(key, spans[i])
  {
    seq(|spans|, i requires 0 <= i < |spans| => Route(key, spans[i]))
  }

  predicate Strangers(x: Route, y: Route) {
    x.key == y.key && x != y ==> x.span.end < y.span.start || y.span.end < x.span.start
  }

  lemma NewRoutesApart(key: Key, spans: seq<Span>)
    requires Separated(spans)
    ensures Apart(RoutesOf(key, spans))
    ensures forall t :: Listed(RoutesOf(key, spans), key, t) <==> Covers(spans, t)
  {
    var added := RoutesOf(key, spans);
    forall i | 0 <= i < |added| ensures multiset(added)[added[i]] == 1 {
      OnlyOnce(added, i);
    }
    forall t ensures Listed(added, key, t) <==> Covers(spans, t) {
      if Covers(spans, t) {
        var i :| 0 <= i < |spans| && spans[i].Holds(t);
        assert added[i] in added;
      }
    }
  }

  lemma ConcatOnce(x: seq<Route>, y: seq<Route>)
    requires forall r :: !(r in x && r in y)
    requires (forall r | r in x :: multiset(x)[r] == 1) && forall r | r in y :: multiset(y)[r] == 1
    ensures forall r | r in x + y :: multiset(x + y)[r] == 1
  {
    assert multiset(x + y) == multiset(x) + multiset(y);
    forall r | r in x + y ensures multiset(x + y)[r] == 1 {
      assert r !in x ==> r !in multiset(x);
      assert r !in y ==> r !in multiset(y);
    }
  }

  /** Adding the merged intervals of a further route. */
  lemma AddRoute(routes: seq<Route>, key: Key, spans: seq<Span>)
    requires Apart(routes) && Separated(spans) && forall r | r in routes :: r.key != key
    ensures Apart(routes + RoutesOf(key, spans))
    ensures forall t :: Listed(routes + RoutesOf(key, spans), key, t) <==> Covers(spans, t)
    ensures forall k, t | k != key :: Listed(routes + RoutesOf(key, spans), k, t) <==> Listed(routes, k, t)
  {
    var added := RoutesOf(key, spans);
    NewRoutesApart(key, spans);
    assert forall r | r in added :: r.key == key;
    hide RoutesOf, Covers, Separated;
    assert forall r :: r in routes + added <==> r in routes || r in added;
    ConcatOnce(routes, added);
  }

  lemma OnlyOnce<T>(s: seq<T>, i: nat)
    requires i < |s| && forall j | 0 <= j < |s| && j != i :: s[j] != s[i]
    ensures multiset(s)[s[i]] == 1
  {
    assert s == s[..i] + [s[i]] + s[i + 1..];
    assert s[i] !in s[..i] && s[i] !in s[i + 1..];
  }

  lemma SortedRoutes(routes: seq<Route>)
    requires Apart(routes)
    ensures Apart(SortBy(RouteOrder, routes)) && Ordered(RouteOrder, SortBy(RouteOrder, routes))
    ensures forall k, t :: Listed(SortBy(RouteOrder, routes), k, t) <==> Listed(routes, k, t)
  {
    RouteOrderIsTotal();
    SortByOrdered(RouteOrder, routes);
    SortByMembers(RouteOrder, routes);
  }

  // -------------------------------------------------------------- building the intervals

  lemma NoFlows()
    ensures Flows([]) == [] && forall f: Flow :: OfFlow([], f) == []
  {
  }

  lemma FlowsNext(records: seq<Record>, n: nat)
    requires n < |records|
    ensures Flows(records[..n + 1])
         == Flows(records[..n]) + if FlowOf(records[n]) in Flows(records[..n]) then [] else [FlowOf(records[n])]
    ensures forall f: Flow ::
      OfFlow(records[..n + 1], f) == OfFlow(records[..n], f) + if f == FlowOf(records[n]) then [records[n]] else []
  {
    hide FlowOf;
    assert records[..n + 1][..n] == records[..n];
  }

  /** The records of every flow, and the flows in order of first appearance. */
  method GroupByFlow(records: seq<Record>) returns (flows: seq<Flow>, perFlow: map<Flow, seq<Record>>)
    ensures flows == Flows(records)
    ensures forall f: Flow :: At(perFlow, f) == OfFlow(records, f)
  {
    hide At, Append, FlowOf, Flows, OfFlow;
    flows, perFlow := [], map[];
    NothingListed<Flow, Record>();
    NoFlows();
    assert records[..0] == [];
    for n := 0 to |records|
      invariant flows == Flows(records[..n])
      invariant forall f: Flow :: At(perFlow, f) == OfFlow(records[..n], f)
      invariant forall f: Flow :: f in perFlow <==> f in flows
    {
      var r := records[n];
      FlowsNext(records, n);
      if FlowOf(r) !in perFlow {
        flows := flows + [FlowOf(r)];
      }
      perFlow := Append(perFlow, FlowOf(r), r);
    }
    assert records[..|records|] == records;
  }

  method UseOf(flow: seq<Record>, i: nat, b: Bounds) returns (s: Span)
    requires i < |flow| && Rising(b.resets) && Ordered(Sooner, flow)
    ensures forall t :: s.Holds(t) <==> InForce(flow, i, t, b)
    ensures s == InUse(flow, i, b)
  {
    forall t ensures InUse(flow, i, b).Holds(t) <==> InForce(flow, i, t, b) {
      InUseWhen(flow, i, t, b);
    }
    var record := flow[i];
    var start := record.time;
    var end := if record.end.Some? then record.end.value else b.caseEnd;
    if i + 1 < |flow| {
      end := Min(end, flow[i + 1].time);
    }
    if b.rewires {
      var index := BisectRight(b.resets, start);
      if index < |b.resets| {
        end := Min(end, b.resets[index]);
      }
    }
    return Span(start, end);
  }

  /** Adds the non-empty intervals of one flow to the groups of their routes. */
  method AddFlow(grouped: map<Key, seq<Span>>, keys: seq<Key>, flow: seq<Record>, b: Bounds)
    returns (grouped': map<Key, seq<Span>>, keys': seq<Key>)
    requires Rising(b.resets) && Ordered(Sooner, flow) && Distinct(keys) && forall k :: k in keys <==> k in grouped
    ensures Distinct(keys') && forall k :: k in keys' <==> k in grouped'
    ensures forall k :: At(grouped', k) == At(grouped, k) + FlowSpans(flow, |flow|, k, b)
  {
    hide At, Append, InUse, InForce, BisectRight;
    grouped', keys' := grouped, keys;
    for i := 0 to |flow|
      invariant Distinct(keys') && forall k :: k in keys' <==> k in grouped'
      invariant forall k :: At(grouped', k) == At(grouped, k) + FlowSpans(flow, i, k, b)
    {
      var use := UseOf(flow, i, b);
      if use.end <= use.start {
        continue;
      }
      if flow[i].key !in grouped' {
        keys' := keys' + [flow[i].key];
      }
      grouped' := Append(grouped', flow[i].key, use);
    }
  }

  /** For every route, separated intervals that hold exactly the instants at which some record directs its flow over
      it. */
  method RouteIntervals(records: seq<Record>, b: Bounds) returns (result: seq<Route>)
    requires Rising(b.resets)
    ensures Ordered(RouteOrder, result) && Apart(result)
    ensures forall key, t :: Listed(result, key, t) <==> Directed(records, key, t, b)
  {
    hide Directed, Used;
    var flows, perFlow := GroupByFlow(records);
    var grouped: map<Key, seq<Span>>, keys: seq<Key> := map[], [];
    hide FlowSpans;
    for n := 0 to |flows|
      invariant Distinct(keys) && forall k :: k in keys <==> k in grouped
      invariant forall k :: At(grouped, k) == RawSpans(flows[..n], records, k, b)
    {
      assert flows[..n + 1][..n] == flows[..n];
      assert Timeline(records, flows[n]) == SortBy(Sooner, At(perFlow, flows[n]));
      TimelineOrdered(records, flows[n]);
      grouped, keys := AddFlow(grouped, keys, SortBy(Sooner, At(perFlow, flows[n])), b);
    }
    assert flows[..|flows|] == flows;
    result := MergeRoutes(grouped, keys);
    SortedRoutes(result);
    result := SortBy(RouteOrder, result);
    forall key, t ensures Listed(result, key, t) <==> Directed(records, key, t, b) {
      RawIsUsed(records, key, t, b);
      UsedMeans(records, key, t, b);
    }
  }

  lemma Unlisted(routes: seq<Route>, grouped: map<Key, seq<Span>>, key: Key, t: int)
    requires key !in grouped && forall r | r in routes :: r.key != key
    ensures !Listed(routes, key, t) && !Covers(At(grouped, key), t)
  {
  }

  /** The routes list the intervals of these groups, and of no other. */
  ghost predicate Merges(routes: seq<Route>, grouped: map<Key, seq<Span>>, keys: seq<Key>) {
    && Apart(routes) && (forall r | r in routes :: r.key in keys)
    && forall key, t | key in keys :: Listed(routes, key, t) <==> Covers(At(grouped, key), t)
  }

  lemma MergesNext(routes: seq<Route>, grouped: map<Key, seq<Span>>, keys: seq<Key>, key: Key, merged: seq<Span>)
    requires Merges(routes, grouped, keys) && key !in keys && key in grouped && Separated(merged)
    requires forall t :: Covers(merged, t) <==> Covers(grouped[key], t)
    ensures Merges(routes + RoutesOf(key, merged), grouped, keys + [key])
  {
    hide Covers, Listed, Apart, Separated;
    AddRoute(routes, key, merged);
    assert forall r | r in routes + RoutesOf(key, merged) :: r in routes || r in RoutesOf(key, merged);
  }

  lemma MergesAll(routes: seq<Route>, grouped: map<Key, seq<Span>>, keys: seq<Key>)
    requires Merges(routes, grouped, keys) && forall k :: k in keys <==> k in grouped
    ensures forall key, t :: Listed(routes, key, t) <==> Covers(At(grouped, key), t)
  {
    hide Covers, Listed, Apart;
    forall key, t | key !in keys ensures !Listed(routes, key, t) && !Covers(At(grouped, key), t) {
      Unlisted(routes, grouped, key, t);
    }
  }

  /** Merges the intervals of every group. */
  method MergeRoutes(grouped: map<Key, seq<Span>>, keys: seq<Key>) returns (result: seq<Route>)
    requires Distinct(keys) && forall k :: k in keys <==> k in grouped
    ensures Apart(result)
    ensures forall key, t :: Listed(result, key, t) <==> Covers(At(grouped, key), t)
  {
    hide Covers, Listed, RoutesOf, Separated;
    result := [];
    for n := 0 to |keys|
      invariant Merges(result, grouped, keys[..n])
    {
      var merged := MergedIntervals(grouped[keys[n]]);
      MergesNext(result, grouped, keys[..n], keys[n], merged);
      assert keys[..n + 1] == keys[..n] + [keys[n]];
      result := result + RoutesOf(keys[n], merged);
    }
    assert keys[..|keys|] == keys;
    MergesAll(result, grouped, keys);
  }
}

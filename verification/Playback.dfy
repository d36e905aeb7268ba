/** Task progress for playback: streaming bins against direct counting. Times are picoseconds. */
module Playback {
  import opened Collections

  datatype Row = Row(id: int, start: Option<int>, end: Option<int>)

  datatype Task = Task(start: Option<nat>, end: Option<nat>)

  datatype Bin = Bin(started: nat, completed: nat, ended: nat)

  /** The stored tasks and the totals over the workload. */
  datatype Imported = Imported(tasks: seq<Task>, total: nat, completed: nat, pending: int)

  datatype Progress = Progress(time: nat, started: nat, completed: nat, running: int)

  // -------------------------------------------------------------------------------- import

  /** A task that ends has started before. */
  predicate Sane(t: Task) {
    t.end.Some? ==> t.start.Some? && t.start.value <= t.end.value
  }

  predicate Usable(r: Row) {
    && (r.start.Some? ==> r.start.value >= 0) && (r.end.Some? ==> r.end.value >= 0)
    && (r.end.Some? ==> r.start.Some? && r.start.value <= r.end.value)
  }

  /** The stored task has the row's start and the row's end. */
  ghost predicate StoredAs(r: Row, t: Task) {
    && t.start.Some? == r.start.Some? && (t.start.Some? ==> t.start.value == r.start.value)
    && t.end.Some? == r.end.Some? && (t.end.Some? ==> t.end.value == r.end.value)
  }

  /** Every row is usable and about its own task of the workload, and some task completed. */
  ghost predicate Importable(rows: seq<Row>, workload: set<int>) {
    && (forall i | 0 <= i < |rows| :: Usable(rows[i]))
    && (forall i, j | 0 <= i < j < |rows| :: rows[i].id != rows[j].id)
    && (forall i | 0 <= i < |rows| :: rows[i].id in workload)
    && exists i :: 0 <= i < |rows| && rows[i].end.Some?
  }

  function StartedIds(rows: seq<Row>): set<int> {
    set i | 0 <= i < |rows| && rows[i].start.Some? :: rows[i].id
  }

  function CompletedIds(rows: seq<Row>): set<int> {
    set i | 0 <= i < |rows| && rows[i].end.Some? :: rows[i].id
  }

  lemma IdsNext(rows: seq<Row>, n: nat)
    requires n < |rows| && forall i | 0 <= i < n :: rows[i].id != rows[n].id
    ensures |StartedIds(rows[..n + 1])| == |StartedIds(rows[..n])| + if rows[n].start.Some? then 1 else 0
    ensures |CompletedIds(rows[..n + 1])| == |CompletedIds(rows[..n])| + if rows[n].end.Some? then 1 else 0
  {
    var before, after := rows[..n], rows[..n + 1];
    assert forall i | 0 <= i < n :: after[i] == before[i];
    assert after[n] == rows[n];
    assert StartedIds(after) == StartedIds(before) + if rows[n].start.Some? then {rows[n].id} else {};
    assert CompletedIds(after) == CompletedIds(before) + if rows[n].end.Some? then {rows[n].id} else {};
  }

  lemma PendingIs(rows: seq<Row>, workload: set<int>)
    requires forall i | 0 <= i < |rows| :: rows[i].id in workload
    ensures |workload| - |StartedIds(rows)| == |workload - StartedIds(rows)|
  {
    assert StartedIds(rows) <= workload;
  }

  method ImportRow(row: Row) returns (r: Result<Task>)
    ensures r.Ok? <==> Usable(row)
    ensures r.Ok? ==> StoredAs(row, r.value) && Sane(r.value)
  {
    if (row.start.Some? && row.start.value < 0) || (row.end.Some? && row.end.value < 0) {
      return Err("negative time");
    }
    if row.end.Some? && row.start.None? {
      return Err("a completion time but no start time");
    }
    if row.start.Some? && row.end.Some? && row.end.value < row.start.value {
      return Err("completes before it starts");
    }
    var start := if row.start.Some? then Some(row.start.value as nat) else None;
    return Ok(Task(start, if row.end.Some? then Some(row.end.value as nat) else None));
  }

  /** Stores one task per row. Rejects the rows unless all are usable, each is about a different task of the workload,
      and one is complete; counts the tasks that completed and those of the workload that never started. */
  method Import(rows: seq<Row>, workload: set<int>) returns (r: Result<Imported>)
    ensures r.Ok? <==> Importable(rows, workload)
    ensures r.Ok? ==> |r.value.tasks| == |rows|
    ensures r.Ok? ==> forall i | 0 <= i < |rows| :: Sane(r.value.tasks[i]) && StoredAs(rows[i], r.value.tasks[i])
    ensures r.Ok? ==> r.value.total == |workload| && r.value.completed == |CompletedIds(rows)|
    ensures r.Ok? ==> r.value.pending == |workload - StartedIds(rows)|
  {
    hide StartedIds, CompletedIds, Usable, Sane, StoredAs;
    var tasks, ids: set<int>, started, completed := [], {}, 0, 0;
    assert StartedIds(rows[..0]) == {} && CompletedIds(rows[..0]) == {} by { NoIds(rows[..0]); }
    for n := 0 to |rows|
      invariant |tasks| == n && forall k | 0 <= k < n ::
                Usable(rows[k]) && Sane(tasks[k]) && StoredAs(rows[k], tasks[k])
      invariant ids == set k | 0 <= k < n :: rows[k].id
      invariant forall i, j | 0 <= i < j < n :: rows[i].id != rows[j].id
      invariant started == |StartedIds(rows[..n])| && completed == |CompletedIds(rows[..n])|
      invariant completed > 0 <==> exists k :: 0 <= k < n && rows[k].end.Some?
    {
      var task := ImportRow(rows[n]);
      if task.Err? {
        return Err(task.reason);
      }
      if rows[n].id in ids {
        return Err("duplicate taskId");
      }
      IdsNext(rows, n);
      ids := ids + {rows[n].id};
      started := started + if rows[n].start.Some? then 1 else 0;
      completed := completed + if rows[n].end.Some? then 1 else 0;
      tasks := tasks + [task.value];
    }
    assert rows[..|rows|] == rows;
    if !(ids <= workload) {
      return Err("task id is absent from workload");
    }
    if completed == 0 {
      return Err("no usable completed tasks");
    }
    PendingIs(rows, workload);
    return Ok(Imported(tasks, |workload|, completed, |workload| - started));
  }

  lemma NoIds(rows: seq<Row>)
    requires rows == []
    ensures StartedIds(rows) == {} && CompletedIds(rows) == {}
  {
  }

  // ------------------------------------------------------------------------ direct counting

  datatype Mark = STARTED | COMPLETED | ENDED

  /** The time at which a task adds to a counter, if it does. */
  function TimeOf(t: Task, mark: Mark): Option<nat> {
    match mark
    case STARTED => t.start
    case COMPLETED => t.end
    case ENDED => if t.start.Some? then t.end else None
  }

  predicate Marked(t: Task, mark: Mark, b: nat) {
    TimeOf(t, mark).Some? && TimeOf(t, mark).value <= b
  }

  function CountBy(tasks: seq<Task>, mark: Mark, b: nat): nat {
    if tasks == [] then 0
    else
      var last := |tasks| - 1;
      CountBy(tasks[..last], mark, b) + if Marked(tasks[last], mark, b) then 1 else 0
  }

  /** Tasks that have started and not ended. */
  function RunningAt(tasks: seq<Task>, b: nat): nat {
    if tasks == [] then 0
    else
      var t := tasks[|tasks| - 1];
      RunningAt(tasks[..|tasks| - 1], b)
      + if t.start.Some? && t.start.value <= b && !(t.end.Some? && t.end.value <= b) then 1 else 0
  }

  ghost predicate AllSane(tasks: seq<Task>) {
    forall i | 0 <= i < |tasks| :: Sane(tasks[i])
  }

  lemma {:induction false} StartedMinusEnded(tasks: seq<Task>, b: nat)
    requires AllSane(tasks)
    ensures CountBy(tasks, STARTED, b) - CountBy(tasks, ENDED, b) == RunningAt(tasks, b)
  {
    if tasks != [] {
      assert Sane(tasks[|tasks| - 1]);
      StartedMinusEnded(tasks[..|tasks| - 1], b);
    }
  }

  /** What playback shows at a boundary: the tasks started, completed, and running by then. */
  function ProgressAt(tasks: seq<Task>, b: nat): Progress {
    Progress(b, CountBy(tasks, STARTED, b), CountBy(tasks, COMPLETED, b), RunningAt(tasks, b))
  }

  /** Later boundaries count no fewer starts and completions, and nothing exceeds the number of tasks. */
  lemma {:induction false} CountsGrow(tasks: seq<Task>, mark: Mark, b: nat, c: nat)
    requires b <= c
    ensures CountBy(tasks, mark, b) <= CountBy(tasks, mark, c) <= |tasks|
  {
    if tasks != [] {
      CountsGrow(tasks[..|tasks| - 1], mark, b, c);
    }
  }

  // ----------------------------------------------------------------------------------- bins

  /** The first multiple of the step that is no earlier. */
  function Ceil(t: nat, step: nat): nat
    requires step > 0
  {
    (t / step + if t % step > 0 then 1 else 0) * step
  }

  /** The `k`th multiple of the step. */
  function Tick(k: nat, step: nat): nat { k * step }

  lemma TickOrder(x: nat, y: nat, step: nat)
    requires x <= y
    ensures Tick(x, step) <= Tick(y, step) && Tick(x + 1, step) == Tick(x, step) + step
  {
  }

  lemma Divide(t: nat, step: nat)
    requires step > 0
    ensures t == Tick(t / step, step) + t % step && t % step < step
  {
  }

  /** Rounding up to a multiple never moves a time across a multiple. */
  lemma CeilKeepsSide(t: nat, step: nat, k: nat)
    requires step > 0
    ensures Ceil(t, step) <= Tick(k, step) <==> t <= Tick(k, step)
  {
    var q, r := t / step, t % step;
    Divide(t, step);
    var up := q + if r > 0 then 1 else 0;
    assert Ceil(t, step) == Tick(up, step);
    hide Tick, Ceil;
    TickOrder(q, q, step);
    if up <= k {
      TickOrder(up, k, step);
    } else {
      TickOrder(k, q, step);
      TickOrder(k + 1, up, step);
      TickOrder(k, k, step);
    }
  }

  predicate Binned(t: Task, mark: Mark, step: nat, bins: set<nat>)
    requires step > 0
  {
    TimeOf(t, mark).Some? && Ceil(TimeOf(t, mark).value, step) in bins
  }

  /** The tasks whose rounded time lies in one of the bins. */
  function CountIn(tasks: seq<Task>, mark: Mark, step: nat, bins: set<nat>): nat
    requires step > 0
  {
    if tasks == [] then 0
    else
      var last := |tasks| - 1;
      CountIn(tasks[..last], mark, step, bins) + if Binned(tasks[last], mark, step, bins) then 1 else 0
  }

  lemma {:induction false} CountInMore(tasks: seq<Task>, mark: Mark, step: nat, bins: set<nat>, b: nat)
    requires step > 0 && b !in bins
    ensures CountIn(tasks, mark, step, bins + {b}) == CountIn(tasks, mark, step, bins) + CountIn(tasks, mark, step, {b})
  {
    if tasks != [] {
      CountInMore(tasks[..|tasks| - 1], mark, step, bins, b);
    }
  }

  lemma {:induction false} CountInNone(tasks: seq<Task>, mark: Mark, step: nat)
    requires step > 0
    ensures CountIn(tasks, mark, step, {}) == 0
  {
    if tasks != [] {
      CountInNone(tasks[..|tasks| - 1], mark, step);
    }
  }

  /** The bins up to a multiple of the step hold exactly the tasks that count by then. */
  lemma {:induction false} CountInIsCountBy(tasks: seq<Task>, mark: Mark, step: nat, all: set<nat>, bins: set<nat>,
                                            k: nat)
    requires step > 0 && (forall x :: x in bins <==> x in all && x <= Tick(k, step))
    requires forall i | 0 <= i < |tasks| && TimeOf(tasks[i], mark).Some? ::
              Ceil(TimeOf(tasks[i], mark).value, step) in all
    ensures CountIn(tasks, mark, step, bins) == CountBy(tasks, mark, Tick(k, step))
  {
    if tasks != [] {
      var last := |tasks| - 1;
      CountInIsCountBy(tasks[..last], mark, step, all, bins, k);
      if TimeOf(tasks[last], mark).Some? {
        CeilKeepsSide(TimeOf(tasks[last], mark).value, step, k);
      }
    }
  }

  function BinOf(bins: map<nat, Bin>, time: nat): Bin {
    if time in bins then bins[time] else Bin(0, 0, 0)
  }

  /** Adds to a bin, creating it when missing. */
  function Upsert(bins: map<nat, Bin>, time: nat, add: Bin): (r: map<nat, Bin>)
    ensures r.Keys == bins.Keys + {time}
    ensures forall b :: BinOf(r, b) == if b != time then BinOf(bins, b) else
                          Bin(BinOf(bins, b).started + add.started, BinOf(bins, b).completed + add.completed,
                              BinOf(bins, b).ended + add.ended)
  {
    var old' := BinOf(bins, time);
    bins[time := Bin(old'.started + add.started, old'.completed + add.completed, old'.ended + add.ended)]
  }

  /** Every task time has its bin. */
  ghost predicate Caught(tasks: seq<Task>, mark: Mark, step: nat, times: set<nat>)
    requires step > 0
  {
    forall i | 0 <= i < |tasks| && TimeOf(tasks[i], mark).Some? :: Ceil(TimeOf(tasks[i], mark).value, step) in times
  }

  /** What a bin holds after counting all starts and the completions of the first `n` tasks. */
  ghost function Expected(tasks: seq<Task>, n: nat, step: nat, b: nat): Bin
    requires step > 0 && n <= |tasks|
  {
    Bin(CountIn(tasks, STARTED, step, {b}), CountIn(tasks[..n], COMPLETED, step, {b}),
        CountIn(tasks[..n], ENDED, step, {b}))
  }

  method BinStarts(tasks: seq<Task>, step: nat) returns (bins: map<nat, Bin>)
    requires step > 0
    ensures Caught(tasks, STARTED, step, bins.Keys)
    ensures forall b: nat :: BinOf(bins, b) == Expected(tasks, 0, step, b)
  {
    hide BinOf, Upsert, Ceil;
    bins := map[];
    NoBins();
    for i := 0 to |tasks|
      invariant Caught(tasks[..i], STARTED, step, bins.Keys)
      invariant forall b: nat :: BinOf(bins, b) == Bin(CountIn(tasks[..i], STARTED, step, {b}), 0, 0)
    {
      var t := tasks[i];
      assert tasks[..i + 1][..i] == tasks[..i];
      if t.start.Some? {
        bins := Upsert(bins, Ceil(t.start.value, step), Bin(1, 0, 0));
      }
    }
    assert tasks[..|tasks|] == tasks && tasks[..0] == [];
  }

  lemma ExpectedNext(tasks: seq<Task>, n: nat, step: nat, b: nat)
    requires step > 0 && n < |tasks|
    ensures var before, t := Expected(tasks, n, step, b), tasks[n];
            Expected(tasks, n + 1, step, b) ==
              if t.end.Some? && Ceil(t.end.value, step) == b
              then Bin(before.started, before.completed + 1, before.ended + if t.start.Some? then 1 else 0)
              else before
  {
    hide Ceil;
    assert tasks[..n + 1][..n] == tasks[..n];
  }

  /** Counts the starts and the completions of all tasks into their bins. */
  method FillBins(tasks: seq<Task>, step: nat) returns (bins: map<nat, Bin>)
    requires step > 0
    ensures forall mark :: Caught(tasks, mark, step, bins.Keys)
    ensures forall b: nat :: BinOf(bins, b) == Expected(tasks, |tasks|, step, b)
  {
    hide BinOf, Upsert, Ceil, Expected;
    bins := BinStarts(tasks, step);
    for i := 0 to |tasks|
      invariant Caught(tasks, STARTED, step, bins.Keys)
      invariant Caught(tasks[..i], COMPLETED, step, bins.Keys)
      invariant forall b: nat :: BinOf(bins, b) == Expected(tasks, i, step, b)
    {
      var t := tasks[i];
      forall b: nat {
        ExpectedNext(tasks, i, step, b);
      }
      if t.end.Some? {
        bins := Upsert(bins, Ceil(t.end.value, step), Bin(0, 1, if t.start.Some? then 1 else 0));
      }
    }
    assert tasks[..|tasks|] == tasks;
    forall mark ensures Caught(tasks, mark, step, bins.Keys) {
      assert mark.ENDED? ==> Caught(tasks, COMPLETED, step, bins.Keys);
    }
  }

  lemma NoBins()
    ensures forall b :: BinOf(map[], b) == Bin(0, 0, 0)
  {
  }

  // ------------------------------------------------------------------------------ streaming

  ghost predicate CaughtAll(tasks: seq<Task>, step: nat, rows: seq<nat>)
    requires step > 0
  {
    var all := FirstBins(rows, |rows|);
    Caught(tasks, STARTED, step, all) && Caught(tasks, COMPLETED, step, all) && Caught(tasks, ENDED, step, all)
  }

  lemma RowsCatchAll(tasks: seq<Task>, step: nat, rows: seq<nat>, times: set<nat>)
    requires step > 0 && (forall x :: x in rows <==> x in times) && forall mark :: Caught(tasks, mark, step, times)
    ensures CaughtAll(tasks, step, rows)
  {
    hide Caught;
    assert rows[..|rows|] == rows;
    assert FirstBins(rows, |rows|) == times;
  }

  /** The running totals over the bins read so far. */
  ghost function TotalsOver(tasks: seq<Task>, step: nat, bins: set<nat>): Bin
    requires step > 0
  {
    Bin(CountIn(tasks, STARTED, step, bins), CountIn(tasks, COMPLETED, step, bins), CountIn(tasks, ENDED, step, bins))
  }

  ghost function FirstBins(rows: seq<nat>, n: nat): set<nat>
    requires n <= |rows|
  {
    set x | x in rows[..n]
  }

  lemma NextBin(tasks: seq<Task>, step: nat, rows: seq<nat>, n: nat)
    requires step > 0 && Ascending(rows) && n < |rows|
    ensures var before, bin := TotalsOver(tasks, step, FirstBins(rows, n)), Expected(tasks, |tasks|, step, rows[n]);
            TotalsOver(tasks, step, FirstBins(rows, n + 1)) ==
              Bin(before.started + bin.started, before.completed + bin.completed, before.ended + bin.ended)
  {
    hide CountIn;
    assert rows[..n + 1] == rows[..n] + [rows[n]];
    assert FirstBins(rows, n + 1) == FirstBins(rows, n) + {rows[n]};
    assert rows[n] !in FirstBins(rows, n);
    assert tasks[..|tasks|] == tasks;
    CountInMore(tasks, STARTED, step, FirstBins(rows, n), rows[n]);
    CountInMore(tasks, COMPLETED, step, FirstBins(rows, n), rows[n]);
    CountInMore(tasks, ENDED, step, FirstBins(rows, n), rows[n]);
  }

  lemma NoTotals(tasks: seq<Task>, step: nat, rows: seq<nat>)
    requires step > 0
    ensures TotalsOver(tasks, step, FirstBins(rows, 0)) == Bin(0, 0, 0)
  {
    assert FirstBins(rows, 0) == {};
    CountInNone(tasks, STARTED, step);
    CountInNone(tasks, COMPLETED, step);
    CountInNone(tasks, ENDED, step);
  }

  /** At a multiple of the step the totals are the direct counts. */
  lemma TotalsAreCounts(tasks: seq<Task>, step: nat, rows: seq<nat>, n: nat, k: nat)
    requires step > 0 && Ascending(rows) && n <= |rows|
    requires CaughtAll(tasks, step, rows)
    requires (forall i | 0 <= i < n :: rows[i] <= Tick(k, step)) && (n < |rows| ==> rows[n] > Tick(k, step))
    ensures TotalsOver(tasks, step, FirstBins(rows, n))
         == Bin(CountBy(tasks, STARTED, Tick(k, step)), CountBy(tasks, COMPLETED, Tick(k, step)),
                CountBy(tasks, ENDED, Tick(k, step)))
  {
    assert rows[..|rows|] == rows;
    var all, bins := FirstBins(rows, |rows|), FirstBins(rows, n);
    forall x ensures x in bins <==> x in all && x <= Tick(k, step) {
      if x in all && x <= Tick(k, step) {
        var i :| 0 <= i < |rows| && rows[i] == x;
        assert i < n;
        assert rows[..n][i] == x;
      }
    }
    CountInIsCountBy(tasks, STARTED, step, all, bins, k);
    CountInIsCountBy(tasks, COMPLETED, step, all, bins, k);
    CountInIsCountBy(tasks, ENDED, step, all, bins, k);
  }

  /** How many boundaries are shown: every multiple of the step before the end, and the end. */
  function Boundaries(end: nat, step: nat): nat
    requires step > 0
  {
    end / step + if end % step > 0 then 2 else 1
  }

  lemma LastBoundary(end: nat, step: nat, k: nat)
    requires step > 0 && Tick(k, step) >= end && (k > 0 ==> Tick(k - 1, step) < end)
    ensures k + 1 == Boundaries(end, step)
  {
    hide Tick;
    var q := end / step;
    Divide(end, step);
    TickOrder(q, q, step);
    TickOrder(k, k, step);
    if k < q {
      TickOrder(k + 1, q, step);
    } else if k > q {
      TickOrder(q, k - 1, step);
      if k > q + 1 {
        TickOrder(q + 1, k - 1, step);
      }
    }
  }

  /** Reads the bins up to the boundary. */
  method Advance(tasks: seq<Task>, step: nat, rows: seq<nat>, bins: map<nat, Bin>, row: nat, totals: Bin, boundary: nat)
    returns (row': nat, totals': Bin)
    requires step > 0 && Ascending(rows) && row <= |rows| && totals == TotalsOver(tasks, step, FirstBins(rows, row))
    requires forall x :: x in rows <==> x in bins.Keys
    requires forall b: nat :: BinOf(bins, b) == Expected(tasks, |tasks|, step, b)
    ensures row <= row' <= |rows| && totals' == TotalsOver(tasks, step, FirstBins(rows, row'))
    ensures forall i | row <= i < row' :: rows[i] <= boundary
    ensures row' < |rows| ==> rows[row'] > boundary
  {
    hide Expected, TotalsOver, FirstBins;
    row', totals' := row, totals;
    while row' < |rows| && rows[row'] <= boundary
      invariant row <= row' <= |rows| && totals' == TotalsOver(tasks, step, FirstBins(rows, row'))
      invariant forall i | row <= i < row' :: rows[i] <= boundary
    {
      NextBin(tasks, step, rows, row');
      assert rows[row'] in rows;
      var bin := bins[rows[row']];
      assert bin == BinOf(bins, rows[row']);
      totals' := Bin(totals'.started + bin.started, totals'.completed + bin.completed, totals'.ended + bin.ended);
      row' := row' + 1;
    }
  }

  /** The progress at a boundary: the totals, counted anew when the last boundary cuts its bin. */
  method Show(tasks: seq<Task>, step: nat, rows: seq<nat>, row: nat, totals: Bin, ghost k: nat, when: nat, end: nat)
    returns (shown: Progress)
    requires step > 0 && AllSane(tasks) && Ascending(rows) && CaughtAll(tasks, step, rows) && when == Tick(k, step)
    requires row <= |rows| && totals == TotalsOver(tasks, step, FirstBins(rows, row))
    requires k > 0 ==> Tick(k - 1, step) < end
    requires forall i | 0 <= i < row :: rows[i] <= Min(when, end)
    requires row < |rows| ==> rows[row] > Min(when, end)
    ensures shown == ProgressAt(tasks, Min(when, end))
  {
    hide TotalsOver, FirstBins, CountBy, RunningAt, AllSane, Tick, ProgressAt, CaughtAll;
    var boundary, counted := Min(when, end), totals;
    if when >= end && end % step != 0 {
      counted := Bin(CountBy(tasks, STARTED, end), CountBy(tasks, COMPLETED, end), CountBy(tasks, ENDED, end));
    } else {
      WholeStep(end, step, k);
      TotalsAreCounts(tasks, step, rows, row, k);
    }
    AsProgress(tasks, boundary, counted);
    return Progress(boundary, counted.started, counted.completed, counted.started - counted.ended);
  }

  /** Streams the bins once and emits, at every boundary, what direct counting of the tasks gives there. */
  method CompletionBuckets(tasks: seq<Task>, step: nat, end: nat) returns (result: seq<Progress>)
    requires step > 0 && AllSane(tasks)
    ensures |result| == Boundaries(end, step)
    ensures forall i | 0 <= i < |result| :: result[i] == ProgressAt(tasks, Min(Tick(i, step), end))
  {
    hide BinOf, Expected, TotalsOver, FirstBins, Caught, CountBy, RunningAt, Ceil, Boundaries, AllSane, Tick,
      ProgressAt, CaughtAll;
    var bins := FillBins(tasks, step);
    var rows := Sorted(bins.Keys);
    RowsCatchAll(tasks, step, rows, bins.Keys);
    NoTotals(tasks, step, rows);
    var row, totals, when := 0, Bin(0, 0, 0), 0;
    assert Tick(0, step) == 0 by { Divide(0, step); }
    result := [];
    ghost var k := 0;
    while true
      invariant |result| == k && when == Tick(k, step) && row <= |rows| && (k > 0 ==> Tick(k - 1, step) < end)
      invariant totals == TotalsOver(tasks, step, FirstBins(rows, row))
      invariant forall i | 0 <= i < row :: rows[i] <= Min(when, end)
      invariant forall i | 0 <= i < k :: result[i] == ProgressAt(tasks, Min(Tick(i, step), end))
      decreases end + step - when
    {
      var boundary := Min(when, end);
      row, totals := Advance(tasks, step, rows, bins, row, totals, boundary);
      var shown := Show(tasks, step, rows, row, totals, k, when, end);
      result := result + [shown];
      if when >= end {
        LastBoundary(end, step, k);
        break;
      }
      TickOrder(k, k, step);
      when := when + step;
      k := k + 1;
    }
  }

  /** A step that divides the end hits it. */
  lemma WholeStep(end: nat, step: nat, k: nat)
    requires step > 0 && (k > 0 ==> Tick(k - 1, step) < end)
    ensures Tick(k, step) >= end && end % step == 0 ==> Tick(k, step) == end
  {
    hide Tick;
    if Tick(k, step) >= end && end % step == 0 {
      LastBoundary(end, step, k);
      Divide(end, step);
    }
  }

  lemma AsProgress(tasks: seq<Task>, b: nat, totals: Bin)
    requires AllSane(tasks)
    requires totals == Bin(CountBy(tasks, STARTED, b), CountBy(tasks, COMPLETED, b), CountBy(tasks, ENDED, b))
    ensures Progress(b, totals.started, totals.completed, totals.started - totals.ended) == ProgressAt(tasks, b)
  {
    StartedMinusEnded(tasks, b);
  }
}

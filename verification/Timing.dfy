/** What the simulator makes of the emitted rows, and the value of a symbolic gate.
    Phase n here is phase ID start_phase_id + n; every time is a whole number of nanoseconds. */
module Timing {
  import opened Collections

  /** Completion time of every phase. */
  type Times = nat -> nat

  /** One native traffic or TIMER row; `dag` is the DAG task it came from. */
  datatype Row = Row(native: nat, dag: nat, pid: nat, deps: seq<nat>, delay: nat, bytes: nat)

  /** The record the compiler keeps per phase. */
  datatype Phase = Phase(parents: seq<nat>, delay: nat, floor: nat)

  type Graph = seq<Phase>

  /** A symbolic gate: an absolute root and a lag after each phase. */
  datatype Form = Form(root: nat, terms: map<nat, nat>)

  // ------------------------------------------------------------------ executions

  /** The instant at which every phase in `deps` is complete; 0 when there is none. */
  function Ready(deps: seq<nat>, C: Times): (v: nat)
    ensures forall p | p in deps :: C(p) <= v
    ensures v == 0 || exists p | p in deps :: C(p) == v
  {
    if deps == [] then 0
    else
      var rest := Ready(deps[1..], C);
      if C(deps[0]) >= rest then C(deps[0]) else rest
  }

  function Start(r: Row, C: Times): nat {
    Ready(r.deps, C) + r.delay
  }

  /** A phase completes no earlier than any of its rows can start. */
  ghost predicate Legal(rows: seq<Row>, C: Times) {
    forall r | r in rows :: Start(r, C) <= C(r.pid)
  }

  /** The same said of a whole run: row i starts at `start(i)` and its network time ends at `finish(i)`. */
  ghost predicate LegalRun(rows: seq<Row>, C: Times, start: nat -> nat, finish: nat -> nat) {
    forall i | 0 <= i < |rows| ::
      Start(rows[i], C) <= start(i) && start(i) <= finish(i) && finish(i) <= C(rows[i].pid)
  }

  /** Network times are arbitrary, so exactly the legal completion times have a run. */
  lemma LegalTimesAreRuns(rows: seq<Row>, C: Times)
    ensures Legal(rows, C) <==> exists start: nat -> nat, finish: nat -> nat :: LegalRun(rows, C, start, finish)
  {
    if Legal(rows, C) {
      var earliest := (i: nat) => if i < |rows| then Start(rows[i], C) else 0;
      assert LegalRun(rows, C, earliest, earliest);
    }
    if exists start: nat -> nat, finish: nat -> nat :: LegalRun(rows, C, start, finish) {
      var start: nat -> nat, finish: nat -> nat :| LegalRun(rows, C, start, finish);
      forall r | r in rows ensures Start(r, C) <= C(r.pid) {
        var i :| 0 <= i < |rows| && rows[i] == r;
        assert start(i) <= finish(i);
      }
    }
  }

  // ---------------------------------------------------------------- phase records

  ghost predicate Below(deps: seq<nat>, p: nat) {
    forall i | 0 <= i < |deps| :: deps[i] < p
  }

  ghost predicate Topological(g: Graph) {
    forall q | 0 <= q < |g| :: Ascending(g[q].parents) && Below(g[q].parents, q)
  }

  /** The completion times respect what the records claim. */
  ghost predicate Consistent(g: Graph, C: Times) {
    forall q | 0 <= q < |g| ::
      g[q].floor <= C(q) && forall p | p in g[q].parents :: C(p) + g[q].delay <= C(q)
  }

  // -------------------------------------------------------------------- gate values

  ghost predicate Bounds(f: Form, C: Times, x: int) {
    f.root <= x && forall p | p in f.terms :: C(p) + f.terms[p] <= x
  }

  /** The value of a gate: the least instant not before its root or any lagged completion. */
  ghost function Eval(f: Form, C: Times): (v: nat)
    ensures forall x :: Bounds(f, C, x) <==> v <= x
    decreases |f.terms|
  {
    if f.terms == map[] then f.root
    else
      var p :| p in f.terms;
      var rest := Eval(Form(f.root, f.terms - {p}), C);
      assert forall x :: Bounds(f, C, x) <==> C(p) + f.terms[p] <= x && Bounds(Form(f.root, f.terms - {p}), C, x);
      Max(C(p) + f.terms[p], rest)
  }

  /** Two gates with the same upper bounds have the same value. */
  lemma SameBounds(f: Form, f': Form, C: Times)
    requires forall x :: Bounds(f, C, x) <==> Bounds(f', C, x)
    ensures Eval(f, C) == Eval(f', C)
  {
    assert Bounds(f, C, Eval(f, C)) && Bounds(f', C, Eval(f', C));
  }

  /** With `timed` off only the AND of the phases is left: no root, no lag. */
  function View(f: Form, timed: bool): Form {
    if timed then f else Form(0, map p | p in f.terms :: 0)
  }

  /** A local duration added to the root and to every lag. */
  function Shift(f: Form, d: nat): Form {
    Form(f.root + d, map p | p in f.terms :: f.terms[p] + d)
  }

  /** `max` of two gates, term by term. */
  function Merge(f: Form, f': Form): Form {
    Form(Max(f.root, f'.root),
         map p | p in f.terms.Keys + f'.terms.Keys ::
           if p !in f.terms then f'.terms[p]
           else if p !in f'.terms then f.terms[p]
           else Max(f.terms[p], f'.terms[p]))
  }

  lemma ShiftEval(f: Form, d: nat, C: Times)
    ensures Eval(Shift(f, d), C) == Eval(f, C) + d
    ensures Eval(View(Shift(f, d), false), C) == Eval(View(f, false), C)
  {
    var s := Shift(f, d);
    forall x ensures Bounds(s, C, x) <==> Bounds(f, C, x - d) {
      if Bounds(s, C, x) {
        forall p | p in f.terms ensures C(p) + f.terms[p] <= x - d {
          assert p in s.terms;
        }
      }
    }
    assert Bounds(s, C, Eval(s, C)) && Bounds(f, C, Eval(s, C) - d);
    assert Bounds(f, C, Eval(f, C)) && Bounds(s, C, Eval(f, C) + d);
    assert View(s, false) == View(f, false);
  }

  lemma MergeEval(f: Form, f': Form, timed: bool, C: Times)
    ensures Eval(View(Merge(f, f'), timed), C) == Max(Eval(View(f, timed), C), Eval(View(f', timed), C))
  {
    var m, a, b := View(Merge(f, f'), timed), View(f, timed), View(f', timed);
    forall x ensures Bounds(m, C, x) <==> Bounds(a, C, x) && Bounds(b, C, x) {
      if Bounds(m, C, x) {
        forall p | p in a.terms ensures C(p) + a.terms[p] <= x { assert p in m.terms; }
        forall p | p in b.terms ensures C(p) + b.terms[p] <= x { assert p in m.terms; }
      }
    }
    assert Bounds(m, C, Eval(m, C)) && Bounds(a, C, Eval(a, C)) && Bounds(b, C, Eval(b, C));
    var top := Max(Eval(a, C), Eval(b, C));
    assert Bounds(a, C, top) && Bounds(b, C, top) && Bounds(m, C, top);
    assert Bounds(a, C, Eval(m, C)) && Bounds(b, C, Eval(m, C));
  }

  /** Readiness is the value of the unlagged gate over the same phases. */
  lemma ReadyIsEval(deps: seq<nat>, f: Form, C: Times)
    requires forall p :: p in deps <==> p in f.terms
    ensures Ready(deps, C) == Eval(View(f, false), C)
  {
    var v := View(f, false);
    assert Bounds(v, C, Ready(deps, C));
    assert Bounds(v, C, Eval(v, C));
    if Ready(deps, C) != 0 {
      var p :| p in deps && C(p) == Ready(deps, C);
      assert p in v.terms;
    }
  }

  // ------------------------------------------------------------------------ progress

  ghost predicate HasRow(rows: seq<Row>, p: nat) {
    exists i :: 0 <= i < |rows| && rows[i].pid == p
  }

  /** Every row depends on earlier phases only, and every phase up to `n` has a row. */
  ghost predicate WellFounded(rows: seq<Row>, n: nat) {
    && (forall r | r in rows :: r.pid < n && Below(r.deps, r.pid))
    && (forall p: nat | p < n :: HasRow(rows, p))
  }

  /** The schedule in which row i starts at once and takes `net(i)` on the network: when phase p ends,
      counting only the first k rows as members. */
  ghost function EndBy(rows: seq<Row>, n: nat, net: nat -> nat, p: nat, k: nat): nat
    requires WellFounded(rows, n) && k <= |rows|
    decreases p, k
  {
    if k == 0 then 0
    else
      var r := rows[k - 1];
      var before := EndBy(rows, n, net, p, k - 1);
      if r.pid == p then
        assert r in rows;
        Max(before, LastDep(rows, n, net, p, r.deps) + r.delay + net(k - 1))
      else before
  }

  ghost function LastDep(rows: seq<Row>, n: nat, net: nat -> nat, p: nat, deps: seq<nat>): nat
    requires WellFounded(rows, n) && Below(deps, p)
    decreases p, 0, |deps|
  {
    if deps == [] then 0
    else Max(EndBy(rows, n, net, deps[0], |rows|), LastDep(rows, n, net, p, deps[1..]))
  }

  ghost function Schedule(rows: seq<Row>, n: nat, net: nat -> nat): Times
    requires WellFounded(rows, n)
  {
    (p: nat) => EndBy(rows, n, net, p, |rows|)
  }

  lemma {:induction false} LastDepIsReady(rows: seq<Row>, n: nat, net: nat -> nat, p: nat, deps: seq<nat>)
    requires WellFounded(rows, n) && Below(deps, p)
    ensures LastDep(rows, n, net, p, deps) == Ready(deps, Schedule(rows, n, net))
  {
    if deps != [] {
      LastDepIsReady(rows, n, net, p, deps[1..]);
    }
  }

  lemma EndByStep(rows: seq<Row>, n: nat, net: nat -> nat, p: nat, k: nat, C: Times)
    requires WellFounded(rows, n) && 0 < k <= |rows| && C == Schedule(rows, n, net)
    ensures rows[k - 1].pid != p ==> EndBy(rows, n, net, p, k) == EndBy(rows, n, net, p, k - 1)
    ensures rows[k - 1].pid == p ==>
              EndBy(rows, n, net, p, k) == Max(EndBy(rows, n, net, p, k - 1), Start(rows[k - 1], C) + net(k - 1))
  {
    var r := rows[k - 1];
    assert r in rows;
    if r.pid == p {
      LastDepIsReady(rows, n, net, p, r.deps);
    }
  }

  lemma {:induction false} EndByCovers(rows: seq<Row>, n: nat, net: nat -> nat, p: nat, k: nat, i: nat, C: Times)
    requires WellFounded(rows, n) && i < k <= |rows| && rows[i].pid == p && C == Schedule(rows, n, net)
    ensures EndBy(rows, n, net, p, k) >= Start(rows[i], C) + net(i)
    decreases k
  {
    EndByStep(rows, n, net, p, k, C);
    if i < k - 1 {
      EndByCovers(rows, n, net, p, k - 1, i, C);
    }
  }

  /** Row i is a member of phase p whose network time ends at `v`. */
  ghost predicate EndsAt(rows: seq<Row>, C: Times, net: nat -> nat, p: nat, i: nat, v: nat) {
    i < |rows| && rows[i].pid == p && v == Start(rows[i], C) + net(i)
  }

  /** Some member of phase p ends its network time at `v`. */
  ghost predicate Attained(rows: seq<Row>, C: Times, net: nat -> nat, p: nat, v: nat) {
    exists i: nat :: EndsAt(rows, C, net, p, i, v)
  }

  lemma {:induction false} EndByAttained(rows: seq<Row>, n: nat, net: nat -> nat, p: nat, k: nat, C: Times)
    requires WellFounded(rows, n) && k <= |rows| && C == Schedule(rows, n, net)
    requires exists j :: 0 <= j < k && rows[j].pid == p
    ensures Attained(rows, C, net, p, EndBy(rows, n, net, p, k))
  {
    hide EndBy, Start, WellFounded, Schedule;
    EndByStep(rows, n, net, p, k, C);
    var own := Start(rows[k - 1], C) + net(k - 1);
    var before := EndBy(rows, n, net, p, k - 1);
    if rows[k - 1].pid == p && before <= own {
      assert EndsAt(rows, C, net, p, k - 1, own);
    } else {
      EndByZero(rows, n, net, p, k - 1);
      EndByAttained(rows, n, net, p, k - 1, C);
    }
  }

  lemma {:induction false} EndByZero(rows: seq<Row>, n: nat, net: nat -> nat, p: nat, k: nat)
    requires WellFounded(rows, n) && k <= |rows|
    ensures (forall j | 0 <= j < k :: rows[j].pid != p) ==> EndBy(rows, n, net, p, k) == 0
  {
    if k > 0 {
      EndByZero(rows, n, net, p, k - 1);
    }
  }

  /** Progress: whatever the network times, every row runs, nothing deadlocks, and each phase completes
      exactly when the last of its rows does. */
  lemma EveryPhaseCompletes(rows: seq<Row>, n: nat, net: nat -> nat) returns (C: Times)
    requires WellFounded(rows, n)
    ensures Legal(rows, C)
    ensures forall i: nat | i < |rows| :: Start(rows[i], C) + net(i) <= C(rows[i].pid)
    ensures forall p: nat | p < n :: Attained(rows, C, net, p, C(p))
  {
    C := Schedule(rows, n, net);
    forall i: nat | i < |rows| ensures Start(rows[i], C) + net(i) <= C(rows[i].pid) {
      EndByCovers(rows, n, net, rows[i].pid, |rows|, i, C);
    }
    forall p: nat | p < n ensures Attained(rows, C, net, p, C(p)) {
      assert HasRow(rows, p);
      EndByAttained(rows, n, net, p, |rows|, C);
      assert C(p) == EndBy(rows, n, net, p, |rows|);
    }
  }
}

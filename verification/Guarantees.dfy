/** What the invariant means for the finished output, in every execution. */
module Guarantees {
  import opened Collections
  import opened Timing
  import opened Dominance
  import opened Dag
  import opened States
  import opened Tickets
  import opened TaskTables
  import opened GroupTables
  import opened Grouping
  import opened Chunking
  import opened Tops
  import opened Compilers
  import opened Expanders

  /** Sealing safety: once some row consumed a stored form, no phase in it and no ancestor of such a phase ever
      again gains a member, parent, delay or floor, however the compilation goes on. */
  lemma ConsumedNeverGrows(s: State, s': State, slots: map<nat, Slot>, groups: map<Key, Group>, last: int,
                           t: nat, i: nat, c: Chain)
    requires Good(s) && Kempt(s, slots, groups, last, true, true) && Frozen(s, s')
    requires t in s.dag && i < |s.dag[t].deps| && InGraph(s.g, c)
    requires s.dag[t].deps[i] in s.forms && Source(c) in s.forms[s.dag[t].deps[i]].terms
    ensures End(c) < |s.g| && s'.g[End(c)] == s.g[End(c)]
    ensures forall j | |s.rows| <= j < |s'.rows| :: s'.rows[j].pid != End(c)
  {
    assert Consumed(s, s.dag[t].deps);
    AncestorsFrozen(s, s', c);
  }

  // ------------------------------------------------------- rows against their own task

  /** A task is complete only when each of its rows is: a row ends by the completion of its phase, and its phase is
      one of the task's. */
  lemma RowsWithinTask(s: State, r: Row, C: Times, timed: bool)
    requires Good(s) && r in s.rows && Legal(s.rows, C)
    ensures Start(r, C) <= C(r.pid) <= Done(s.dag, r.dag, C, timed)
  {
    assert Home(s.dag[r.dag], r.pid);
  }

  lemma OnePhaseDone(dag: Tasks, t: nat, pid: nat, C: Times, timed: bool)
    requires Closed(dag) && t in dag && dag[t].kind == Barrier([pid])
    ensures Done(dag, t, C, timed) == C(pid)
  {
    var pids := dag[t].kind.pids;
    assert pids == [pid] && pids[0] in pids;
  }

  /** The last completion of some phases is attained by one of them. */
  lemma ReadyIsLast(joined: seq<nat>, C: Times)
    requires joined != []
    ensures forall i | 0 <= i < |joined| :: C(joined[i]) <= Ready(Sorted(Phases(joined)), C)
    ensures exists i :: 0 <= i < |joined| && C(joined[i]) == Ready(Sorted(Phases(joined)), C)
  {
    var pids := Sorted(Phases(joined));
    assert forall p :: p in pids <==> p in joined;
    assert joined[0] in pids;
    var p: nat :| p in pids && C(p) == Ready(pids, C);
    var i :| 0 <= i < |joined| && joined[i] == p;
  }

  /** The last of the `n` tasks from `first` to complete: none completes after `last`, and one completes then. */
  ghost predicate LastRank(s: State, first: nat, n: nat, C: Times, timed: bool, last: nat) {
    && Closed(s.dag) && (forall t: nat | first <= t < first + n :: t in s.dag)
    && (forall t: nat | first <= t < first + n :: Done(s.dag, t, C, timed) <= last)
    && exists t: nat :: first <= t < first + n && Done(s.dag, t, C, timed) == last
  }

  /** What one of the converted ranks is: a task with one phase and the bytes of its member. */
  lemma RankIs(x: Expander, s: State, row: Logical, deps: seq<nat>, first: nat, joined: seq<nat>, i: nat)
    requires x.RanksDone(s, row, deps, first, joined) && i < |joined| && row.task.class_.NETWORK?
    ensures first + i in s.dag && s.dag[first + i].kind == Barrier([joined[i]])
    ensures PayloadOf(s.rows, first + i) == ScaledAll(Chunks(row.members[i].bytes), x.compiler.divisor)
  {
    hide Compiler.Matches, PayloadOf, ScaledAll, Chunks;
    assert x.RankDone(s, row, deps, first + i, row.members[i].bytes, joined[i]);
  }

  lemma RankDoneAt(x: Expander, s: State, row: Logical, deps: seq<nat>, first: nat, joined: seq<nat>, i: nat, C: Times,
                   timed: bool)
    requires Shape(s) && x.RanksDone(s, row, deps, first, joined) && i < |joined| && row.task.class_.NETWORK?
    ensures first + i in s.dag && Done(s.dag, first + i, C, timed) == C(joined[i])
  {
    hide Expander.RanksDone, PayloadOf;
    RankIs(x, s, row, deps, first, joined, i);
    OnePhaseDone(s.dag, first + i, joined[i], C, timed);
  }

  lemma LastOfRanks(x: Expander, s: State, row: Logical, deps: seq<nat>, first: nat, joined: seq<nat>, C: Times,
                    timed: bool)
    requires Shape(s) && x.RanksDone(s, row, deps, first, joined) && row.task.class_.NETWORK? && joined != []
    ensures LastRank(s, first, |joined|, C, timed, Ready(Sorted(Phases(joined)), C))
  {
    hide Ready, Phases, Sorted, Expander.RanksDone, Done, LastRank, WellFounded, Topological;
    forall i: nat | i < |joined| ensures DoneAt(s, first + i, C, timed, C(joined[i])) {
      RankDoneAt(x, s, row, deps, first, joined, i, C, timed);
    }
    ReadyIsLast(joined, C);
    LastAmong(s, first, joined, C, timed, Ready(Sorted(Phases(joined)), C));
  }

  ghost predicate DoneAt(s: State, t: nat, C: Times, timed: bool, time: nat)
    requires Closed(s.dag)
  {
    t in s.dag && Done(s.dag, t, C, timed) == time
  }

  lemma LastAmong(s: State, first: nat, joined: seq<nat>, C: Times, timed: bool, last: nat)
    requires Closed(s.dag) && forall i | 0 <= i < |joined| :: C(joined[i]) <= last
    requires forall i: nat | i < |joined| :: DoneAt(s, first + i, C, timed, C(joined[i]))
    requires exists i :: 0 <= i < |joined| && C(joined[i]) == last
    ensures LastRank(s, first, |joined|, C, timed, last)
  {
    hide Done;
    forall t: nat | first <= t < first + |joined|
      ensures t in s.dag && Done(s.dag, t, C, timed) == C(joined[t - first])
    {
      var i: nat := t - first;
      assert DoneAt(s, first + i, C, timed, C(joined[i]));
    }
    var i: nat :| 0 <= i < |joined| && C(joined[i]) == last;
    assert DoneAt(s, first + i, C, timed, C(joined[i]));
  }

  /** Where the ranks of a compiled network row are, and the form stored in their place. */
  lemma RanksOf(x: Expander, s: State, aliases: map<nat, nat>, row: Logical) returns (first: nat, joined: seq<nat>)
    requires x.RowCompiled(s, aliases, row) && row.task.class_.NETWORK?
    ensures x.Compiled(s, row, x.Resolved(aliases, row.task.deps), first, joined, aliases[row.task.id])
    ensures x.RanksDone(s, row, x.Resolved(aliases, row.task.deps), first, joined)
    ensures row.task.id in aliases && |joined| == |row.members| && joined != []
    ensures MemberBytes(row.members) == row.task.bytes
    ensures var alias := aliases[row.task.id];
      alias in s.forms && alias in s.dag && s.dag[alias].kind == Barrier(Sorted(Phases(joined)))
  {
    hide Expander.RanksDone, Compiler.Converted;
    first, joined :| x.Compiled(s, row, x.Resolved(aliases, row.task.deps), first, joined, aliases[row.task.id]);
  }

  /** Tensor-parallel refinement: in every legal execution of the finished output, the stored form that later tasks
      see in place of a logical network task has the value of the last of its ranks. */
  lemma AliasIsLatestRank(x: Expander, s: State, aliases: map<nat, nat>, row: Logical, C: Times, timed: bool)
    returns (first: nat, joined: seq<nat>)
    requires Good(s) && x.RowCompiled(s, aliases, row) && row.task.class_.NETWORK? && Legal(s.rows, C)
    ensures x.Compiled(s, row, x.Resolved(aliases, row.task.deps), first, joined, aliases[row.task.id])
    ensures aliases[row.task.id] in s.forms
    ensures LastRank(s, first, |row.members|, C, timed, Eval(View(s.forms[aliases[row.task.id]], timed), C))
  {
    hide Expander.RanksDone, Expander.Compiled, Expander.RowCompiled, LastRank, Ready, Phases;
    first, joined := RanksOf(x, s, aliases, row);
    LastOfRanks(x, s, row, x.Resolved(aliases, row.task.deps), first, joined, C, timed);
    assert Done(s.dag, aliases[row.task.id], C, timed) == Ready(Sorted(Phases(joined)), C);
  }

  /** The bytes of the rows of `n` tasks from `first`, in order. */
  function RanksPayload(rows: seq<Row>, first: nat, n: nat): seq<nat> {
    if n == 0 then [] else RanksPayload(rows, first, n - 1) + PayloadOf(rows, first + n - 1)
  }

  lemma {:induction false} RanksPayloadIs(x: Expander, s: State, row: Logical, deps: seq<nat>, first: nat,
                                          joined: seq<nat>, n: nat)
    requires x.RanksDone(s, row, deps, first, joined) && n <= |joined| <= |row.members| && row.task.class_.NETWORK?
    ensures RanksPayload(s.rows, first, n) == MemberPayload(row.members[..n], x.compiler.divisor)
  {
    hide Expander.RanksDone, PayloadOf, ScaledAll, Chunks;
    if n > 0 {
      RanksPayloadIs(x, s, row, deps, first, joined, n - 1);
      assert row.members[..n][..n - 1] == row.members[..n - 1];
      RankIs(x, s, row, deps, first, joined, n - 1);
    }
  }

  /** Byte conservation over a whole run: in the finished output the rows of a logical network task's ranks carry
      its bytes, whatever was compiled after it. */
  lemma RunConserves(x: Expander, s: State, aliases: map<nat, nat>, row: Logical) returns (first: nat, joined: seq<nat>)
    requires x.RowCompiled(s, aliases, row) && row.task.class_.NETWORK?
    ensures x.Compiled(s, row, x.Resolved(aliases, row.task.deps), first, joined, aliases[row.task.id])
    ensures var sizes := RanksPayload(s.rows, first, |row.members|);
      Carries(row.task.bytes, Sum(sizes), |sizes|, x.compiler.divisor)
  {
    hide Expander.RanksDone, Expander.Compiled, Expander.RowCompiled, Carries, MemberPayload, RanksPayload, Sum;
    first, joined := RanksOf(x, s, aliases, row);
    RanksPayloadIs(x, s, row, x.Resolved(aliases, row.task.deps), first, joined, |joined|);
    assert row.members[..|joined|] == row.members;
    PayloadConserved(row.members, x.compiler.divisor);
  }

  // ------------------------------------------------------ rows against their predecessors

  /** Task t is complete only after task u: they are the same, or t is folded and one of its dependencies is. */
  ghost predicate Waits(dag: Tasks, t: nat, u: nat)
    requires Closed(dag) && t in dag
    decreases t
  {
    u == t || (dag[t].kind.Folded? && exists i :: 0 <= i < |dag[t].deps| && Waits(dag, dag[t].deps[i], u))
  }

  lemma FrontsLater(dag: Tasks, t: nat, deps: seq<nat>, C: Times)
    requires Closed(dag) && Known(dag, t, deps)
    ensures Fronts(dag, t, deps, C, false) <= Fronts(dag, t, deps, C, true)
  {
  }

  /** Releases, durations and lags only delay. */
  lemma {:induction false} TimedLater(dag: Tasks, t: nat, C: Times)
    requires Closed(dag) && t in dag
    ensures Done(dag, t, C, false) <= Done(dag, t, C, true)
    decreases t, 1
  {
    FrontsLater(dag, t, dag[t].deps, C);
    if dag[t].kind.Folded? {
      GateLater(dag, t, dag[t].deps, dag[t].release, C);
    }
  }

  lemma {:induction false} GateLater(dag: Tasks, t: nat, deps: seq<nat>, release: nat, C: Times)
    requires Closed(dag) && Known(dag, t, deps)
    ensures Gate(dag, t, deps, release, C, false) <= Gate(dag, t, deps, release, C, true)
    decreases t, 0, |deps|
  {
    if deps != [] {
      GateLater(dag, t, deps[..|deps| - 1], release, C);
      TimedLater(dag, deps[|deps| - 1], C);
    }
  }

  lemma {:induction false} WaitsFor(dag: Tasks, t: nat, u: nat, C: Times)
    requires Closed(dag) && t in dag && Waits(dag, t, u)
    ensures u in dag && Done(dag, u, C, false) <= Done(dag, t, C, false)
    decreases t
  {
    if u != t {
      var i :| 0 <= i < |dag[t].deps| && Waits(dag, dag[t].deps[i], u);
      WaitsFor(dag, dag[t].deps[i], u, C);
      DepsWithin(dag, t, dag[t].deps, dag[t].release, C, false);
    }
  }

  /** Dependency safety: under every rule that waits for all predecessors, a row starts only after every row of every
      dependency has ended, however much folded local work lies between them. */
  lemma DependenciesFirst(s: State, r: Row, q: Row, i: nat, C: Times)
    requires Good(s) && Legal(s.rows, C) && r in s.rows && q in s.rows
    requires i < |s.dag[r.dag].deps| && Waits(s.dag, s.dag[r.dag].deps[i], q.dag)
    requires !s.dag[r.dag].rule.NotBeforeRelease? && !s.dag[r.dag].rule.AtFrontier?
    ensures C(q.pid) <= Start(r, C)
  {
    var n := s.dag[r.dag];
    RowsWithinTask(s, q, C, false);
    WaitsFor(s.dag, n.deps[i], q.dag, C);
    assert Promise(s.dag, r, C);
    DepsWithin(s.dag, r.dag, n.deps, 0, C, false);
    DepsWithin(s.dag, r.dag, n.deps, n.release, C, true);
    TimedLater(s.dag, n.deps[i], C);
  }

  // --------------------------------------------------------- rows that wait for one phase

  /** Task t transitively depends on the rows of u. */
  ghost predicate Reaches(dag: Tasks, t: nat, u: nat)
    requires Closed(dag) && t in dag
    decreases t
  {
    if dag[t].kind.Barrier? then u == t
    else exists i :: 0 <= i < |dag[t].deps| && Reaches(dag, dag[t].deps[i], u)
  }

  /** `p` is the largest phase of all rows that task t transitively depends on. */
  ghost predicate LargestReached(dag: Tasks, t: nat, top: Top)
    requires Closed(dag) && t in dag
  {
    && (forall u: nat, p: nat | Reaches(dag, t, u) && u in dag && Home(dag[u], p) :: top.Some? && p <= top.value.0)
    && (top.Some? ==> exists u :: Reaches(dag, t, u) && u in dag && Home(dag[u], top.value.0))
  }

  /** The largest phase that a task's form keeps is the largest one among all its predecessors' rows. */
  lemma {:induction false} TopIsLargest(dag: Tasks, t: nat)
    requires Closed(dag) && t in dag
    ensures LargestReached(dag, t, TopPhase(dag, t))
    decreases t, 1
  {
    var n := dag[t];
    if n.kind.Barrier? {
      if n.kind.pids != [] {
        assert n.kind.pids[0] in Phases(n.kind.pids);
        assert Reaches(dag, t, t) && Home(dag[t], Largest(Phases(n.kind.pids)));
        assert forall p: nat | Home(dag[t], p) :: p in Phases(n.kind.pids);
      }
    } else {
      GateTopIsLargest(dag, t, n.deps);
      var top := GateTop(dag, t, n.deps);
      if top.Some? {
        var u, i :| 0 <= i < |n.deps| && Reaches(dag, n.deps[i], u) && u in dag && Home(dag[u], top.value.0);
        assert Reaches(dag, t, u);
      }
    }
  }

  ghost predicate LargestOfAll(dag: Tasks, t: nat, deps: seq<nat>, top: Top)
    requires Closed(dag) && Known(dag, t, deps)
  {
    && (forall i: nat, u: nat, p: nat | 0 <= i < |deps| && Reaches(dag, deps[i], u) && u in dag && Home(dag[u], p) ::
          top.Some? && p <= top.value.0)
    && (top.Some? ==>
          exists i, u :: 0 <= i < |deps| && Reaches(dag, deps[i], u) && u in dag && Home(dag[u], top.value.0))
  }

  lemma {:induction false} GateTopIsLargest(dag: Tasks, t: nat, deps: seq<nat>)
    requires Closed(dag) && Known(dag, t, deps)
    ensures LargestOfAll(dag, t, deps, GateTop(dag, t, deps))
    decreases t, 0, |deps|
  {
    if deps != [] {
      var last := |deps| - 1;
      GateTopIsLargest(dag, t, deps[..last]);
      TopIsLargest(dag, deps[last]);
      var top := GateTop(dag, t, deps);
      forall i: nat, u: nat, p: nat | 0 <= i < |deps| && Reaches(dag, deps[i], u) && u in dag && Home(dag[u], p)
        ensures top.Some? && p <= top.value.0
      {
        assert i < last ==> deps[..last][i] == deps[i];
      }
      if top.Some? {
        var own := TopPhase(dag, deps[last]);
        if own.Some? && own.value.0 == top.value.0 {
          var u :| Reaches(dag, deps[last], u) && u in dag && Home(dag[u], top.value.0);
          assert Reaches(dag, deps[last], u);
        } else {
          var i, u :| 0 <= i < last && Reaches(dag, deps[..last][i], u) && u in dag && Home(dag[u], top.value.0);
          assert deps[..last][i] == deps[i];
        }
      }
    }
  }

  /** Waiting for the largest phase alone is never more than waiting for everything. */
  lemma {:induction false} TopWithinDone(dag: Tasks, t: nat, C: Times, timed: bool)
    requires Closed(dag) && t in dag
    ensures Reached(TopPhase(dag, t), C, timed) <= Done(dag, t, C, timed)
    decreases t, 1
  {
    var n := dag[t];
    match n.kind
    case Barrier(pids) =>
      if pids != [] {
        assert pids[0] in Phases(pids);
        assert C(Largest(Phases(pids))) <= Ready(pids, C);
      }
    case Folded => TopWithinGate(dag, t, n.deps, n.release, C, timed);
    case Begin => TopWithinFronts(dag, t, n.deps, C, timed);
    case Compact(_) =>
  }

  lemma {:induction false} TopWithinGate(dag: Tasks, t: nat, deps: seq<nat>, release: nat, C: Times, timed: bool)
    requires Closed(dag) && Known(dag, t, deps)
    ensures Reached(GateTop(dag, t, deps), C, timed) <= Gate(dag, t, deps, release, C, timed)
    decreases t, 0, |deps|
  {
    if deps != [] {
      TopWithinGate(dag, t, deps[..|deps| - 1], release, C, timed);
      TopWithinDone(dag, deps[|deps| - 1], C, timed);
    }
  }

  lemma {:induction false} TopWithinFronts(dag: Tasks, t: nat, deps: seq<nat>, C: Times, timed: bool)
    requires Closed(dag) && Known(dag, t, deps)
    ensures Reached(GateTop(dag, t, deps), C, timed) <= Fronts(dag, t, deps, C, timed)
    decreases |deps|
  {
    if deps != [] {
      TopWithinFronts(dag, t, deps[..|deps| - 1], C, timed);
    }
  }

  lemma {:induction false} FrontsWithinGate(dag: Tasks, t: nat, deps: seq<nat>, C: Times, timed: bool)
    requires Closed(dag) && Known(dag, t, deps)
    ensures Fronts(dag, t, deps, C, timed) <= Gate(dag, t, deps, 0, C, timed)
    decreases |deps|
  {
    if deps != [] {
      FrontsWithinGate(dag, t, deps[..|deps| - 1], C, timed);
      TopWithinDone(dag, deps[|deps| - 1], C, timed);
    }
  }

  /** A Decode input Read starts when the largest phase of all rows it transitively depends on is complete, after its
      own latency, so never after all of them; a max-phase row not before that phase and its lag. Neither writes
      another dependency. */
  lemma FrontierIsLargest(s: State, r: Row, C: Times) returns (p: nat)
    requires Good(s) && Legal(s.rows, C) && r in s.rows
    requires s.dag[r.dag].rule.AtFrontier? || (s.dag[r.dag].rule.NotBeforeRelease? && r.deps != [])
    ensures r.deps == [p] && C(p) + s.dag[r.dag].local <= Start(r, C)
    ensures s.dag[r.dag].rule.AtFrontier? ==> Start(r, C) == C(p) + s.dag[r.dag].local
    ensures s.dag[r.dag].rule.AtFrontier? ==>
              Start(r, C) <= Gate(s.dag, r.dag, s.dag[r.dag].deps, 0, C, false) + s.dag[r.dag].local
    ensures exists lag: nat :: LargestOfAll(s.dag, r.dag, s.dag[r.dag].deps, Some((p, lag)))
  {
    assert Promise(s.dag, r, C);
    var top := GateTop(s.dag, r.dag, s.dag[r.dag].deps);
    p := top.value.0;
    GateTopIsLargest(s.dag, r.dag, s.dag[r.dag].deps);
    TopWithinGate(s.dag, r.dag, s.dag[r.dag].deps, 0, C, false);
    assert top == Some((p, top.value.1));
  }

  /** A batch begin is complete its own duration after the largest phase of each of its dependencies, with its lag:
      never before any of these, and never after everything. */
  lemma BeginWaits(dag: Tasks, t: nat, i: nat, C: Times)
    requires Closed(dag) && t in dag && dag[t].kind.Begin? && i < |dag[t].deps|
    ensures Reached(TopPhase(dag, dag[t].deps[i]), C, true) + dag[t].local <= Done(dag, t, C, true)
    ensures Done(dag, t, C, true) <= Gate(dag, t, dag[t].deps, 0, C, true) + dag[t].local
    ensures LargestReached(dag, dag[t].deps[i], TopPhase(dag, dag[t].deps[i]))
  {
    FrontsCover(dag, t, dag[t].deps, i, C);
    FrontsWithinGate(dag, t, dag[t].deps, C, true);
    TopIsLargest(dag, dag[t].deps[i]);
  }

  lemma {:induction false} FrontsCover(dag: Tasks, t: nat, deps: seq<nat>, i: nat, C: Times)
    requires Closed(dag) && Known(dag, t, deps) && i < |deps|
    ensures Reached(TopPhase(dag, deps[i]), C, true) <= Fronts(dag, t, deps, C, true)
    decreases |deps|
  {
    var last := |deps| - 1;
    if i < last {
      FrontsCover(dag, t, deps[..last], i, C);
    }
  }

  /** The stored forms of some dependencies, merged, have the value of the gate over them. */
  lemma {:induction false} MergedIsGate(s: State, t: nat, deps: seq<nat>, release: nat, C: Times, timed: bool)
    requires Good(s) && Legal(s.rows, C) && Known(s.dag, t, deps) && AllIn(deps, s.forms)
    ensures var m := Merged(s.forms, deps, release, false);
      InRange(s.g, m.terms) && release <= m.root && Eval(View(m, timed), C) == Gate(s.dag, t, deps, release, C, timed)
    decreases |deps|
  {
    hide Merge, Eval, Sound, IdleForms, Promises, TopForms, Legal, View;
    if deps == [] {
      EvalNothing(release, timed, C);
    } else {
      var last := |deps| - 1;
      var m, f := Merged(s.forms, deps[..last], release, false), s.forms[deps[last]];
      MergedIsGate(s, t, deps[..last], release, C, timed);
      MergeEval(m, f, timed, C);
      MergeRange(s.g, m, f);
    }
  }

  lemma MergeRange(g: Graph, m: Form, f: Form)
    requires InRange(g, m.terms) && InRange(g, f.terms)
    ensures InRange(g, Merge(m, f).terms) && m.root <= Merge(m, f).root
  {
  }

  /** The largest phase alone, its root gone if a known floor enforces it: between the root and the whole gate. */
  lemma CompactedBetween(g: Graph, m: Form, C: Times)
    requires InRange(g, m.terms) && Consistent(g, C)
    ensures m.root <= Eval(RootlessMax(g, Compacted(m)), C) <= Eval(m, C)
  {
    var f := RootlessMax(g, Compacted(m));
    var v, w := Eval(f, C), Eval(m, C);
    assert Bounds(f, C, v) && Bounds(m, C, w);
    assert Bounds(f, C, w);
    if f.root != m.root {
      var p := Largest(Compacted(m).terms.Keys);
      assert p in f.terms && g[p].floor <= C(p);
    }
  }

  /** An eagerly compacted task keeps its release and its duration, and is never complete later than with all its
      dependencies. */
  lemma CompactWaits(s: State, t: nat, C: Times)
    requires Good(s) && Derived(s) && Legal(s.rows, C) && t in s.forms && s.dag[t].kind.Compact?
    ensures var n := s.dag[t];
      n.release + n.local <= Done(s.dag, t, C, true) <= Gate(s.dag, t, n.deps, n.release, C, true) + n.local
    ensures Reached(TopPhase(s.dag, t), C, true) <= Done(s.dag, t, C, true)
    ensures LargestReached(s.dag, t, TopPhase(s.dag, t))
  {
    var n, f := s.dag[t], s.forms[t];
    assert DerivedAt(s.g, s.forms, n, f);
    var m := Merged(s.forms, n.deps, n.release, false);
    MergedIsGate(s, t, n.deps, n.release, C, true);
    assert View(m, true) == m;
    TopIsLargest(s.dag, t);
    hide Eval, Merged, Sound, IdleForms, Promises, TopForms;
    ShiftEval(m, n.local, C);
    assert Consistent(s.g, C) by { SoundAt(s, C); }
    CompactedBetween(s.g, Shift(m, n.local), C);
    assert View(f, true) == f && Eval(View(f, true), C) == Done(s.dag, t, C, true);
  }

  lemma SoundAt(s: State, C: Times)
    requires Good(s) && Legal(s.rows, C)
    ensures Consistent(s.g, C)
  {
  }

  // ---------------------------------------------------------------- executions of the output

  /** Acyclicity and progress: whatever the network times, the emitted rows have an execution in which every row
      runs and every phase completes; it is legal, so everything proved of legal executions applies to it. */
  lemma OutputRuns(s: State, net: nat -> nat) returns (C: Times)
    requires Good(s)
    ensures Legal(s.rows, C) && Consistent(s.g, C)
    ensures forall p: nat | p < |s.g| :: Attained(s.rows, C, net, p, C(p))
    ensures forall r | r in s.rows :: Promise(s.dag, r, C)
    ensures forall t, timed | t in s.forms :: Eval(View(s.forms[t], timed), C) == Done(s.dag, t, C, timed)
  {
    C := EveryPhaseCompletes(s.rows, |s.g|, net);
  }

  /** Under the error policy an accepted legacy row starts exactly when its task's weighted gate opens: at its
      release or when the last dependency is complete, plus its own latency. */
  lemma AcceptedRowsAreExact(s: State, r: Row, C: Times)
    requires Good(s) && r in s.rows && Legal(s.rows, C) && s.dag[r.dag].rule == Exactly
    ensures Start(r, C) == Gate(s.dag, r.dag, s.dag[r.dag].deps, s.dag[r.dag].release, C, true) + s.dag[r.dag].local
    ensures forall i | 0 <= i < |s.dag[r.dag].deps| :: Done(s.dag, s.dag[r.dag].deps[i], C, true) <= Start(r, C)
  {
    assert Promise(s.dag, r, C);
    DepsWithin(s.dag, r.dag, s.dag[r.dag].deps, s.dag[r.dag].release, C, true);
  }

  lemma {:induction false} DepsWithin(dag: Tasks, t: nat, deps: seq<nat>, release: nat, C: Times, timed: bool)
    requires Closed(dag) && Known(dag, t, deps)
    ensures forall i | 0 <= i < |deps| :: Done(dag, deps[i], C, timed) <= Gate(dag, t, deps, release, C, timed)
    decreases |deps|
  {
    if deps != [] {
      DepsWithin(dag, t, deps[..|deps| - 1], release, C, timed);
      assert forall i | 0 <= i < |deps| - 1 :: deps[..|deps| - 1][i] == deps[i];
    }
  }
}

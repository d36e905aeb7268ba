/** The task DAG as the compiler's input means it, independent of any compiled form. */
module Dag {
  import opened Collections
  import opened Timing
  import opened Tops

  /** How the start of a task's rows relates to the DAG, per timing policy and kind of row. */
  datatype Rule =
    | Exactly            // at the weighted DAG gate
    | NoEarlier          // at the weighted DAG gate or later
    | NotBeforeRelease   // after the largest predecessor phase and its lag; of the rest only the release is kept
    | AfterAll           // all predecessors complete, padded for an uncovered release
    | JustAfterAll       // all predecessors complete, release ignored
    | AtFrontier         // when the largest predecessor phase is complete, nothing else waited for

  datatype Kind =
    | Barrier(pids: seq<nat>)   // has rows of its own: complete when these phases are
    | Folded                    // local work without rows
    | Begin                     // local work that waits for the largest phase of each dependency
    | Compact(root: nat)        // local work that waits for the largest phase of all, and for `root`

  datatype Node = Node(deps: seq<nat>, release: nat, local: nat, rule: Rule, kind: Kind)

  type Tasks = map<nat, Node>

  /** Tasks depend on earlier tasks only. */
  ghost predicate Closed(dag: Tasks) {
    forall t, i | t in dag && 0 <= i < |dag[t].deps| :: dag[t].deps[i] in dag && dag[t].deps[i] < t
  }

  ghost predicate Known(dag: Tasks, t: nat, deps: seq<nat>) {
    forall i | 0 <= i < |deps| :: deps[i] in dag && deps[i] < t
  }

  /** The largest phase that task t waits for, and the local time after it. */
  ghost function TopPhase(dag: Tasks, t: nat): Top
    requires Closed(dag) && t in dag
    decreases t, 1
  {
    var n := dag[t];
    if n.kind.Barrier? then LastOf(n.kind.pids) else Lifted(GateTop(dag, t, n.deps), n.local)
  }

  function Phases(pids: seq<nat>): set<nat> { set p | p in pids }

  ghost function LastOf(pids: seq<nat>): Top {
    if pids == [] then None
    else
      assert pids[0] in Phases(pids);
      Some((Largest(Phases(pids)), 0))
  }

  /** The largest phase among those of several dependencies. */
  ghost function GateTop(dag: Tasks, t: nat, deps: seq<nat>): Top
    requires Closed(dag) && Known(dag, t, deps)
    decreases t, 0, |deps|
  {
    if deps == [] then None
    else
      var last := |deps| - 1;
      Higher(GateTop(dag, t, deps[..last]), TopPhase(dag, deps[last]))
  }

  /** When the largest phase of each dependency is complete, with `timed` its lag over. */
  ghost function Fronts(dag: Tasks, t: nat, deps: seq<nat>, C: Times, timed: bool): nat
    requires Closed(dag) && Known(dag, t, deps)
  {
    if deps == [] then 0
    else
      var last := |deps| - 1;
      Max(Fronts(dag, t, deps[..last], C, timed), Reached(TopPhase(dag, deps[last]), C, timed))
  }

  /** When task t is complete. With `timed` off, releases and durations are left out: the last completion
      of the phases it waits for. */
  ghost function Done(dag: Tasks, t: nat, C: Times, timed: bool): nat
    requires Closed(dag) && t in dag
    decreases t, 1
  {
    var n := dag[t];
    match n.kind
    case Barrier(pids) => Ready(pids, C)
    case Folded => Gate(dag, t, n.deps, n.release, C, timed) + (if timed then n.local else 0)
    case Begin => Fronts(dag, t, n.deps, C, timed) + (if timed then n.local else 0)
    case Compact(root) => Max(if timed then root else 0, Reached(TopPhase(dag, t), C, timed))
  }

  /** The ALL gate of task t: its release and the completion of every dependency. */
  ghost function Gate(dag: Tasks, t: nat, deps: seq<nat>, release: nat, C: Times, timed: bool): nat
    requires Closed(dag) && Known(dag, t, deps)
    decreases t, 0, |deps|
  {
    if deps == [] then (if timed then release else 0)
    else
      var last := |deps| - 1;
      Max(Gate(dag, t, deps[..last], release, C, timed), Done(dag, deps[last], C, timed))
  }

  /** No folded predecessor adds time of its own (nor, with `releases`, a release time). */
  ghost predicate Idle(dag: Tasks, t: nat, releases: bool)
    requires Closed(dag) && t in dag
    decreases t
  {
    var n := dag[t];
    match n.kind
    case Barrier(_) => true
    case Folded => n.local == 0 && (releases ==> n.release == 0) &&
                   forall i | 0 <= i < |n.deps| :: Idle(dag, n.deps[i], releases)
    case Begin =>
      && (releases ==> n.local == 0)
      && forall i | 0 <= i < |n.deps| && TopPhase(dag, n.deps[i]).Some? ::
           TopPhase(dag, n.deps[i]).value.1 + n.local == 0
    case Compact(root) =>
      (TopPhase(dag, t).Some? ==> TopPhase(dag, t).value.1 == 0) && (releases ==> root == 0)
  }

  ghost predicate AllIdle(dag: Tasks, t: nat, deps: seq<nat>, releases: bool)
    requires Closed(dag) && Known(dag, t, deps)
  {
    forall i | 0 <= i < |deps| :: Idle(dag, deps[i], releases)
  }

  // -------------------------------------------------------------------- later tasks

  ghost predicate Extends(dag: Tasks, dag': Tasks) {
    forall t | t in dag :: t in dag' && dag'[t] == dag[t]
  }

  lemma {:induction false} TopExtends(dag: Tasks, dag': Tasks, t: nat)
    requires Closed(dag) && Closed(dag') && Extends(dag, dag') && t in dag
    ensures TopPhase(dag, t) == TopPhase(dag', t)
    decreases t, 1
  {
    GateTopExtends(dag, dag', t, dag[t].deps);
  }

  lemma {:induction false} GateTopExtends(dag: Tasks, dag': Tasks, t: nat, deps: seq<nat>)
    requires Closed(dag) && Closed(dag') && Extends(dag, dag') && Known(dag, t, deps)
    ensures GateTop(dag, t, deps) == GateTop(dag', t, deps)
    decreases t, 0, |deps|
  {
    if deps != [] {
      GateTopExtends(dag, dag', t, deps[..|deps| - 1]);
      TopExtends(dag, dag', deps[|deps| - 1]);
    }
  }

  lemma {:induction false} FrontsExtends(dag: Tasks, dag': Tasks, t: nat, deps: seq<nat>, C: Times, timed: bool)
    requires Closed(dag) && Closed(dag') && Extends(dag, dag') && Known(dag, t, deps)
    ensures Fronts(dag, t, deps, C, timed) == Fronts(dag', t, deps, C, timed)
    decreases |deps|
  {
    if deps != [] {
      FrontsExtends(dag, dag', t, deps[..|deps| - 1], C, timed);
      TopExtends(dag, dag', deps[|deps| - 1]);
    }
  }

  lemma {:induction false} DoneExtends(dag: Tasks, dag': Tasks, t: nat, C: Times, timed: bool)
    requires Closed(dag) && Closed(dag') && Extends(dag, dag') && t in dag
    ensures Done(dag, t, C, timed) == Done(dag', t, C, timed)
    decreases t, 1
  {
    if dag[t].kind.Folded? {
      GateExtends(dag, dag', t, dag[t].deps, dag[t].release, C, timed);
    }
    FrontsExtends(dag, dag', t, dag[t].deps, C, timed);
    TopExtends(dag, dag', t);
  }

  lemma {:induction false} GateExtends(dag: Tasks, dag': Tasks, t: nat, deps: seq<nat>, release: nat, C: Times,
                                       timed: bool)
    requires Closed(dag) && Closed(dag') && Extends(dag, dag') && Known(dag, t, deps)
    ensures Gate(dag, t, deps, release, C, timed) == Gate(dag', t, deps, release, C, timed)
    decreases t, 0, |deps|
  {
    if deps != [] {
      GateExtends(dag, dag', t, deps[..|deps| - 1], release, C, timed);
      DoneExtends(dag, dag', deps[|deps| - 1], C, timed);
    }
  }

  lemma {:induction false} IdleExtends(dag: Tasks, dag': Tasks, t: nat, releases: bool)
    requires Closed(dag) && Closed(dag') && Extends(dag, dag') && t in dag
    ensures Idle(dag, t, releases) == Idle(dag', t, releases)
    decreases t
  {
    if dag[t].kind.Folded? {
      forall i | 0 <= i < |dag[t].deps|
        ensures Idle(dag, dag[t].deps[i], releases) == Idle(dag', dag[t].deps[i], releases)
      {
        IdleExtends(dag, dag', dag[t].deps[i], releases);
      }
    }
    TopExtends(dag, dag', t);
    forall i | 0 <= i < |dag[t].deps| ensures TopPhase(dag, dag[t].deps[i]) == TopPhase(dag', dag[t].deps[i]) {
      TopExtends(dag, dag', dag[t].deps[i]);
    }
  }

  /** The gate of a task does not depend on its number. */
  lemma {:induction false} GateNumber(dag: Tasks, t: nat, t': nat, deps: seq<nat>, release: nat, C: Times, timed: bool)
    requires Closed(dag) && Known(dag, t, deps) && Known(dag, t', deps)
    ensures Gate(dag, t, deps, release, C, timed) == Gate(dag, t', deps, release, C, timed)
    decreases |deps|
  {
    if deps != [] {
      GateNumber(dag, t, t', deps[..|deps| - 1], release, C, timed);
    }
  }

  lemma {:induction false} GateTopNumber(dag: Tasks, t: nat, t': nat, deps: seq<nat>)
    requires Closed(dag) && Known(dag, t, deps) && Known(dag, t', deps)
    ensures GateTop(dag, t, deps) == GateTop(dag, t', deps)
    decreases |deps|
  {
    if deps != [] {
      GateTopNumber(dag, t, t', deps[..|deps| - 1]);
    }
  }

  // --------------------------------------------------------------- what rows promise

  /** What the timing policy promises about the start of a row of task t, in one execution. */
  ghost predicate Keeps(dag: Tasks, t: nat, n: Node, start: nat, C: Times)
    requires Closed(dag) && Known(dag, t, n.deps)
  {
    var weighted := Gate(dag, t, n.deps, n.release, C, true) + n.local;
    var all := Gate(dag, t, n.deps, 0, C, false);
    var top := GateTop(dag, t, n.deps);
    match n.rule
    case Exactly => start == weighted
    case NoEarlier => start >= weighted
    case NotBeforeRelease =>
      start >= n.release + n.local && (top.Some? ==> start >= C(top.value.0) + top.value.1 + n.local)
    case AfterAll =>
      && start >= Max(n.release, all) + n.local
      && (AllIdle(dag, t, n.deps, false) ==> start >= weighted)
      && (AllIdle(dag, t, n.deps, true) && n.release == 0 ==> start == weighted)
    case JustAfterAll => start == all + n.local
    case AtFrontier => top.Some? && start == C(top.value.0) + n.local
  }

  /** The dependencies a row writes where the rule selects one phase: that phase, or none if there is none. */
  ghost predicate Selects(dag: Tasks, t: nat, n: Node, deps: seq<nat>)
    requires Closed(dag) && Known(dag, t, n.deps)
  {
    var top := GateTop(dag, t, n.deps);
    n.rule.NotBeforeRelease? || n.rule.AtFrontier? ==> deps == if top.None? then [] else [top.value.0]
  }

  ghost predicate Promise(dag: Tasks, r: Row, C: Times)
    requires Closed(dag) && r.dag in dag
  {
    Keeps(dag, r.dag, dag[r.dag], Start(r, C), C) && Selects(dag, r.dag, dag[r.dag], r.deps)
  }

  lemma KeepsExtends(dag: Tasks, dag': Tasks, t: nat, n: Node, start: nat, C: Times)
    requires Closed(dag) && Closed(dag') && Extends(dag, dag') && Known(dag, t, n.deps)
    ensures Keeps(dag, t, n, start, C) == Keeps(dag', t, n, start, C)
  {
    GateTopExtends(dag, dag', t, n.deps);
    GateExtends(dag, dag', t, n.deps, n.release, C, true);
    GateExtends(dag, dag', t, n.deps, 0, C, false);
    forall i, b | 0 <= i < |n.deps| ensures Idle(dag, n.deps[i], b) == Idle(dag', n.deps[i], b) {
      IdleExtends(dag, dag', n.deps[i], b);
    }
  }

  lemma SelectsExtends(dag: Tasks, dag': Tasks, t: nat, n: Node, deps: seq<nat>)
    requires Closed(dag) && Closed(dag') && Extends(dag, dag') && Known(dag, t, n.deps)
    ensures Selects(dag, t, n, deps) == Selects(dag', t, n, deps)
  {
    GateTopExtends(dag, dag', t, n.deps);
  }

  lemma PromiseExtends(dag: Tasks, dag': Tasks, r: Row, C: Times)
    requires Closed(dag) && Closed(dag') && Extends(dag, dag') && r.dag in dag && Promise(dag, r, C)
    ensures Promise(dag', r, C)
  {
    hide Keeps, Selects;
    KeepsExtends(dag, dag', r.dag, dag[r.dag], Start(r, C), C);
    SelectsExtends(dag, dag', r.dag, dag[r.dag], r.deps);
  }
}

/** When the Prefill rows of a finished output start exactly at their weighted gates, and an input where one does
    not. */
module PrefillStarts {
  import opened Collections
  import opened Timing
  import opened Tops
  import opened Dag
  import opened States
  import opened Tickets
  import opened TaskTables
  import opened Chunking
  import opened Compilers
  import opened Expanders
  import opened RowDominance
  import Conservation
  import Guarantees

  /** The gate of a row's task: its dependencies' stored forms in one. */
  ghost function GateOf(s: State, n: Node): Form {
    Merged(s.forms, n.deps, n.release, false)
  }

  /** The row starts when its weighted gate opens, and its own time later, in every legal execution. */
  ghost predicate StartsExactly(s: State, r: Row)
    requires Shape(s) && r in s.rows
  {
    var n := s.dag[r.dag];
    forall C: Times | Legal(s.rows, C) :: Start(r, C) == Gate(s.dag, r.dag, n.deps, n.release, C, true) + n.local
  }

  /** Every lag that no other term of the gate dominates is the row's delay beyond its own time. */
  ghost predicate LagsAreDelay(s: State, n: Node, delay: nat) {
    var terms := GateOf(s, n).terms;
    forall p | p in RowKept(s.rows, terms) :: terms[p] + n.local == delay
  }

  lemma GateOpens(s: State, r: Row, C: Times)
    requires Good(s) && PaddedRows(s) && r in s.rows && s.dag[r.dag].rule.AfterAll? && Legal(s.rows, C)
    ensures var n := s.dag[r.dag];
      Eval(GateOf(s, n), C) == Gate(s.dag, r.dag, n.deps, n.release, C, true)
  {
    var n := s.dag[r.dag];
    assert Padded(s, n, r.deps, r.delay);
    Guarantees.MergedIsGate(s, r.dag, n.deps, n.release, C, true);
    assert View(GateOf(s, n), true) == GateOf(s, n);
  }

  /** A row without predecessor phases starts at its root, which is then its gate. */
  lemma NoPhases(f: Form, r: Row, C: Times)
    requires f.terms.Keys == {} && Lists(r.deps, f.terms)
    ensures Eval(f, C) == f.root && Ready(r.deps, C) == 0
  {
    assert f.terms == map[];
    assert forall i | 0 <= i < |r.deps| :: r.deps[i] in f.terms;
  }

  lemma ExactlyMeans(s: State, r: Row, f: Form, pad: nat)
    requires Good(s) && PaddedRows(s) && r in s.rows && s.dag[r.dag].rule.AfterAll?
    requires f == GateOf(s, s.dag[r.dag]) && r.delay == pad + s.dag[r.dag].local
    ensures StartsExactly(s, r) <==> PrefillExact(s.rows, f, r.deps, pad)
  {
    hide Sound, Meaning, TopForms, IdleForms, Promises, PaddedRows, Eval, Ready, GateOf, Gate, WellFounded, Topological;
    forall C: Times | Legal(s.rows, C)
      ensures Eval(f, C) == Gate(s.dag, r.dag, s.dag[r.dag].deps, s.dag[r.dag].release, C, true)
    {
      GateOpens(s, r, C);
    }
  }

  /** Prefill waits for all predecessor phases and looks at no lag. A row of the finished output starts at its weighted
      gate in all legal executions exactly when every undominated lag in its gate is its delay. */
  lemma PrefillRowExactWhen(s: State, r: Row)
    requires Good(s) && PaddedRows(s) && r in s.rows && s.dag[r.dag].rule.AfterAll?
    ensures StartsExactly(s, r) <==> LagsAreDelay(s, s.dag[r.dag], r.delay)
  {
    hide Sound, Meaning, TopForms, IdleForms, Promises, Merged, RowKept, PrefillExact, StartsExactly;
    var n := s.dag[r.dag];
    var f := GateOf(s, n);
    assert Padded(s, n, r.deps, r.delay);
    if f.terms.Keys == {} {
      assert RowKept(s.rows, f.terms) == map[] by { NoneKept(s.rows, f.terms); }
      ExactlyMeans(s, r, f, f.root);
      RootIsExact(s.rows, f, r);
    } else {
      var floor: nat :| LargestFloor(s.g, f.terms, floor) && r.delay == Max(0, f.root - floor) + n.local;
      PrefillExactWhen(s, f, r.deps, floor);
      ExactlyMeans(s, r, f, Max(0, f.root - floor));
    }
  }

  lemma NoneKept(rows: seq<Row>, terms: map<nat, nat>)
    requires terms.Keys == {}
    ensures RowKept(rows, terms) == map[]
  {
    assert RowKept(rows, terms).Keys <= terms.Keys;
  }

  lemma RootIsExact(rows: seq<Row>, f: Form, r: Row)
    requires f.terms.Keys == {} && Lists(r.deps, f.terms)
    ensures PrefillExact(rows, f, r.deps, f.root)
  {
    forall C: Times | Legal(rows, C) ensures Ready(r.deps, C) + f.root == Eval(f, C) {
      NoPhases(f, r, C);
    }
  }

  // ------------------------------------------------------------- an input with a lag that counts

  /** One Prefill layer of this duration. */
  function Layer(id: nat, duration: nat, deps: seq<nat>): Task {
    Task(id, COMPUTE, PREFILL_LAYER, PREFILL, 0, 0, None, None, "", 0, duration, 0, 0, deps)
  }

  /** A layer; work of duration 5 after it, which is folded; a layer of duration 1 after it; a layer after both. */
  function LagInput(): seq<Task> {
    [Layer(0, 0, []), Layer(1, 5, [0]).(stage := OTHER_STAGE), Layer(2, 1, [0]), Layer(3, 0, [1, 2])]
  }

  /** That input as a DAG, its layers' rows in these phases. */
  ghost predicate LagDag(dag: Tasks, p: nat, q: nat, c: nat) {
    && Closed(dag) && dag.Keys == {0, 1, 2, 3}
    && dag[0] == Node([], 0, 0, AfterAll, Barrier([p])) && dag[1] == Node([0], 0, 5, AfterAll, Folded)
    && dag[2] == Node([0], 0, 1, AfterAll, Barrier([q])) && dag[3] == Node([1, 2], 0, 0, AfterAll, Barrier([c]))
  }

  lemma OneDep(dag: Tasks, t: nat, d: nat, C: Times, timed: bool)
    requires Closed(dag) && Known(dag, t, [d]) && d in dag
    ensures Gate(dag, t, [d], 0, C, timed) == Done(dag, d, C, timed)
  {
    hide Done;
    assert [d][..0] == [];
    assert Gate(dag, t, [], 0, C, timed) == 0;
  }

  lemma TwoDeps(dag: Tasks, t: nat, d: nat, e: nat, C: Times, timed: bool)
    requires Closed(dag) && Known(dag, t, [d]) && Known(dag, t, [d, e]) && d in dag && e in dag
    ensures Gate(dag, t, [d, e], 0, C, timed) == Max(Done(dag, d, C, timed), Done(dag, e, C, timed))
  {
    hide Done;
    OneDep(dag, t, d, C, timed);
    assert [d, e][..1] == [d];
  }

  /** What its layers wait for. */
  lemma LagGates(dag: Tasks, p: nat, q: nat, c: nat, C: Times, timed: bool)
    requires LagDag(dag, p, q, c)
    ensures Gate(dag, 2, [0], 0, C, timed) == C(p)
    ensures Gate(dag, 3, [1, 2], 0, C, timed) == Max(C(p) + (if timed then 5 else 0), C(q))
  {
    hide Gate;
    Guarantees.OnePhaseDone(dag, 0, p, C, timed);
    Guarantees.OnePhaseDone(dag, 2, q, C, timed);
    OneDep(dag, 2, 0, C, timed);
    OneDep(dag, 1, 0, C, timed);
    TwoDeps(dag, 3, 1, 2, C, timed);
  }

  /** The finished output of that input. */
  ghost predicate LagOutput(s: State) {
    && Good(s) && PaddedRows(s) && |s.rows| == 3 && 1 in s.forms && 2 in s.forms
    && (s.rows[0].dag, s.rows[1].dag, s.rows[2].dag) == (0, 2, 3)
    && LagDag(s.dag, s.rows[0].pid, s.rows[1].pid, s.rows[2].pid)
  }

  /** Rows of tasks that depend on nothing, or on rows alone, start at their gate. */
  lemma AtOnce(s: State, r: Row, C: Times)
    requires Good(s) && r in s.rows && Legal(s.rows, C) && s.dag[r.dag].rule.AfterAll? && s.dag[r.dag].release == 0
    requires forall d | d in s.dag[r.dag].deps :: s.dag[d].kind.Barrier?
    ensures var n := s.dag[r.dag];
      Start(r, C) == Gate(s.dag, r.dag, n.deps, 0, C, true) + n.local
  {
    hide Sound, Meaning, TopForms, IdleForms, Gate, GateTop;
    assert Promise(s.dag, r, C);
    assert AllIdle(s.dag, r.dag, s.dag[r.dag].deps, true) && AllIdle(s.dag, r.dag, s.dag[r.dag].deps, false);
  }

  /** A Prefill row waits for all phases of its gate, and for its delay. */
  lemma AllComplete(s: State, r: Row, C: Times)
    requires Good(s) && PaddedRows(s) && r in s.rows && Legal(s.rows, C) && s.dag[r.dag].rule.AfterAll?
    ensures var n := s.dag[r.dag];
      Start(r, C) == Gate(s.dag, r.dag, n.deps, n.release, C, false) + r.delay
  {
    hide Sound, Meaning, TopForms, IdleForms, Promises, Gate;
    var n := s.dag[r.dag];
    assert Padded(s, n, r.deps, r.delay);
    Guarantees.MergedIsGate(s, r.dag, n.deps, n.release, C, false);
    ReadyIsEval(r.deps, GateOf(s, n), C);
  }

  lemma FirstStart(s: State, C: Times)
    requires LagOutput(s) && Legal(s.rows, C)
    ensures Start(s.rows[0], C) == 0
  {
    hide Sound, Meaning, TopForms, IdleForms, Promises, PaddedRows, WellFounded, Topological, Legal, Start, Ready;
    assert s.rows[0] in s.rows;
    AtOnce(s, s.rows[0], C);
    assert Gate(s.dag, 0, [], 0, C, true) == 0;
  }

  lemma SecondStart(s: State, C: Times)
    requires LagOutput(s) && Legal(s.rows, C)
    ensures Start(s.rows[1], C) == C(s.rows[0].pid) + 1 <= C(s.rows[1].pid)
  {
    hide Sound, Meaning, TopForms, IdleForms, Promises, PaddedRows, WellFounded, Topological, Gate, Start, Ready;
    assert s.rows[1] in s.rows;
    AtOnce(s, s.rows[1], C);
    LagGates(s.dag, s.rows[0].pid, s.rows[1].pid, s.rows[2].pid, C, true);
  }

  lemma LastStart(s: State, C: Times)
    requires LagOutput(s) && Legal(s.rows, C)
    ensures Start(s.rows[2], C) == Max(C(s.rows[0].pid), C(s.rows[1].pid)) + s.rows[2].delay
  {
    hide Sound, Meaning, TopForms, IdleForms, Promises, PaddedRows, WellFounded, Topological, Gate, Start, Ready, Legal;
    assert s.rows[2] in s.rows;
    AllComplete(s, s.rows[2], C);
    LagGates(s.dag, s.rows[0].pid, s.rows[1].pid, s.rows[2].pid, C, false);
  }

  /** The first layer runs at once, the second right after it, and the last as soon as both are complete, and its
      padding later. */
  lemma LagTimes(s: State, C: Times)
    requires LagOutput(s) && Legal(s.rows, C)
    ensures Start(s.rows[0], C) == 0 && Start(s.rows[1], C) == C(s.rows[0].pid) + 1
    ensures Start(s.rows[2], C) == C(s.rows[1].pid) + s.rows[2].delay
  {
    hide Good, PaddedRows, Legal, Start, LagDag;
    FirstStart(s, C);
    SecondStart(s, C);
    LastStart(s, C);
  }

  /** What a dependency waits for is part of the merged gate. */
  lemma {:induction false} MergedKeeps(forms: map<nat, Form>, deps: seq<nat>, release: nat, i: nat, p: nat)
    requires i < |deps| && deps[i] in forms && p in forms[deps[i]].terms
    ensures p in Merged(forms, deps, release, false).terms
  {
    if i < |deps| - 1 {
      MergedKeeps(forms, deps[..|deps| - 1], release, i, p);
    }
  }

  /** A Prefill row joins a later phase than the largest one of each dependency. */
  lemma LaterPhase(s: State, r: Row, i: nat)
    requires Good(s) && PaddedRows(s) && r in s.rows && s.dag[r.dag].rule.AfterAll? && i < |s.dag[r.dag].deps|
    ensures var top := TopPhase(s.dag, s.dag[r.dag].deps[i]);
      top.Some? ==> top.value.0 in r.deps && top.value.0 < r.pid
  {
    hide Sound, Meaning, IdleForms, Promises, TopPhase;
    var n := s.dag[r.dag];
    var top := TopPhase(s.dag, n.deps[i]);
    assert Padded(s, n, r.deps, r.delay);
    if top.Some? {
      TopIn(s.forms[n.deps[i]].terms);
      MergedKeeps(s.forms, n.deps, n.release, i, top.value.0);
      InDeps(s, r, top.value.0);
    }
  }

  lemma TopIn(terms: map<nat, nat>)
    ensures TopOf(terms).Some? ==> TopOf(terms).value.0 in terms
  {
  }

  lemma InDeps(s: State, r: Row, p: nat)
    requires WellFounded(s.rows, |s.g|) && r in s.rows && p in r.deps
    ensures p < r.pid
  {
  }

  /** The phases of the three layers follow each other. */
  lemma LagApart(s: State)
    requires LagOutput(s)
    ensures s.rows[0].pid < s.rows[1].pid < s.rows[2].pid
  {
    hide Good, PaddedRows;
    var r1, r2 := s.rows[1], s.rows[2];
    assert r1 in s.rows && r2 in s.rows;
    LaterPhase(s, r1, 0);
    LaterPhase(s, r2, 1);
    OnlyPhase(s.dag, 0, s.rows[0].pid);
    OnlyPhase(s.dag, 2, s.rows[1].pid);
  }

  lemma OnlyPhase(dag: Tasks, t: nat, p: nat)
    requires Closed(dag) && t in dag && dag[t].kind == Barrier([p])
    ensures TopPhase(dag, t) == Some((p, 0))
  {
    assert Phases([p]) == {p} by { assert [p][0] in [p]; }
  }

  /** An execution in which the second layer takes `k` on the network and nothing else takes any time there. */
  lemma LagRun(s: State, k: nat) returns (C: Times)
    requires LagOutput(s)
    ensures Legal(s.rows, C) && Start(s.rows[2], C) == 1 + k + s.rows[2].delay
    ensures Gate(s.dag, 3, [1, 2], 0, C, true) == Max(5, 1 + k)
  {
    hide Good, PaddedRows, Legal, Attained;
    var net := (i: nat) => if i == 1 then k else 0;
    C := Guarantees.OutputRuns(s, net);
    LagApart(s);
    LagTimes(s, C);
    EndsWith(s, C, net, 0);
    EndsWith(s, C, net, 1);
    LagGates(s.dag, s.rows[0].pid, s.rows[1].pid, s.rows[2].pid, C, true);
  }

  /** A phase with one row ends with it. */
  lemma EndsWith(s: State, C: Times, net: nat -> nat, i: nat)
    requires LagOutput(s) && i < 3 && s.rows[0].pid < s.rows[1].pid < s.rows[2].pid
    requires forall p: nat | p < |s.g| :: Attained(s.rows, C, net, p, C(p))
    ensures C(s.rows[i].pid) == Start(s.rows[i], C) + net(i)
  {
    hide Sound, Meaning, TopForms, IdleForms, Promises, PaddedRows, Start;
    var p := s.rows[i].pid;
    assert s.rows[i] in s.rows;
    assert Attained(s.rows, C, net, p, C(p));
    var j: nat :| EndsAt(s.rows, C, net, p, j, C(p));
  }

  /** The last layer's row is not exact: without network time it would have to be delayed by 4, behind a slow second
      layer by nothing. */
  lemma LagIsIgnored(s: State)
    requires LagOutput(s)
    ensures !StartsExactly(s, s.rows[2]) && !LagsAreDelay(s, s.dag[3], s.rows[2].delay)
  {
    hide Good, PaddedRows, Legal, LagsAreDelay, Start, Gate;
    assert s.rows[2] in s.rows;
    var C := LagRun(s, 0);
    var C' := LagRun(s, 9);
    PrefillRowExactWhen(s, s.rows[2]);
  }

  // -------------------------------------------------------------------- compiling that input

  ghost predicate Nothing(s: State) {
    s.rows == [] && s.dag == map[] && s.forms == map[]
  }

  /** The traffic of the first rows of that input: one empty row for each layer. */
  lemma LagTraffic(x: Compiler)
    requires x.v14
    ensures x.Expected(LagInput()[..0]) == [] && x.Expected(LagInput()[..1]) == [(0, 0)]
    ensures x.Expected(LagInput()[..2]) == [(0, 0)] && x.Expected(LagInput()[..3]) == [(0, 0), (2, 0)]
    ensures x.Expected(LagInput()) == [(0, 0), (2, 0), (3, 0)]
  {
    hide Compiler.Expected;
    var tasks := LagInput();
    x.ExpectedNothing();
    assert tasks[..0] == [] && tasks[..1] == [] + [tasks[0]];
    x.ExpectedStep([], tasks[0]);
    assert tasks[..2] == tasks[..1] + [tasks[1]];
    x.ExpectedStep(tasks[..1], tasks[1]);
    assert tasks[..3] == tasks[..2] + [tasks[2]];
    x.ExpectedStep(tasks[..2], tasks[2]);
    assert tasks == tasks[..3] + [tasks[3]];
    x.ExpectedStep(tasks[..3], tasks[3]);
  }

  /** Every phase has a row, so there are no more phases than rows. */
  lemma PhasesWithinRows(rows: seq<Row>, n: nat)
    requires WellFounded(rows, n)
    ensures n <= |rows|
  {
    var met := set i | 0 <= i < |rows| :: rows[i].pid;
    RangeSize(n);
    forall p | p in IdRange(0, n) ensures p in met {
      assert HasRow(rows, p);
    }
    PidsWithin(rows);
    SubsetSize(IdRange(0, n), met);
  }

  lemma {:induction false} RangeSize(n: nat)
    ensures |IdRange(0, n)| == n && forall p | p in IdRange(0, n) :: p < n
  {
    if n > 0 {
      RangeSize(n - 1);
    }
  }

  lemma {:induction false} PidsWithin(rows: seq<Row>)
    ensures |set i | 0 <= i < |rows| :: rows[i].pid| <= |rows|
  {
    if rows != [] {
      var last := |rows| - 1;
      PidsWithin(rows[..last]);
      assert (set i | 0 <= i < |rows| :: rows[i].pid)
          == (set i | 0 <= i < last :: rows[..last][i].pid) + {rows[last].pid};
    }
  }

  lemma SubsetSize(a: set<nat>, b: set<nat>)
    requires a <= b
    ensures |a| <= |b|
  {
    assert b == a + (b - a);
  }

  /** The first rows of that input, converted. */
  lemma LagSoFar(x: Compiler, m: Moment, m': Moment, at: nat)
    requires x.v14 && at <= 4 && x.Converts(m, m', LagInput()[..at]) && Nothing(m.s) && m.last == -1 && Good(m'.s)
    ensures at < 4 ==> m'.last == at - 1 && |m'.s.rows| < 3
    ensures |m'.s.g| <= |m'.s.rows|
    ensures forall t: nat | t < at :: t in m'.s.forms
  {
    hide Frozen, Compiler.AllConverted, Compiler.Expected, Sound, Meaning, TopForms, IdleForms, Promises, WellFounded,
      Topological;
    var tasks := LagInput()[..at];
    Conservation.AllWritten(m.s, m'.s, x.Expected(tasks));
    LagTraffic(x);
    PhasesWithinRows(m'.s.rows, |m'.s.g|);
    forall t: nat | t < at ensures t in IdsOf(tasks) {
      assert tasks[t].id == t;
    }
  }

  /** With IDs left for three rows and three phases, none of its rows is refused. */
  lemma LagAccepted(x: Compiler, m: Moment, m': Moment, at: nat, local: Local)
    requires x.v14 && at < 4 && x.Converts(m, m', LagInput()[..at]) && Nothing(m.s) && m.last == -1 && Good(m'.s)
    requires x.base + 2 <= UINT32_MAX && x.firstTask + 2 <= UINT32_MAX
    ensures x.Acceptable(m'.s, LagInput()[at], None, local, m'.shared, m'.last, m'.ready, x.firstTask + |m'.s.rows|)
  {
    hide Compiler.Converts, Sound, Meaning, TopForms, IdleForms, Promises, WellFounded, Topological, Compiler.RowFlags,
      Merged;
    LagSoFar(x, m, m', at);
    var t := LagInput()[at];
    var flags := x.RowFlags(t, None, m'.s.forms, m'.s.sealedPhases);
    SameFlags(x, t, m'.s);
    assert AllIn(t.deps, m'.s.forms);
  }

  lemma SameFlags(x: Compiler, t: Task, s: State)
    ensures |x.RowFlags(t, None, s.forms, s.sealedPhases)| == |s.sealedPhases|
  {
  }

  /** The node of one task of that input. */
  lemma LagNode(x: Compiler, s: State, t: Task)
    requires x.v14 && x.Converted(s, t) && t in LagInput()
    ensures var n := s.dag[t.id];
      && n == Node(t.deps, 0, t.duration, AfterAll, n.kind)
      && if t.stage.PREFILL_LAYER? then n.kind.Barrier? && |n.kind.pids| == 1 else n.kind.Folded?
  {
  }

  lemma LagRows(x: Compiler, m: Moment, m': Moment)
    requires x.v14 && x.Converts(m, m', LagInput()) && Nothing(m.s)
    ensures |m'.s.rows| == 3 && (m'.s.rows[0].dag, m'.s.rows[1].dag, m'.s.rows[2].dag) == (0, 2, 3)
    ensures m'.s.dag.Keys == {0, 1, 2, 3} && m'.s.forms.Keys == {0, 1, 2, 3}
  {
    hide Frozen, Compiler.Expected, Compiler.AllConverted;
    var tasks, rows := LagInput(), m'.s.rows;
    Conservation.AllWritten(m.s, m'.s, x.Expected(tasks));
    LagTraffic(x);
    assert |Traffic(rows)| == 3 && Traffic(rows)[0].0 == 0 && Traffic(rows)[1].0 == 2 && Traffic(rows)[2].0 == 3;
    assert IdsOf(tasks) == {0, 1, 2, 3} by {
      assert tasks[0].id == 0 && tasks[1].id == 1 && tasks[2].id == 2 && tasks[3].id == 3;
    }
  }

  /** The row of a layer is in the layer's one phase. */
  lemma LagHome(s: State, i: nat)
    requires Shape(s) && i < |s.rows| && s.rows[i].dag in s.dag
    requires s.dag[s.rows[i].dag].kind.Barrier? && |s.dag[s.rows[i].dag].kind.pids| == 1
    ensures s.dag[s.rows[i].dag].kind == Barrier([s.rows[i].pid])
  {
    hide WellFounded, Topological;
    assert s.rows[i] in s.rows;
    assert Home(s.dag[s.rows[i].dag], s.rows[i].pid);
  }

  lemma LagCompiled(x: Compiler, m: Moment, m': Moment)
    requires x.v14 && x.Converts(m, m', LagInput()) && Nothing(m.s) && Good(m'.s) && PaddedRows(m'.s)
    ensures LagOutput(m'.s)
  {
    hide Frozen, Writes, Compiler.Expected, Compiler.Converted, Sound, Meaning, TopForms, IdleForms, Promises,
      WellFounded,
      Topological, PaddedRows;
    var tasks, s := LagInput(), m'.s;
    LagRows(x, m, m');
    forall i | 0 <= i < 4 ensures x.Converted(s, tasks[i]) && tasks[i] in tasks {
    }
    LagNode(x, s, tasks[0]);
    LagNode(x, s, tasks[1]);
    LagNode(x, s, tasks[2]);
    LagNode(x, s, tasks[3]);
    LagHome(s, 0);
    LagHome(s, 1);
    LagHome(s, 2);
  }

  /** That input never stops. */
  lemma LagNeverStops(x: Compiler, m: Moment, at: nat, m': Moment)
    requires x.v14 && Nothing(m.s) && m.last == -1 && x.base + 2 <= UINT32_MAX && x.firstTask + 2 <= UINT32_MAX
    ensures !x.StoppedAt(m, LagInput(), at, m')
  {
    hide Good, Compiler.Converts, Compiler.Acceptable;
    if x.StoppedAt(m, LagInput(), at, m') {
      var from: nat, local: Local :| x.RefusedIn(m', LagInput(), at, from, local);
      LagAccepted(x, m, m', at, local);
      assert false;
    }
  }

  /** Compiles that input: under every policy it is accepted, and its last row does not start when its gate opens. */
  method CompileLagInput(policy: Policy, share: bool) returns (x: Compiler)
    ensures fresh(x) && x.Valid() && x.v14 && x.policy == policy && x.share == share
    ensures x.S().dag.Keys == {0, 1, 2, 3} && |x.rows| == 3 && x.rows[2].dag == 3 && !StartsExactly(x.S(), x.rows[2])
  {
    hide Good, Compiler.Valid, PaddedRows, Compiler.Converts, Compiler.Acceptable, Compiler.StoppedAt, LagOutput,
      StartsExactly, LagsAreDelay;
    x := new Compiler(0, 0, policy, share, true, None, 1);
    ghost var m := x.Now();
    EmptyState(x);
    AllValidated();
    var r;
    ghost var at, stop;
    r, at, stop := x.Run(LagInput());
    LagNeverStops(x, m, at, stop);
    OutputKept(x);
    LagCompiled(x, m, x.Now());
    LagIsIgnored(x.S());
    LagRows(x, m, x.Now());
  }

  lemma AllValidated()
    ensures forall t | t in LagInput() :: Validated(t)
  {
  }

  lemma EmptyState(x: Compiler)
    requires x.Valid() && x.rows == [] && x.dag == map[]
    ensures Nothing(x.S())
  {
    assert x.S().forms.Keys <= x.S().dag.Keys;
  }

  lemma OutputKept(x: Compiler)
    requires x.Valid()
    ensures Good(x.S()) && (x.v14 ==> PaddedRows(x.S()))
  {
  }
}

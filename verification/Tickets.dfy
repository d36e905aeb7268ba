/** Why the one-delay ticket each policy derives from a symbolic gate keeps that policy's promise. */
module Tickets {
  import opened Collections
  import opened Timing
  import opened Dominance
  import opened Tops
  import opened Dag
  import opened States

  /** The form has the value of the task's gate plus `extra`, in every legal execution. */
  ghost predicate GateForm(s: State, t: nat, n: Node, f: Form, extra: nat) {
    && Shape(s) && Known(s.dag, t, n.deps)
    && InRange(s.g, f.terms) && TopOf(f.terms) == Lifted(GateTop(s.dag, t, n.deps), extra)
    && forall C: Times, timed: bool | Legal(s.rows, C) ::
         Eval(View(f, timed), C) == Gate(s.dag, t, n.deps, n.release, C, timed) + (if timed then extra else 0)
  }

  /** Dependencies without time of their own leave no lag (and no root beyond the task's release). */
  ghost predicate GateIdle(s: State, t: nat, n: Node, f: Form) {
    && Shape(s) && Known(s.dag, t, n.deps)
    && (AllIdle(s.dag, t, n.deps, false) ==> forall p | p in f.terms :: f.terms[p] == 0)
    && (AllIdle(s.dag, t, n.deps, true) ==> f.root <= n.release)
  }

  ghost predicate Lists(parents: seq<nat>, terms: map<nat, nat>) {
    Ascending(parents) && forall p :: p in parents <==> p in terms
  }

  lemma ListsBelow(parents: seq<nat>, terms: map<nat, nat>, g: Graph)
    requires Lists(parents, terms) && InRange(g, terms)
    ensures Below(parents, |g|)
  {
    forall i | 0 <= i < |parents| ensures parents[i] < |g| {
      assert parents[i] in parents;
    }
  }

  lemma {:induction false} PlainGate(dag: Tasks, t: nat, deps: seq<nat>, release: nat, C: Times)
    requires Closed(dag) && Known(dag, t, deps)
    ensures Gate(dag, t, deps, release, C, false) == Gate(dag, t, deps, 0, C, false)
    decreases |deps|
  {
    if deps != [] {
      PlainGate(dag, t, deps[..|deps| - 1], release, C);
    }
  }

  /** All lagged completions and the root lie below `x` exactly when the gate does. */
  lemma GateBounds(s: State, t: nat, n: Node, f: Form, extra: nat, parents: seq<nat>, C: Times)
    requires Shape(s) && Known(s.dag, t, n.deps) && GateForm(s, t, n, f, extra) && Legal(s.rows, C)
    requires Lists(parents, f.terms)
    ensures forall x :: Bounds(f, C, x) <==> Gate(s.dag, t, n.deps, n.release, C, true) + extra <= x
    ensures Ready(parents, C) == Gate(s.dag, t, n.deps, 0, C, false)
  {
    ReadyIsEval(parents, f, C);
    PlainGate(s.dag, t, n.deps, n.release, C);
    assert View(f, true) == f;
  }

  // ------------------------------------------------------------------ legacy policies

  /** Error policy: one common lag and no uncovered root, or no predecessor at all. */
  lemma ExactTicket(s: State, t: nat, n: Node, f: Form, parents: seq<nat>, ticket: Ticket)
    requires Good(s) && Known(s.dag, t, n.deps) && GateForm(s, t, n, f, n.local) && n.rule == Exactly
    requires Lists(parents, f.terms) && ticket.parents == parents && Covered(s.g, ticket)
    requires parents == [] ==> ticket.delay == f.root
    requires parents != [] ==> f.root == 0 && forall p | p in f.terms :: f.terms[p] == ticket.delay
    ensures Fits(s, t, n, ticket)
  {
    ListsBelow(parents, f.terms, s.g);
    forall C: Times | Legal(s.rows, C) ensures Keeps(s.dag, t, n, Ready(parents, C) + ticket.delay, C) {
      GateBounds(s, t, n, f, n.local, parents, C);
      var start := Ready(parents, C) + ticket.delay;
      var gate := Gate(s.dag, t, n.deps, n.release, C, true) + n.local;
      assert Bounds(f, C, start);
      assert Bounds(f, C, gate);
      if parents != [] {
        assert parents[0] in f.terms && C(parents[0]) <= Ready(parents, C);
        if Ready(parents, C) == 0 {
          assert C(parents[0]) + f.terms[parents[0]] <= gate;
        } else {
          var p :| p in parents && C(p) == Ready(parents, C);
          assert C(p) + f.terms[p] <= gate;
        }
      }
    }
  }

  /** Conservative policy: a delay that covers every lag and pads the root beyond a known floor. */
  lemma LaterTicket(s: State, t: nat, n: Node, f: Form, parents: seq<nat>, pf: nat, ticket: Ticket)
    requires Good(s) && Known(s.dag, t, n.deps) && GateForm(s, t, n, f, n.local) && n.rule == NoEarlier
    requires Lists(parents, f.terms) && ticket.parents == parents && Covered(s.g, ticket)
    requires pf == 0 || exists p | p in parents :: pf <= s.g[p].floor
    requires f.root <= pf + ticket.delay
    requires forall p | p in f.terms :: f.terms[p] <= ticket.delay
    ensures Fits(s, t, n, ticket)
  {
    ListsBelow(parents, f.terms, s.g);
    forall C: Times | Legal(s.rows, C) ensures Keeps(s.dag, t, n, Ready(parents, C) + ticket.delay, C) {
      GateBounds(s, t, n, f, n.local, parents, C);
      if pf != 0 {
        var p :| p in parents && pf <= s.g[p].floor;
        assert s.g[p].floor <= C(p) <= Ready(parents, C);
      }
      assert Bounds(f, C, Ready(parents, C) + ticket.delay);
    }
  }

  /** Some surviving part of the form still enforces the release time. */
  ghost predicate ReleaseKept(g: Graph, f: Form, release: nat)
    requires InRange(g, f.terms)
  {
    release <= f.root ||
    (f.terms.Keys != {} && release <= g[Largest(f.terms.Keys)].floor + f.terms[Largest(f.terms.Keys)])
  }

  /** Max-phase policy: the largest phase alone with its own lag, padded for the root beyond its floor. */
  lemma SelectedTicket(s: State, t: nat, n: Node, f: Form, pf: nat, ticket: Ticket)
    requires Good(s) && Known(s.dag, t, n.deps) && InRange(s.g, f.terms) && n.rule == NotBeforeRelease
    requires TopOf(f.terms) == Lifted(GateTop(s.dag, t, n.deps), n.local)
    requires ReleaseKept(s.g, f, n.release + n.local) && Covered(s.g, ticket)
    requires if f.terms.Keys == {} then ticket.parents == [] && ticket.delay == f.root
             else ticket.parents == [Largest(f.terms.Keys)]
                  && pf <= s.g[Largest(f.terms.Keys)].floor
                  && f.terms[Largest(f.terms.Keys)] <= ticket.delay && f.root <= pf + ticket.delay
    ensures Fits(s, t, n, ticket)
  {
    forall C: Times | Legal(s.rows, C) ensures Keeps(s.dag, t, n, Ready(ticket.parents, C) + ticket.delay, C) {
      if f.terms.Keys != {} {
        var p := Largest(f.terms.Keys);
        assert ticket.parents[0] == p;
        assert s.g[p].floor <= C(p) <= Ready(ticket.parents, C);
      }
    }
  }

  // -------------------------------------------------------------- Prefill and Decode

  ghost predicate NoLags(f: Form) {
    forall p | p in f.terms :: f.terms[p] == 0
  }

  /** The start of a Prefill row against the gate it came from, in one execution. */
  lemma PrefillStart(g: Graph, f: Form, parents: seq<nat>, pf: nat, local: nat, C: Times)
    requires Lists(parents, f.terms) && InRange(g, f.terms) && Consistent(g, C)
    requires pf == 0 || exists p | p in parents :: pf <= g[p].floor
    ensures var start := Ready(parents, C) + Max(0, f.root - pf) + local;
      && start >= Max(f.root, Ready(parents, C)) + local
      && (NoLags(f) ==> start >= Eval(f, C) + local)
      && (NoLags(f) && f.root == 0 ==> start == Eval(f, C) + local)
  {
    if pf != 0 {
      var p :| p in parents && pf <= g[p].floor;
      assert g[p].floor <= C(p) <= Ready(parents, C);
    }
    if NoLags(f) {
      assert Bounds(f, C, Ready(parents, C) + Max(0, f.root - pf));
      if f.root == 0 {
        ReadyIsEval(parents, f, C);
        assert View(f, false) == f;
      }
    }
  }

  /** What the delay adds to the local time only brings the earliest known start up to the root. */
  ghost predicate PadsOnlyRoot(g: Graph, ticket: Ticket, root: nat, local: nat) {
    && (ticket.parents == [] ==> ticket.delay == root + local)
    && forall p | p in ticket.parents :: p < |g| && g[p].floor + ticket.delay <= Max(root, g[p].floor) + local
  }

  lemma PrefillPads(g: Graph, ticket: Ticket, root: nat, floor: nat, local: nat)
    requires ticket.delay == Max(0, root - floor) + local && ticket.floor == Max(root, floor) + local
    requires forall p | p in ticket.parents :: p < |g| && g[p].floor <= floor
    requires ticket.parents == [] ==> floor == 0
    ensures PadsOnlyRoot(g, ticket, root, local) && Tight(g, ticket)
  {
  }

  lemma PrefillKeeps(s: State, t: nat, n: Node, f: Form, parents: seq<nat>, pf: nat, C: Times)
    requires Shape(s) && Known(s.dag, t, n.deps) && GateIdle(s, t, n, f) && Lists(parents, f.terms)
    requires n.rule == AfterAll && n.release <= f.root && InRange(s.g, f.terms) && Consistent(s.g, C)
    requires pf == 0 || exists p | p in parents :: pf <= s.g[p].floor
    requires Eval(f, C) == Gate(s.dag, t, n.deps, n.release, C, true)
    requires Ready(parents, C) == Gate(s.dag, t, n.deps, 0, C, false)
    ensures Keeps(s.dag, t, n, Ready(parents, C) + Max(0, f.root - pf) + n.local, C)
  {
    PrefillStart(s.g, f, parents, pf, n.local, C);
    if AllIdle(s.dag, t, n.deps, true) {
      AllIdleWeakens(s, t, n.deps);
    }
  }

  /** Prefill: every predecessor phase, padded for the root beyond their floors; lags are not looked at. */
  lemma PrefillTicket(s: State, t: nat, n: Node, f: Form, parents: seq<nat>, pf: nat, ticket: Ticket)
    requires Good(s) && Known(s.dag, t, n.deps) && GateForm(s, t, n, f, 0) && GateIdle(s, t, n, f)
    requires n.rule == AfterAll && n.release <= f.root
    requires Lists(parents, f.terms) && ticket.parents == parents && Covered(s.g, ticket)
    requires pf == 0 || exists p | p in parents :: pf <= s.g[p].floor
    requires ticket.delay == Max(0, f.root - pf) + n.local
    ensures Fits(s, t, n, ticket)
  {
    ListsBelow(parents, f.terms, s.g);
    forall C: Times | Legal(s.rows, C) ensures Keeps(s.dag, t, n, Ready(parents, C) + ticket.delay, C) {
      ReadyIsEval(parents, f, C);
      PlainGate(s.dag, t, n.deps, n.release, C);
      assert View(f, true) == f;
      PrefillKeeps(s, t, n, f, parents, pf, C);
    }
  }

  lemma {:induction false} IdleWeakens(dag: Tasks, t: nat)
    requires Closed(dag) && t in dag && Idle(dag, t, true)
    ensures Idle(dag, t, false)
    decreases t
  {
    if dag[t].kind.Folded? {
      forall i | 0 <= i < |dag[t].deps| ensures Idle(dag, dag[t].deps[i], false) {
        IdleWeakens(dag, dag[t].deps[i]);
      }
    }
  }

  lemma AllIdleWeakens(s: State, t: nat, deps: seq<nat>)
    requires Shape(s) && Known(s.dag, t, deps) && AllIdle(s.dag, t, deps, true)
    ensures AllIdle(s.dag, t, deps, false)
  {
    forall i | 0 <= i < |deps| ensures Idle(s.dag, deps[i], false) {
      IdleWeakens(s.dag, deps[i]);
    }
  }

  /** The largest known floor of the gate's phases. */
  ghost predicate LargestFloor(g: Graph, terms: map<nat, nat>, floor: nat) {
    && InRange(g, terms) && (forall p | p in terms :: g[p].floor <= floor)
    && exists p | p in terms :: g[p].floor == floor
  }

  lemma FloorIsLargest(g: Graph, terms: map<nat, nat>, parents: seq<nat>, floor: nat)
    requires Lists(parents, terms) && InRange(g, terms)
    requires forall p | p in parents :: p < |g| && g[p].floor <= floor
    requires floor == 0 || exists p | p in parents :: p < |g| && floor == g[p].floor
    ensures if terms.Keys != {} then LargestFloor(g, terms, floor) else floor == 0
  {
    if floor == 0 && terms.Keys != {} {
      var p :| p in terms.Keys;
      assert p in parents && g[p].floor == 0;
    }
  }

  /** Decode: exactly all predecessor phases and the local delay; `kept` is the pruned gate. */
  lemma DecodeTicket(s: State, t: nat, n: Node, f: Form, kept: map<nat, nat>, ticket: Ticket)
    requires Good(s) && Known(s.dag, t, n.deps) && GateForm(s, t, n, f, 0) && n.rule == JustAfterAll
    requires kept == Kept(s.g, f.terms) && Lists(ticket.parents, kept)
    requires ticket.delay == n.local && Covered(s.g, ticket)
    ensures Fits(s, t, n, ticket)
  {
    ListsBelow(ticket.parents, kept, s.g);
    forall C: Times | Legal(s.rows, C) ensures Keeps(s.dag, t, n, Ready(ticket.parents, C) + ticket.delay, C) {
      PrunePreserves(s.g, f.root, f.terms, C, false);
      ReadyIsEval(ticket.parents, Form(f.root, kept), C);
      PlainGate(s.dag, t, n.deps, n.release, C);
    }
  }

  /** Decode input Read: the largest of its predecessor phases and nothing else. */
  lemma FrontierTicket(s: State, t: nat, n: Node, f: Form, ticket: Ticket)
    requires Good(s) && Known(s.dag, t, n.deps) && GateForm(s, t, n, f, 0) && n.rule == AtFrontier
    requires f.terms.Keys != {} && ticket.parents == [Largest(f.terms.Keys)]
    requires ticket.delay == n.local && Covered(s.g, ticket)
    ensures Fits(s, t, n, ticket)
  {
    var p := Largest(f.terms.Keys);
    assert p in f.terms;
    forall C: Times | Legal(s.rows, C) ensures Keeps(s.dag, t, n, Ready(ticket.parents, C) + ticket.delay, C) {
      PlainGate(s.dag, t, n.deps, n.release, C);
      var v := View(f, false);
      assert Bounds(v, C, Eval(v, C));
      assert p in v.terms;
    }
  }

  // ----------------------------------------------------------- merging stored forms

  predicate AllIn(deps: seq<nat>, forms: map<nat, Form>) {
    forall d | d in deps :: d in forms
  }

  function FormAt(forms: map<nat, Form>, d: nat): Form {
    if d in forms then forms[d] else Form(0, map[])
  }

  /** The phase is one of those some dependency's stored form waits for. */
  ghost predicate SealedBy(forms: map<nat, Form>, deps: seq<nat>, p: nat) {
    exists d :: d in deps && d in forms && p in forms[d].terms
  }

  /** The stored forms of several dependencies in one, whole or, for a batch begin, the largest phase of each. */
  function Merged(forms: map<nat, Form>, deps: seq<nat>, root: nat, thin: bool): Form {
    if deps == [] then Form(root, map[])
    else
      var last := |deps| - 1;
      var f := FormAt(forms, deps[last]);
      Merge(Merged(forms, deps[..last], root, thin), if thin then Frontier(f) else f)
  }

  lemma {:induction false} MergedSame(forms: map<nat, Form>, forms': map<nat, Form>, deps: seq<nat>, root: nat,
                                      thin: bool)
    requires forall d | d in deps :: d in forms && d in forms' && forms[d] == forms'[d]
    ensures Merged(forms, deps, root, thin) == Merged(forms', deps, root, thin)
  {
    if deps != [] {
      MergedSame(forms, forms', deps[..|deps| - 1], root, thin);
    }
  }

  /** A batch begin's gate: exactly the largest phase of each dependency. */
  lemma {:induction false} FrontsForm(s: State, t: nat, deps: seq<nat>, C: Times, timed: bool)
    requires Good(s) && Known(s.dag, t, deps) && AllIn(deps, s.forms)
    ensures Eval(View(Merged(s.forms, deps, 0, true), timed), C) == Fronts(s.dag, t, deps, C, timed)
    decreases |deps|
  {
    hide Sound, Meaning, IdleForms, Promises, Eval, View, Merge, Frontier, TopPhase;
    if deps == [] {
      EvalNothing(0, timed, C);
    } else {
      var last := |deps| - 1;
      var f := s.forms[deps[last]];
      FrontsForm(s, t, deps[..last], C, timed);
      MergeEval(Merged(s.forms, deps[..last], 0, true), Frontier(f), timed, C);
      FrontierEval(f, C, timed);
    }
  }

  lemma EvalNothing(root: nat, timed: bool, C: Times)
    ensures Eval(View(Form(root, map[]), timed), C) == if timed then root else 0
  {
    var v := View(Form(root, map[]), timed);
    assert v.terms == map[];
  }

  lemma {:induction false} FrontsTop(s: State, t: nat, deps: seq<nat>)
    requires Good(s) && Known(s.dag, t, deps) && AllIn(deps, s.forms)
    ensures TopOf(Merged(s.forms, deps, 0, true).terms) == GateTop(s.dag, t, deps)
    ensures InRange(s.g, Merged(s.forms, deps, 0, true).terms) && Merged(s.forms, deps, 0, true).root == 0
    decreases |deps|
  {
    if deps != [] {
      var last := |deps| - 1;
      var f := s.forms[deps[last]];
      FrontsTop(s, t, deps[..last]);
      MergeTop(Merged(s.forms, deps[..last], 0, true), Frontier(f));
      FrontierTop(f);
    }
  }

  /** Lags in a batch begin's gate are lags of largest phases. */
  lemma {:induction false} FrontsIdle(s: State, t: nat, deps: seq<nat>)
    requires Good(s) && Known(s.dag, t, deps) && AllIn(deps, s.forms)
    requires forall i | 0 <= i < |deps| :: TopPhase(s.dag, deps[i]).Some? ==> TopPhase(s.dag, deps[i]).value.1 == 0
    ensures NoLags(Merged(s.forms, deps, 0, true))
    decreases |deps|
  {
    if deps != [] {
      FrontsIdle(s, t, deps[..|deps| - 1]);
    }
  }

  // ------------------------------------------------------------------- padded Prefill rows

  /** The delay is the local time, and the part of the root beyond the largest known floor. */
  ghost predicate PadsBy(g: Graph, f: Form, delay: nat, local: nat) {
    if f.terms.Keys == {} then delay == f.root + local
    else exists floor: nat :: LargestFloor(g, f.terms, floor) && delay == Max(0, f.root - floor) + local
  }

  /** These dependencies and this delay are what Prefill makes of the gate of task n, whose phases are sealed. */
  ghost predicate Padded(s: State, n: Node, parents: seq<nat>, delay: nat) {
    && AllIn(n.deps, s.forms)
    && var f := Merged(s.forms, n.deps, n.release, false);
       Lists(parents, f.terms) && TermsSealed(s, f.terms) && InRange(s.g, f.terms) && PadsBy(s.g, f, delay, n.local)
  }

  /** All Prefill rows are padded so. */
  ghost predicate PaddedRows(s: State) {
    forall r | r in s.rows && r.dag in s.dag && s.dag[r.dag].rule.AfterAll? :: Padded(s, s.dag[r.dag], r.deps, r.delay)
  }

  lemma PadsWith(g: Graph, f: Form, floor: nat, delay: nat, local: nat)
    requires if f.terms.Keys != {} then LargestFloor(g, f.terms, floor) else floor == 0
    requires delay == Max(0, f.root - floor) + local
    ensures PadsBy(g, f, delay, local)
  {
  }

  lemma PadsKept(g: Graph, g': Graph, f: Form, delay: nat, local: nat)
    requires PadsBy(g, f, delay, local) && InRange(g, f.terms)
    requires forall p | p in f.terms :: p < |g'| && g'[p] == g[p]
    ensures PadsBy(g', f, delay, local)
  {
    if f.terms.Keys != {} {
      var floor: nat :| LargestFloor(g, f.terms, floor) && delay == Max(0, f.root - floor) + local;
      assert LargestFloor(g', f.terms, floor);
    }
  }

  /** A consumed gate keeps its floors. */
  lemma PaddedKept(s: State, s': State, n: Node, parents: seq<nat>, delay: nat)
    requires Padded(s, n, parents, delay) && Frozen(s, s')
    ensures Padded(s', n, parents, delay)
  {
    MergedSame(s.forms, s'.forms, n.deps, n.release, false);
    PadsKept(s.g, s'.g, Merged(s.forms, n.deps, n.release, false), delay, n.local);
  }

  lemma PaddedKind(s: State, n: Node, m: Node, parents: seq<nat>, delay: nat)
    requires m == n.(kind := m.kind)
    ensures Padded(s, n, parents, delay) == Padded(s, m, parents, delay)
  {
  }

  lemma PaddedRowsKept(s: State, s': State)
    requires Shape(s) && PaddedRows(s) && Frozen(s, s') && s'.rows == s.rows
    ensures PaddedRows(s')
  {
    forall r | r in s'.rows && r.dag in s'.dag && s'.dag[r.dag].rule.AfterAll?
      ensures Padded(s', s'.dag[r.dag], r.deps, r.delay)
    {
      PaddedKept(s, s', s.dag[r.dag], r.deps, r.delay);
    }
  }

  lemma PaddedRowsMore(s: State, s': State, t: nat, n: Node, pid: nat, ticket: Ticket, added: seq<Row>)
    requires Shape(s) && PaddedRows(s) && Frozen(s, s') && s'.rows == s.rows + added && Members(added, t, pid, ticket)
    requires t in s'.dag && s'.dag[t] == n && (n.rule.AfterAll? ==> Padded(s, n, ticket.parents, ticket.delay))
    ensures PaddedRows(s')
  {
    hide Padded, WellFounded, Topological;
    forall r | r in s'.rows && r.dag in s'.dag && s'.dag[r.dag].rule.AfterAll?
      ensures Padded(s', s'.dag[r.dag], r.deps, r.delay)
    {
      if r in s.rows {
        PaddedKept(s, s', s.dag[r.dag], r.deps, r.delay);
      } else {
        assert r in added;
        PaddedKept(s, s', n, ticket.parents, ticket.delay);
      }
    }
  }

  // ------------------------------------------------------- gates survive compilation

  /** Merging the form of one more dependency. */
  lemma GateStep(s: State, t: nat, n: Node, deps: seq<nat>, d: nat, f: Form)
    requires Good(s) && d in s.forms && Known(s.dag, t, deps + [d])
    requires Known(s.dag, t, deps) && GateForm(s, t, n.(deps := deps), f, 0)
    ensures GateForm(s, t, n.(deps := deps + [d]), Merge(f, s.forms[d]), 0)
  {
    forall C: Times, timed: bool | Legal(s.rows, C)
      ensures Eval(View(Merge(f, s.forms[d]), timed), C) == Gate(s.dag, t, deps + [d], n.release, C, timed)
    {
      MergeEval(f, s.forms[d], timed, C);
      assert (deps + [d])[..|deps|] == deps;
    }
    MergeTop(f, s.forms[d]);
    assert (deps + [d])[..|deps|] == deps;
  }

  /** Adding a local duration adds it to the gate. */
  lemma ShiftGate(s: State, t: nat, n: Node, f: Form, extra: nat, d: nat)
    requires Good(s) && Known(s.dag, t, n.deps) && GateForm(s, t, n, f, extra)
    ensures GateForm(s, t, n, Shift(f, d), extra + d)
  {
    forall C: Times, timed: bool | Legal(s.rows, C)
      ensures Eval(View(Shift(f, d), timed), C) == Eval(View(f, timed), C) + (if timed then d else 0)
    {
      ShiftEval(f, d, C);
    }
    ShiftTop(f, d);
    LiftTwice(GateTop(s.dag, t, n.deps), extra, d);
  }

  /** The two forms have the same value in every execution the records allow. */
  ghost predicate SameValue(g: Graph, f: Form, f': Form) {
    forall C: Times, timed: bool | Consistent(g, C) :: Eval(View(f, timed), C) == Eval(View(f', timed), C)
  }

  /** `f'` is a normal form of `f`: fewer terms, perhaps no root, and the same value unless compacted. */
  ghost predicate Normal(g: Graph, f: Form, f': Form, compact: bool) {
    && (forall p | p in f'.terms :: p in f.terms && f'.terms[p] == f.terms[p])
    && f'.root <= f.root && TopOf(f'.terms) == TopOf(f.terms)
    && (!compact ==> SameValue(g, f, f'))
  }

  /** A dropped root is enforced by the largest remaining phase. */
  ghost predicate RootCovered(g: Graph, f': Form, root: nat) {
    InRange(g, f'.terms) && ReleaseKept(g, f', root)
  }

  lemma NormalPruned(g: Graph, f: Form)
    requires Topological(g) && InRange(g, f.terms)
    ensures Normal(g, f, Form(f.root, Kept(g, f.terms)), false)
  {
    forall C: Times, timed: bool | Consistent(g, C)
      ensures Eval(View(f, timed), C) == Eval(View(Form(f.root, Kept(g, f.terms)), timed), C)
    {
      PrunePreserves(g, f.root, f.terms, C, timed);
    }
    KeptTop(g, f.terms);
  }

  lemma NormalRootless(g: Graph, f: Form, p: nat)
    requires InRange(g, f.terms) && p in f.terms && f.root <= g[p].floor + f.terms[p]
    ensures Normal(g, f, Form(0, f.terms), false)
  {
    forall C: Times, timed: bool | Consistent(g, C)
      ensures Eval(View(f, timed), C) == Eval(View(Form(0, f.terms), timed), C)
    {
      if timed {
        SameBounds(f, Form(0, f.terms), C);
      } else {
        assert View(Form(0, f.terms), false) == View(f, false);
      }
    }
  }

  lemma NormalSelf(g: Graph, f: Form)
    ensures Normal(g, f, f, false)
  {
  }

  lemma NormalTransitive(g: Graph, a: Form, b: Form, c: Form)
    requires Normal(g, a, b, false) && Normal(g, b, c, false)
    ensures Normal(g, a, c, false)
  {
  }

  /** Normalising keeps the gate. */
  lemma NormalGate(s: State, t: nat, n: Node, f: Form, f': Form, extra: nat)
    requires Good(s) && GateForm(s, t, n, f, extra) && Normal(s.g, f, f', false)
    ensures GateForm(s, t, n, f', extra)
  {
  }

  // ------------------------------------------------------------ accepted exactly when

  /** The lags of a gate in one glance: their maximum, and whether they differ. */
  ghost predicate LagFacts(terms: map<nat, nat>, common: nat, mixed: bool) {
    && (forall p | p in terms :: terms[p] <= common)
    && (mixed <==> exists p | p in terms :: terms[p] != common)
    && (terms.Keys != {} ==> exists p | p in terms :: terms[p] == common)
  }

  lemma MixedMeans(terms: map<nat, nat>, common: nat, mixed: bool)
    ensures LagFacts(terms, common, mixed) && terms.Keys != {} ==>
              (mixed <==> exists p, q | p in terms && q in terms :: terms[p] != terms[q])
  {
  }

  lemma ListsSorted(parents: seq<nat>, terms: map<nat, nat>)
    requires Lists(parents, terms)
    ensures parents == Sorted(terms.Keys)
  {
    AscendingUnique(parents, Sorted(terms.Keys));
  }

  function CommonLag(terms: map<nat, nat>): (common: nat)
    requires terms.Keys != {}
    ensures forall p | p in terms :: terms[p] <= common
    ensures exists p | p in terms :: terms[p] == common
  {
    assert exists p :: p in terms && terms[p] in terms.Values;
    assert forall p | p in terms :: terms[p] in terms.Values;
    Largest(terms.Values)
  }

  // --------------------------------------------------------------------- max-phase forms

  /** The known floor of some phase, and the lag after it, already enforce the root. */
  ghost predicate Coverable(g: Graph, f: Form) {
    exists p | p in f.terms :: p < |g| && f.root <= g[p].floor + f.terms[p]
  }

  /** Max-phase: the root goes once the largest phase's known floor and lag cover it. */
  function RootlessMax(g: Graph, f: Form): (out: Form)
    ensures out.terms == f.terms
  {
    if f.terms.Keys != {} && Largest(f.terms.Keys) < |g|
       && f.root <= g[Largest(f.terms.Keys)].floor + f.terms[Largest(f.terms.Keys)]
    then Form(0, f.terms) else f
  }

  /** The largest phase alone: no other can dominate it. */
  function Compacted(f: Form): (out: Form)
    ensures forall p | p in out.terms :: p in f.terms && out.terms[p] == f.terms[p]
    ensures TopOf(out.terms) == TopOf(f.terms) && out.root == f.root && out.terms == Frontier(out).terms
  {
    FrontierTop(f);
    Form(f.root, Frontier(f).terms)
  }

  /** The one dependency and delay that max-phase selects from a gate. */
  function Selection(g: Graph, f: Form): Ticket
    requires InRange(g, f.terms)
  {
    if f.terms.Keys == {} then Ticket([], f.root, f.root)
    else
      var p := Largest(f.terms.Keys);
      var delay := Max(f.terms[p], Max(0, f.root - g[p].floor));
      Ticket([p], delay, g[p].floor + delay)
  }

  // ------------------------------------------------------------------------ thinned forms

  /** Eager max-phase: the largest phase of all dependencies, its root dropped once a known floor covers it. */
  function EagerForm(g: Graph, forms: map<nat, Form>, deps: seq<nat>, release: nat, local: nat): Form {
    RootlessMax(g, Compacted(Shift(Merged(forms, deps, release, false), local)))
  }

  /** A thinned form is made of the stored forms of its dependencies, and of nothing else. */
  ghost predicate DerivedAt(g: Graph, forms: map<nat, Form>, n: Node, f: Form) {
    match n.kind
    case Begin => AllIn(n.deps, forms) && f == Shift(Merged(forms, n.deps, 0, true), n.local)
    case Compact(root) => AllIn(n.deps, forms) && f == EagerForm(g, forms, n.deps, n.release, n.local) && root == f.root
    case _ => true
  }

  /** All thinned forms are; the phases of the eagerly compacted ones are sealed. */
  ghost predicate Derived(s: State) {
    forall t | t in s.forms && t in s.dag ::
      && DerivedAt(s.g, s.forms, s.dag[t], s.forms[t])
      && (s.dag[t].kind.Compact? ==> TermsSealed(s, s.forms[t].terms))
  }

  /** What a thinned form was made of does not change. */
  lemma DerivedStays(g: Graph, forms: map<nat, Form>, g': Graph, forms': map<nat, Form>, n: Node, f: Form)
    requires DerivedAt(g, forms, n, f)
    requires forall t | t in forms :: t in forms' && forms'[t] == forms[t]
    requires n.kind.Compact? ==> forall p | p in f.terms :: p < |g| && p < |g'| && g'[p] == g[p]
    ensures DerivedAt(g', forms', n, f)
  {
    if n.kind.Begin? || n.kind.Compact? {
      MergedSame(forms, forms', n.deps, 0, true);
      MergedSame(forms, forms', n.deps, n.release, false);
    }
    if n.kind.Compact? && f.terms.Keys != {} {
      assert Largest(f.terms.Keys) in f.terms;
    }
  }

  lemma DerivedKept(s: State, s': State)
    requires Shape(s) && Derived(s) && Frozen(s, s') && s'.forms == s.forms
    ensures Derived(s')
  {
    forall t | t in s'.forms && t in s'.dag
      ensures DerivedAt(s'.g, s'.forms, s'.dag[t], s'.forms[t])
      ensures s'.dag[t].kind.Compact? ==> TermsSealed(s', s'.forms[t].terms)
    {
      DerivedStays(s.g, s.forms, s'.g, s'.forms, s.dag[t], s.forms[t]);
    }
  }

  lemma DerivedMore(s: State, t: nat, f: Form)
    requires Shape(s) && Derived(s) && t in s.dag && t !in s.forms && DerivedAt(s.g, s.forms, s.dag[t], f)
    requires s.dag[t].kind.Compact? ==> TermsSealed(s, f.terms) && InRange(s.g, f.terms)
    ensures Derived(WithForm(s, t, f))
  {
    var s' := WithForm(s, t, f);
    forall u | u in s'.forms && u in s'.dag
      ensures DerivedAt(s'.g, s'.forms, s'.dag[u], s'.forms[u])
      ensures s'.dag[u].kind.Compact? ==> TermsSealed(s', s'.forms[u].terms)
    {
      DerivedStays(s.g, s.forms, s'.g, s'.forms, s.dag[u], if u == t then f else s.forms[u]);
    }
  }

  /** A batch begin's form has the value of its task: the largest phase of each dependency, and its own duration. */
  lemma BeginFits(s: State, t: nat, f: Form)
    requires Good(s) && t in s.dag && s.dag[t].kind.Begin? && DerivedAt(s.g, s.forms, s.dag[t], f)
    ensures FormFits(s, t, f)
  {
    var n := s.dag[t];
    var m := Merged(s.forms, n.deps, 0, true);
    FrontsTop(s, t, n.deps);
    ShiftTop(m, n.local);
    forall C: Times, timed: bool | Legal(s.rows, C) ensures Eval(View(f, timed), C) == Done(s.dag, t, C, timed) {
      FrontsForm(s, t, n.deps, C, timed);
      ShiftEval(m, n.local, C);
      assert View(f, true) == f && View(m, true) == m;
    }
    BeginIdle(s, t, f);
  }

  lemma BeginIdle(s: State, t: nat, f: Form)
    requires Good(s) && t in s.dag && s.dag[t].kind.Begin? && DerivedAt(s.g, s.forms, s.dag[t], f)
    ensures Idle(s.dag, t, false) ==> NoLags(f)
    ensures Idle(s.dag, t, true) ==> f.root == 0
  {
    var n := s.dag[t];
    FrontsTop(s, t, n.deps);
    if Idle(s.dag, t, false) {
      FrontsIdle(s, t, n.deps);
      if n.local != 0 {
        assert GateTop(s.dag, t, n.deps).None? by { NoTops(s.dag, t, n.deps); }
      }
    }
  }

  lemma {:induction false} NoTops(dag: Tasks, t: nat, deps: seq<nat>)
    requires Closed(dag) && Known(dag, t, deps) && forall i | 0 <= i < |deps| :: TopPhase(dag, deps[i]).None?
    ensures GateTop(dag, t, deps).None?
    decreases |deps|
  {
    if deps != [] {
      NoTops(dag, t, deps[..|deps| - 1]);
    }
  }

  /** An eagerly compacted form has the value of its task. */
  lemma CompactFits(s: State, t: nat, m: Form, f: Form)
    requires Good(s) && t in s.dag && s.dag[t].kind == Compact(f.root) && InRange(s.g, m.terms)
    requires TopOf(m.terms) == GateTop(s.dag, t, s.dag[t].deps)
    requires f == RootlessMax(s.g, Compacted(Shift(m, s.dag[t].local)))
    ensures FormFits(s, t, f)
  {
    var shifted := Shift(m, s.dag[t].local);
    ShiftTop(m, s.dag[t].local);
    var compacted := Compacted(shifted);
    assert f.terms == compacted.terms && Frontier(f).terms == Frontier(compacted).terms;
    forall C: Times, timed: bool | Legal(s.rows, C) ensures Eval(View(f, timed), C) == Done(s.dag, t, C, timed) {
      LoneEval(f, C, timed);
    }
    forall p | p in f.terms ensures f.terms.Keys != {} && p == Largest(f.terms.Keys) {
      assert p in Frontier(f).terms;
    }
  }
}

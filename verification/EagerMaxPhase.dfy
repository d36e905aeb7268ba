/** Keeping one phase at every step selects the same dependency as carrying all of them and selecting last. */
module EagerMaxPhase {
  import opened Collections
  import opened Timing
  import opened Dominance
  import opened Tops
  import opened Dag
  import opened States
  import opened Tickets

  /** A stored form as it is, or local work that folds its dependencies. */
  datatype Work = Given(form: Form) | Local(deps: seq<Work>, release: nat, duration: nat)

  ghost predicate OnGraph(g: Graph, w: Work) {
    match w
    case Given(form) => InRange(g, form.terms)
    case Local(deps, _, _) => forall i | 0 <= i < |deps| :: OnGraph(g, deps[i])
  }

  /** The form of a piece of work, carrying all pruned terms or compacting at every step. */
  ghost function FormOf(g: Graph, w: Work, eager: bool): (f: Form)
    requires OnGraph(g, w)
    ensures InRange(g, f.terms)
    decreases w, 1
  {
    match w
    case Given(form) => form
    case Local(deps, release, duration) =>
      var shifted := Shift(Gathering(g, deps, release, eager, w), duration);
      RootlessMax(g, if eager then Compacted(shifted) else Form(shifted.root, Kept(g, shifted.terms)))
  }

  ghost function Gathering(g: Graph, deps: seq<Work>, release: nat, eager: bool, owner: Work): (f: Form)
    requires forall i | 0 <= i < |deps| :: OnGraph(g, deps[i]) && deps[i] < owner
    ensures InRange(g, f.terms)
    decreases owner, 0, |deps|
  {
    if deps == [] then Form(release, map[])
    else
      var last := |deps| - 1;
      Merge(Gathering(g, deps[..last], release, eager, owner), FormOf(g, deps[last], eager))
  }

  /** All that max-phase, a batch begin or a Decode input Read ever looks at. */
  ghost predicate Alike(e: Form, l: Form) {
    e.root == l.root && TopOf(e.terms) == TopOf(l.terms)
  }

  /** Step by step, the compacted form and the full form look alike to max-phase. */
  lemma {:induction false} FormsAlike(g: Graph, w: Work)
    requires Topological(g) && OnGraph(g, w)
    ensures Alike(FormOf(g, w, true), FormOf(g, w, false))
    decreases w, 1
  {
    if w.Local? {
      GatheringAlike(g, w.deps, w.release, w);
      var e, l := Gathering(g, w.deps, w.release, true, w), Gathering(g, w.deps, w.release, false, w);
      ShiftTop(e, w.duration);
      ShiftTop(l, w.duration);
      KeptTop(g, Shift(l, w.duration).terms);
    }
  }

  lemma {:induction false} GatheringAlike(g: Graph, deps: seq<Work>, release: nat, owner: Work)
    requires Topological(g) && forall i | 0 <= i < |deps| :: OnGraph(g, deps[i]) && deps[i] < owner
    ensures Alike(Gathering(g, deps, release, true, owner), Gathering(g, deps, release, false, owner))
    decreases owner, 0, |deps|
  {
    if deps != [] {
      var last := |deps| - 1;
      GatheringAlike(g, deps[..last], release, owner);
      FormsAlike(g, deps[last]);
      MergeTop(Gathering(g, deps[..last], release, true, owner), FormOf(g, deps[last], true));
      MergeTop(Gathering(g, deps[..last], release, false, owner), FormOf(g, deps[last], false));
    }
  }

  /** Compacting eagerly is exact for max-phase: same selected phase, same delay, same floor. */
  lemma EagerSelectsTheSame(g: Graph, w: Work)
    requires Topological(g) && OnGraph(g, w)
    ensures Selection(g, FormOf(g, w, true)) == Selection(g, FormOf(g, w, false))
  {
    FormsAlike(g, w);
  }

  // ------------------------------------------------------------- the stored forms of a run

  /** What the stored form of task t was made of, down to the forms that were not compacted. */
  ghost function WorkOf(s: State, t: nat): Work
    requires Closed(s.dag) && t in s.dag
    decreases t, 1
  {
    var n := s.dag[t];
    if n.kind.Compact? then Local(WorksOf(s, t, n.deps), n.release, n.local) else Given(FormAt(s.forms, t))
  }

  ghost function WorksOf(s: State, t: nat, deps: seq<nat>): (works: seq<Work>)
    requires Closed(s.dag) && Known(s.dag, t, deps)
    ensures |works| == |deps|
    decreases t, 0, |deps|
  {
    if deps == [] then [] else WorksOf(s, t, deps[..|deps| - 1]) + [WorkOf(s, deps[|deps| - 1])]
  }

  lemma {:induction false} WorkOnGraph(s: State, t: nat)
    requires Shape(s) && t in s.dag
    ensures OnGraph(s.g, WorkOf(s, t))
    decreases t, 1
  {
    if s.dag[t].kind.Compact? {
      WorksOnGraph(s, t, s.dag[t].deps);
    }
  }

  lemma {:induction false} WorksOnGraph(s: State, t: nat, deps: seq<nat>)
    requires Shape(s) && Known(s.dag, t, deps)
    ensures forall i | 0 <= i < |deps| :: OnGraph(s.g, WorksOf(s, t, deps)[i])
    decreases t, 0, |deps|
  {
    if deps != [] {
      WorksOnGraph(s, t, deps[..|deps| - 1]);
      WorkOnGraph(s, deps[|deps| - 1]);
    }
  }

  /** Every form a run keeps is the eagerly compacted form of what it was made of. */
  lemma {:induction false} StoredIsEager(s: State, t: nat)
    requires Shape(s) && Derived(s) && t in s.forms
    ensures OnGraph(s.g, WorkOf(s, t)) && s.forms[t] == FormOf(s.g, WorkOf(s, t), true)
    decreases t, 1
  {
    WorkOnGraph(s, t);
    var n := s.dag[t];
    if n.kind.Compact? {
      assert DerivedAt(s.g, s.forms, n, s.forms[t]);
      WorksOnGraph(s, t, n.deps);
      StoredGathering(s, t, n.deps, n.release, WorkOf(s, t));
    }
  }

  lemma {:induction false} StoredGathering(s: State, t: nat, deps: seq<nat>, release: nat, owner: Work)
    requires Shape(s) && Derived(s) && Known(s.dag, t, deps) && AllIn(deps, s.forms)
    requires forall i | 0 <= i < |deps| :: OnGraph(s.g, WorksOf(s, t, deps)[i]) && WorksOf(s, t, deps)[i] < owner
    ensures Gathering(s.g, WorksOf(s, t, deps), release, true, owner) == Merged(s.forms, deps, release, false)
    decreases t, 0, |deps|
  {
    hide Merge, FormOf, WorkOf, WellFounded, Topological, Derived, OnGraph, Home;
    if deps != [] {
      var last := |deps| - 1;
      var works := WorksOf(s, t, deps);
      assert works[..last] == WorksOf(s, t, deps[..last]) && works[last] == WorkOf(s, deps[last]);
      forall i | 0 <= i < last ensures OnGraph(s.g, works[..last][i]) && works[..last][i] < owner {
        assert works[..last][i] == works[i];
      }
      StoredGathering(s, t, deps[..last], release, owner);
      StoredIsEager(s, deps[last]);
    }
  }

  /** The compacted forms of a run look to every later row that selects one phase like the forms that would have
      carried all of them. */
  lemma StoredSelectsTheSame(s: State, t: nat)
    requires Shape(s) && Derived(s) && t in s.forms
    ensures OnGraph(s.g, WorkOf(s, t)) && Alike(s.forms[t], FormOf(s.g, WorkOf(s, t), false))
    ensures Frontier(s.forms[t]) == Frontier(FormOf(s.g, WorkOf(s, t), false))
    ensures Selection(s.g, s.forms[t]) == Selection(s.g, FormOf(s.g, WorkOf(s, t), false))
  {
    StoredIsEager(s, t);
    FormsAlike(s.g, WorkOf(s, t));
  }
}

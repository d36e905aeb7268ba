/** The largest phase of a gate and its lag: all that a frontier or a max-phase selection looks at. */
module Tops {
  import opened Collections
  import opened Timing
  import opened Dominance

  /** A phase and the lag after it. */
  type Top = Option<(nat, nat)>

  function TopOf(terms: map<nat, nat>): Top {
    if terms.Keys == {} then None
    else Some((Largest(terms.Keys), terms[Largest(terms.Keys)]))
  }

  /** Of two the larger phase; of equal phases the larger lag. */
  function Higher(a: Top, b: Top): Top {
    if a.None? then b
    else if b.None? then a
    else if a.value.0 > b.value.0 then a
    else if a.value.0 < b.value.0 then b
    else Some((a.value.0, Max(a.value.1, b.value.1)))
  }

  function Lifted(a: Top, d: nat): Top {
    if a.None? then None else Some((a.value.0, a.value.1 + d))
  }

  /** When the phase is complete, and with `timed` its lag over. */
  function Reached(a: Top, C: Times, timed: bool): nat {
    if a.None? then 0 else C(a.value.0) + if timed then a.value.1 else 0
  }

  /** The largest phase of a merge, and its lag, come from the largest phases merged. */
  lemma MergeTop(f: Form, f': Form)
    ensures TopOf(Merge(f, f').terms) == Higher(TopOf(f.terms), TopOf(f'.terms))
  {
    var m := Merge(f, f');
    assert m.terms.Keys == f.terms.Keys + f'.terms.Keys;
    if m.terms.Keys != {} {
      assert Largest(m.terms.Keys) in m.terms;
    }
  }

  lemma ShiftTop(f: Form, d: nat)
    ensures TopOf(Shift(f, d).terms) == Lifted(TopOf(f.terms), d)
  {
    assert Shift(f, d).terms.Keys == f.terms.Keys;
  }

  /** Pruning never drops the largest phase. */
  lemma KeptTop(g: Graph, terms: map<nat, nat>)
    requires Topological(g) && InRange(g, terms)
    ensures TopOf(Kept(g, terms)) == TopOf(terms)
  {
    assert Kept(g, terms).Keys <= terms.Keys;
    if terms.Keys != {} {
      LargestIsKept(g, terms);
    }
  }

  lemma LiftTwice(a: Top, d: nat, e: nat)
    ensures Lifted(Lifted(a, d), e) == Lifted(a, d + e)
  {
  }

  /** The largest phase alone. */
  function Frontier(f: Form): Form {
    match TopOf(f.terms)
    case None => Form(0, map[])
    case Some(top) => Form(0, map[top.0 := top.1])
  }

  lemma FrontierTop(f: Form)
    ensures TopOf(Frontier(f).terms) == TopOf(f.terms)
  {
    if f.terms.Keys != {} {
      var p := Largest(f.terms.Keys);
      assert Frontier(f).terms.Keys == {p};
    }
  }

  /** A gate over one phase, or none, and its root. */
  lemma LoneEval(f: Form, C: Times, timed: bool)
    requires f.terms == Frontier(f).terms
    ensures Eval(View(f, timed), C) == Max(if timed then f.root else 0, Reached(TopOf(f.terms), C, timed))
  {
    var v := View(f, timed);
    assert Bounds(v, C, Eval(v, C));
    if f.terms.Keys == {} {
      assert v.terms == map[];
    } else {
      var p := Largest(f.terms.Keys);
      assert f.terms == map[p := f.terms[p]];
      assert p in v.terms;
      assert Bounds(v, C, Max(if timed then f.root else 0, Reached(TopOf(f.terms), C, timed)));
    }
  }

  lemma FrontierEval(f: Form, C: Times, timed: bool)
    ensures Eval(View(Frontier(f), timed), C) == Reached(TopOf(f.terms), C, timed)
  {
    FrontierTop(f);
    LoneEval(Frontier(f), C, timed);
  }
}

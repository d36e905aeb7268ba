/** Weighted dominance between the terms of a gate: what `prune` may drop, and why. */
module Dominance {
  import opened Collections
  import opened Timing

  /** A descending chain of phases, each a parent of the one before. */
  datatype Chain = From(source: nat) | Via(rest: Chain, to: nat)

  function Source(c: Chain): nat {
    match c
    case From(q) => q
    case Via(rest, _) => Source(rest)
  }

  function End(c: Chain): nat {
    match c
    case From(q) => q
    case Via(_, p) => p
  }

  ghost predicate InGraph(g: Graph, c: Chain) {
    match c
    case From(q) => q < |g|
    case Via(rest, p) => InGraph(g, rest) && End(rest) < |g| && p in g[End(rest)].parents
  }

  /** Total delay of the phases left behind along the chain. */
  ghost function Weight(g: Graph, c: Chain): nat
    requires InGraph(g, c)
  {
    match c
    case From(_) => 0
    case Via(rest, _) => Weight(g, rest) + g[End(rest)].delay
  }

  /** The chain starts at another term, ends at p, and carries a threshold of at least p's own lag. */
  ghost predicate Beats(g: Graph, terms: map<nat, nat>, p: nat, c: Chain) {
    c.Via? && InGraph(g, c) && End(c) == p && Source(c) in terms && p in terms &&
    terms[Source(c)] + Weight(g, c) >= terms[p]
  }

  ghost predicate Dominated(g: Graph, terms: map<nat, nat>, p: nat) {
    exists c :: Beats(g, terms, p, c)
  }

  /** The terms that no other term dominates. */
  ghost function Kept(g: Graph, terms: map<nat, nat>): map<nat, nat> {
    map p | p in terms && !Dominated(g, terms, p) :: terms[p]
  }

  ghost predicate InRange(g: Graph, terms: map<nat, nat>) {
    forall p | p in terms :: p < |g|
  }

  // ------------------------------------------------------------------ chains

  lemma {:induction false} ChainDescends(g: Graph, c: Chain)
    requires Topological(g) && InGraph(g, c)
    ensures End(c) <= Source(c) < |g| && (c.Via? ==> End(c) < Source(c))
  {
    if c.Via? {
      ChainDescends(g, c.rest);
    }
  }

  lemma {:induction false} ChainDelays(g: Graph, c: Chain, C: Times)
    requires InGraph(g, c) && Consistent(g, C)
    ensures C(End(c)) + Weight(g, c) <= C(Source(c))
  {
    if c.Via? {
      ChainDelays(g, c.rest, C);
    }
  }

  // ------------------------------------------------- pruning preserves the value

  /** Every term is covered by a kept one, with and without its lag. */
  lemma {:induction false} KeptCovers(g: Graph, terms: map<nat, nat>, C: Times, p: nat) returns (k: nat)
    requires Topological(g) && Consistent(g, C) && InRange(g, terms) && p in terms
    ensures k in Kept(g, terms)
    ensures C(p) + terms[p] <= C(k) + terms[k] && C(p) <= C(k)
    decreases |g| - p
  {
    k := p;
    if Dominated(g, terms, p) {
      var c :| Beats(g, terms, p, c);
      ChainDescends(g, c);
      ChainDelays(g, c, C);
      k := KeptCovers(g, terms, C, Source(c));
    }
  }

  /** Dropping dominated terms changes neither the weighted gate nor the plain AND of its phases. */
  lemma PrunePreserves(g: Graph, root: nat, terms: map<nat, nat>, C: Times, timed: bool)
    requires Topological(g) && Consistent(g, C) && InRange(g, terms)
    ensures Eval(View(Form(root, Kept(g, terms)), timed), C) == Eval(View(Form(root, terms), timed), C)
  {
    var a, b := View(Form(root, Kept(g, terms)), timed), View(Form(root, terms), timed);
    forall x ensures Bounds(a, C, x) <==> Bounds(b, C, x) {
      if Bounds(a, C, x) {
        forall p | p in b.terms ensures C(p) + b.terms[p] <= x {
          var k := KeptCovers(g, terms, C, p);
          assert k in a.terms;
        }
      }
      if Bounds(b, C, x) {
        forall p | p in a.terms ensures C(p) + a.terms[p] <= x {
          assert p in b.terms;
        }
      }
    }
    SameBounds(a, b, C);
  }

  // ---------------------------------------- nothing smaller would do: minimality

  /** An upper bound on any completion time that only floors and delays force. */
  ghost function Cap(g: Graph, n: nat): nat
    requires n <= |g|
  {
    if n == 0 then 0 else Cap(g, n - 1) + g[n - 1].floor + g[n - 1].delay
  }

  lemma {:induction false} CapGrows(g: Graph, m: nat, n: nat)
    requires m <= n <= |g|
    ensures Cap(g, m) <= Cap(g, n)
  {
    if m < n {
      CapGrows(g, m, n - 1);
    }
  }

  lemma {:induction false} FloorWithinCap(g: Graph, p: nat, n: nat)
    requires p < n <= |g|
    ensures g[p].floor <= Cap(g, n)
  {
    if p < n - 1 {
      FloorWithinCap(g, p, n - 1);
    }
  }

  /** The earliest completion times in which phase `late` is held back until `until`. */
  ghost function Held(g: Graph, late: nat, until: nat, q: nat): nat
    requires Topological(g)
    decreases q, 1
  {
    if q >= |g| then 0
    else Max(if q == late then until else 0,
             Max(g[q].floor, HeldReady(g, late, until, q, g[q].parents)))
  }

  ghost function HeldReady(g: Graph, late: nat, until: nat, q: nat, parents: seq<nat>): nat
    requires Topological(g) && q < |g| && Below(parents, q)
    decreases q, 0, |parents|
  {
    if parents == [] then 0
    else Max(Held(g, late, until, parents[0]) + g[q].delay, HeldReady(g, late, until, q, parents[1..]))
  }

  ghost function HeldTimes(g: Graph, late: nat, until: nat): Times
    requires Topological(g)
  {
    (q: nat) => Held(g, late, until, q)
  }

  lemma {:induction false} HeldReadyCovers(g: Graph, late: nat, until: nat, q: nat, parents: seq<nat>, p: nat)
    requires Topological(g) && q < |g| && Below(parents, q) && p in parents
    ensures Held(g, late, until, p) + g[q].delay <= HeldReady(g, late, until, q, parents)
    decreases |parents|
  {
    if p != parents[0] {
      HeldReadyCovers(g, late, until, q, parents[1..], p);
    }
  }

  lemma HeldIsConsistent(g: Graph, late: nat, until: nat)
    requires Topological(g)
    ensures Consistent(g, HeldTimes(g, late, until))
  {
    var C := HeldTimes(g, late, until);
    forall q, p | 0 <= q < |g| && p in g[q].parents ensures C(p) + g[q].delay <= C(q) {
      HeldReadyCovers(g, late, until, q, g[q].parents, p);
    }
  }

  /** A phase held later than the cap is a descendant of `late`, and late by exactly a chain's weight. */
  ghost predicate Delayed(g: Graph, late: nat, until: nat, q: nat, v: nat) {
    exists c :: InGraph(g, c) && Source(c) == q && End(c) == late && v == until + Weight(g, c)
  }

  /** A chain extended at its source. */
  function Extend(q: nat, c: Chain): Chain {
    match c
    case From(p) => Via(From(q), p)
    case Via(rest, p) => Via(Extend(q, rest), p)
  }

  lemma {:induction false} ExtendChain(g: Graph, q: nat, c: Chain)
    requires q < |g| && InGraph(g, c) && Source(c) in g[q].parents
    ensures InGraph(g, Extend(q, c)) && Source(Extend(q, c)) == q && End(Extend(q, c)) == End(c)
    ensures Weight(g, Extend(q, c)) == Weight(g, c) + g[q].delay
  {
    if c.Via? {
      ExtendChain(g, q, c.rest);
    }
  }

  lemma {:induction false} HeldBound(g: Graph, late: nat, until: nat, q: nat)
    requires Topological(g) && q < |g| && Cap(g, |g|) <= until
    ensures Held(g, late, until, q) <= Cap(g, q + 1) || Delayed(g, late, until, q, Held(g, late, until, q))
    decreases q, 1
  {
    HeldReadyBound(g, late, until, q, g[q].parents);
    CapGrows(g, q + 1, |g|);
    if q == late && Held(g, late, until, q) == until {
      assert InGraph(g, From(q)) && Weight(g, From(q)) == 0;
    }
  }

  lemma {:induction false} HeldReadyBound(g: Graph, late: nat, until: nat, q: nat, parents: seq<nat>)
    requires Topological(g) && q < |g| && Below(parents, q) && Cap(g, |g|) <= until
    requires forall p | p in parents :: p in g[q].parents
    ensures var v := HeldReady(g, late, until, q, parents);
      v <= Cap(g, q) + g[q].delay || Delayed(g, late, until, q, v)
    decreases q, 0, |parents|
  {
    if parents != [] {
      var p := parents[0];
      HeldBound(g, late, until, p);
      HeldReadyBound(g, late, until, q, parents[1..]);
      CapGrows(g, p + 1, q);
      if Delayed(g, late, until, p, Held(g, late, until, p)) {
        var c :| InGraph(g, c) && Source(c) == p && End(c) == late && Held(g, late, until, p) == until + Weight(g, c);
        ExtendChain(g, q, c);
      }
    }
  }

  /** Minimality: for each kept term some completion times respecting every record make it the strict
      maximum, so no smaller set of terms has the same value in all executions. */
  lemma KeptIsNeeded(g: Graph, terms: map<nat, nat>, p: nat) returns (C: Times)
    requires Topological(g) && InRange(g, terms) && p in Kept(g, terms)
    ensures Consistent(g, C) && Cap(g, |g|) < C(p)
    ensures forall q | q in terms && q != p :: C(q) + terms[q] < C(p) + terms[p]
  {
    var slack := 1 + Eval(Form(0, terms), (q: nat) => 0);
    var until := Cap(g, |g|) + slack;
    C := HeldTimes(g, p, until);
    HeldIsConsistent(g, p, until);
    assert until <= C(p);
    forall q | q in terms && q != p ensures C(q) + terms[q] < C(p) + terms[p] {
      HeldBound(g, p, until, q);
      CapGrows(g, q + 1, |g|);
      assert Bounds(Form(0, terms), (q: nat) => 0, slack - 1);
      if Delayed(g, p, until, q, Held(g, p, until, q)) {
        var c :| InGraph(g, c) && Source(c) == q && End(c) == p && Held(g, p, until, q) == until + Weight(g, c);
        assert !Beats(g, terms, p, c);
      }
    }
  }

  // ----------------------------------- what a cached answer survives: shifts, new phases

  /** The lags of two gates over the same phases differ by one constant. */
  ghost predicate Shifted(terms: map<nat, nat>, terms': map<nat, nat>, d: int) {
    terms.Keys == terms'.Keys && forall p | p in terms :: terms'[p] == terms[p] + d
  }

  /** A uniform shift of the lags keeps the same phases. */
  lemma ShiftKeeps(g: Graph, terms: map<nat, nat>, terms': map<nat, nat>, d: int)
    requires Shifted(terms, terms', d)
    ensures Kept(g, terms).Keys == Kept(g, terms').Keys
  {
    forall p, c ensures Beats(g, terms, p, c) <==> Beats(g, terms', p, c) {
    }
    forall p ensures Dominated(g, terms, p) <==> Dominated(g, terms', p) {
      if Dominated(g, terms, p) {
        var c :| Beats(g, terms, p, c);
        assert Beats(g, terms', p, c);
      }
      if Dominated(g, terms', p) {
        var c :| Beats(g, terms', p, c);
        assert Beats(g, terms, p, c);
      }
    }
  }

  lemma {:induction false} AppendChain(g: Graph, more: Graph, c: Chain)
    requires Topological(g) && Topological(g + more) && Source(c) < |g|
    ensures InGraph(g, c) <==> InGraph(g + more, c)
    ensures InGraph(g, c) ==> Weight(g, c) == Weight(g + more, c)
  {
    if c.Via? {
      AppendChain(g, more, c.rest);
      if InGraph(g + more, c.rest) {
        ChainDescends(g + more, c.rest);
      }
    }
  }

  /** Registering further phases disturbs no earlier answer. */
  lemma AppendKeeps(g: Graph, more: Graph, terms: map<nat, nat>)
    requires Topological(g) && Topological(g + more) && InRange(g, terms)
    ensures Kept(g, terms) == Kept(g + more, terms)
  {
    forall p, c ensures Beats(g, terms, p, c) <==> Beats(g + more, terms, p, c) {
      if Source(c) in terms {
        AppendChain(g, more, c);
      }
    }
    forall p ensures Dominated(g, terms, p) <==> Dominated(g + more, terms, p) {
      if Dominated(g, terms, p) {
        var c :| Beats(g, terms, p, c);
        assert Beats(g + more, terms, p, c);
      }
      if Dominated(g + more, terms, p) {
        var c :| Beats(g + more, terms, p, c);
        assert Beats(g, terms, p, c);
      }
    }
  }

  /** The largest phase is never dropped. */
  lemma LargestIsKept(g: Graph, terms: map<nat, nat>)
    requires Topological(g) && InRange(g, terms) && terms != map[]
    ensures terms.Keys != {} && Largest(terms.Keys) in Kept(g, terms)
    ensures Kept(g, terms).Keys <= terms.Keys
    ensures Largest(Kept(g, terms).Keys) == Largest(terms.Keys)
  {
    var p :| p in terms;
    assert p in terms.Keys;
    var top := Largest(terms.Keys);
    if Dominated(g, terms, top) {
      var c :| Beats(g, terms, top, c);
      assert Source(c) in terms.Keys;
      ChainDescends(g, c);
    }
    assert top in Kept(g, terms).Keys;
  }
}

/** `prune`: exact weighted dominance by one descending pass over the ancestors, behind a bounded cache. */
module Pruning {
  import opened Collections
  import opened Timing
  import opened Dominance
  import opened PhaseTables

  const PRUNE_KEY_TERMS := 8192
  const PRUNE_ENTRIES := 2048

  /** A gate of the traversal: an interned parent vector and a delay. */
  type SiblingGate = (nat, nat)

  // ------------------------------------------------------- the pass over the ancestors

  /** The working state of the pass. `pending` is the heap, `queued` all it ever held. */
  datatype Pass = Pass(pending: set<nat>, queued: set<nat>, incoming: map<nat, nat>, kept: map<nat, nat>,
                       best: map<SiblingGate, nat>)

  function Threshold(terms: map<nat, nat>, incoming: map<nat, nat>, node: nat): int {
    Max(if node in incoming then incoming[node] else -1, if node in terms then terms[node] else -1)
  }

  ghost predicate Carries(g: Graph, terms: map<nat, nat>, c: Chain, node: nat, v: nat) {
    InGraph(g, c) && End(c) == node && Source(c) in terms && terms[Source(c)] + Weight(g, c) == v
  }

  /** Every threshold that arrived at a phase came down a real chain from another term. */
  ghost predicate Arrived(g: Graph, terms: map<nat, nat>, node: nat, v: nat) {
    exists c: Chain :: c.Via? && Carries(g, terms, c, node, v)
  }

  /** A threshold sent through a vector reached each of its parents above the cutoff. */
  ghost predicate Delivered(parents: seq<nat>, cutoff: nat, v: int, s: Pass) {
    forall p | p in parents && cutoff <= p :: p in s.incoming && p in s.queued && v <= s.incoming[p]
  }

  ghost predicate Ranges(g: Graph, terms: map<nat, nat>, cutoff: nat, s: Pass) {
    && terms.Keys <= s.queued && s.pending <= s.queued && s.incoming.Keys <= s.queued
    && (forall n | n in s.queued :: cutoff <= n < |g| && (n in terms || n in s.incoming))
    && (forall d, m | d in s.queued && d !in s.pending && m in s.pending :: m < d)
  }

  ghost predicate Sent(g: Graph, terms: map<nat, nat>, cutoff: nat, s: Pass, d: nat)
    requires d < |g|
  {
    Delivered(g[d].parents, cutoff, Threshold(terms, s.incoming, d) + g[d].delay, s)
  }

  ghost predicate Decided(terms: map<nat, nat>, s: Pass) {
    && s.kept.Keys <= terms.Keys - s.pending
    && forall p | p in terms && p !in s.pending ::
         if p in s.incoming && s.incoming[p] >= terms[p] then p !in s.kept
         else p in s.kept && s.kept[p] == terms[p]
  }

  ghost predicate Informed(g: Graph, vectors: map<nat, seq<nat>>, terms: map<nat, nat>, cutoff: nat, s: Pass) {
    && (forall n | n in s.incoming :: Arrived(g, terms, n, s.incoming[n]))
    && (forall gate: SiblingGate | gate in s.best ::
          gate.0 in vectors && Delivered(vectors[gate.0], cutoff, s.best[gate] + gate.1, s))
  }

  /** Every popped phase but `node` has sent its threshold on. */
  ghost predicate AllSent(g: Graph, terms: map<nat, nat>, cutoff: nat, s: Pass, node: Option<nat>) {
    forall d | d in s.queued && d !in s.pending && node != Some(d) :: d < |g| && Sent(g, terms, cutoff, s, d)
  }

  ghost predicate PassOk(g: Graph, vectors: map<nat, seq<nat>>, terms: map<nat, nat>, cutoff: nat, s: Pass,
                         node: Option<nat>)
  {
    && Ranges(g, terms, cutoff, s) && Informed(g, vectors, terms, cutoff, s)
    && AllSent(g, terms, cutoff, s, node) && Decided(terms, s)
  }

  /** At the end every chain between terms has been followed. */
  lemma {:induction false} ChainSent(g: Graph, terms: map<nat, nat>, cutoff: nat, s: Pass, c: Chain)
    requires Topological(g) && InGraph(g, c) && Source(c) in terms && cutoff <= End(c)
    requires terms.Keys <= s.queued && forall d | d in s.queued :: d < |g| && Sent(g, terms, cutoff, s, d)
    ensures End(c) in s.queued
    ensures terms[Source(c)] + Weight(g, c) <= Threshold(terms, s.incoming, End(c))
    ensures c.Via? ==> End(c) in s.incoming && terms[Source(c)] + Weight(g, c) <= s.incoming[End(c)]
  {
    if c.Via? {
      ChainDescends(g, c.rest);
      assert c.to < End(c.rest);
      ChainSent(g, terms, cutoff, s, c.rest);
      assert Sent(g, terms, cutoff, s, End(c.rest));
    }
  }

  lemma PassIsExact(g: Graph, vectors: map<nat, seq<nat>>, terms: map<nat, nat>, cutoff: nat, s: Pass)
    requires Topological(g) && PassOk(g, vectors, terms, cutoff, s, None) && s.pending == {}
    requires forall p | p in terms :: cutoff <= p
    ensures s.kept == Kept(g, terms)
  {
    forall p | p in terms ensures p in s.kept <==> !Dominated(g, terms, p) {
      if p in s.incoming && s.incoming[p] >= terms[p] {
        ArrivedDominates(g, terms, p, s.incoming[p]);
      } else if Dominated(g, terms, p) {
        var c :| Beats(g, terms, p, c);
        ChainSent(g, terms, cutoff, s, c);
      }
    }
  }

  lemma ArrivedDominates(g: Graph, terms: map<nat, nat>, p: nat, v: nat)
    requires Arrived(g, terms, p, v) && p in terms && terms[p] <= v
    ensures Dominated(g, terms, p)
  {
    var c: Chain :| c.Via? && Carries(g, terms, c, p, v);
    assert Beats(g, terms, p, c);
  }

  // ------------------------------------------------------------- sending a threshold

  /** Sending `v` through a vector raises only parents above the cutoff, and only to `v`. */
  ghost predicate Raised(s: Pass, s': Pass, parents: seq<nat>, cutoff: nat, v: nat) {
    && (forall n | n in s.incoming :: n in s'.incoming && s.incoming[n] <= s'.incoming[n])
    && (forall n | n in s'.incoming ::
          (n in s.incoming && s'.incoming[n] == s.incoming[n]) || (n in parents && cutoff <= n && s'.incoming[n] == v))
    && s.queued <= s'.queued && s'.incoming.Keys <= s'.queued
    && (forall n | n in s'.queued :: n in s.queued || (n in parents && cutoff <= n && n in s'.incoming))
    && s'.pending == s.pending + (s'.queued - s.queued)
    && s'.kept == s.kept && s'.best == s.best
  }

  method Propagate(s: Pass, parents: seq<nat>, cutoff: nat, candidate: nat) returns (s': Pass)
    requires s.incoming.Keys <= s.queued
    ensures Raised(s, s', parents, cutoff, candidate)
    ensures Delivered(parents, cutoff, candidate, s')
  {
    s' := s;
    for i := 0 to |parents|
      invariant Raised(s, s', parents, cutoff, candidate)
      invariant Delivered(parents[..i], cutoff, candidate, s')
    {
      var parent := parents[i];
      assert parents[..i + 1] == parents[..i] + [parent];
      if parent >= cutoff && (parent !in s'.incoming || candidate > s'.incoming[parent]) {
        s' := RaiseOne(s, s', parents, cutoff, candidate, parent);
      }
    }
    assert parents[..|parents|] == parents;
  }

  /** One parent raised, and pushed unless it was queued before. */
  function RaiseOne(ghost s: Pass, m: Pass, ghost parents: seq<nat>, ghost cutoff: nat, v: nat, parent: nat): (r: Pass)
    requires Raised(s, m, parents, cutoff, v) && parent in parents && cutoff <= parent
    requires parent in m.incoming ==> m.incoming[parent] < v
    ensures Raised(s, r, parents, cutoff, v)
    ensures r.incoming == m.incoming[parent := v] && m.queued <= r.queued && parent in r.queued
  {
    Pass(if parent in m.queued then m.pending else m.pending + {parent}, m.queued + {parent},
         m.incoming[parent := v], m.kept, m.best)
  }

  // ------------------------------------------------------------------------ one visit

  /** Taking the largest phase off the heap decides its own term, before its lag joins the threshold. */
  function Pop(s: Pass, terms: map<nat, nat>, node: nat): Pass {
    s.(pending := s.pending - {node},
       kept := if node in terms && (node !in s.incoming || s.incoming[node] < terms[node])
               then s.kept[node := terms[node]] else s.kept)
  }

  lemma PopSends(g: Graph, vectors: map<nat, seq<nat>>, terms: map<nat, nat>, cutoff: nat, s: Pass, node: nat)
    requires Informed(g, vectors, terms, cutoff, s) && AllSent(g, terms, cutoff, s, None)
    ensures Informed(g, vectors, terms, cutoff, Pop(s, terms, node))
    ensures AllSent(g, terms, cutoff, Pop(s, terms, node), Some(node))
  {
    var s' := Pop(s, terms, node);
    forall gate: SiblingGate | gate in s'.best
      ensures gate.0 in vectors && Delivered(vectors[gate.0], cutoff, s'.best[gate] + gate.1, s')
    {
      assert Delivered(vectors[gate.0], cutoff, s.best[gate] + gate.1, s);
    }
    forall d | d in s'.queued && d !in s'.pending && d != node ensures d < |g| && Sent(g, terms, cutoff, s', d) {
      assert Sent(g, terms, cutoff, s, d);
    }
  }

  lemma PopDecides(g: Graph, terms: map<nat, nat>, cutoff: nat, s: Pass, node: nat)
    requires Ranges(g, terms, cutoff, s) && Decided(terms, s) && s.pending != {} && node == Largest(s.pending)
    ensures Ranges(g, terms, cutoff, Pop(s, terms, node)) && Decided(terms, Pop(s, terms, node))
  {
  }

  lemma PopKeeps(g: Graph, vectors: map<nat, seq<nat>>, terms: map<nat, nat>, cutoff: nat, s: Pass, node: nat)
    requires PassOk(g, vectors, terms, cutoff, s, None) && s.pending != {} && node == Largest(s.pending)
    ensures PassOk(g, vectors, terms, cutoff, Pop(s, terms, node), Some(node))
    ensures node in s.queued && cutoff <= node < |g| && Threshold(terms, s.incoming, node) >= 0
    ensures forall d | d in s.queued && d !in Pop(s, terms, node).pending :: node <= d
  {
    PopSends(g, vectors, terms, cutoff, s, node);
    PopDecides(g, terms, cutoff, s, node);
  }

  /** No parent above the cutoff: nothing to send. */
  lemma SkipKeeps(g: Graph, vectors: map<nat, seq<nat>>, terms: map<nat, nat>, cutoff: nat, s: Pass, node: nat)
    requires PassOk(g, vectors, terms, cutoff, s, Some(node)) && node < |g|
    requires Delivered(g[node].parents, cutoff, Threshold(terms, s.incoming, node) + g[node].delay, s)
    ensures PassOk(g, vectors, terms, cutoff, s, None)
  {
    assert Sent(g, terms, cutoff, s, node);
  }

  lemma SendArrives(g: Graph, terms: map<nat, nat>, s: Pass, node: nat, p: nat)
    requires node < |g| && p in g[node].parents && Threshold(terms, s.incoming, node) >= 0
    requires node in s.incoming ==> Arrived(g, terms, node, s.incoming[node])
    ensures Arrived(g, terms, p, Threshold(terms, s.incoming, node) + g[node].delay)
  {
    var v := Threshold(terms, s.incoming, node);
    var c: Chain := From(node);
    if node !in terms || v != terms[node] {
      c :| c.Via? && Carries(g, terms, c, node, s.incoming[node]);
    }
    assert Carries(g, terms, c, node, v);
    assert Via(c, p).Via? && Carries(g, terms, Via(c, p), p, v + g[node].delay);
  }

  /** What a visit that sends a threshold through `gate` does to the pass. */
  ghost predicate Sends(g: Graph, terms: map<nat, nat>, cutoff: nat, s: Pass, s': Pass, node: nat, gate: SiblingGate) {
    && node < |g| && node in s.queued && node !in s.pending && Threshold(terms, s.incoming, node) >= 0
    && var v := Threshold(terms, s.incoming, node) + g[node].delay;
       && Raised(s, s'.(best := s.best), g[node].parents, cutoff, v) && Delivered(g[node].parents, cutoff, v, s')
       && s'.best == s.best[gate := Threshold(terms, s.incoming, node)]
  }

  lemma SendInformed(g: Graph, vectors: map<nat, seq<nat>>, terms: map<nat, nat>, cutoff: nat, s: Pass, s': Pass,
                     node: nat, gate: SiblingGate)
    requires Informed(g, vectors, terms, cutoff, s) && Sends(g, terms, cutoff, s, s', node, gate)
    requires gate.0 in vectors && vectors[gate.0] == g[node].parents && gate.1 == g[node].delay
    ensures Informed(g, vectors, terms, cutoff, s')
  {
    forall p | p in g[node].parents ensures Arrived(g, terms, p, Threshold(terms, s.incoming, node) + g[node].delay) {
      SendArrives(g, terms, s, node, p);
    }
    forall k: SiblingGate | k in s'.best
      ensures k.0 in vectors && Delivered(vectors[k.0], cutoff, s'.best[k] + k.1, s')
    {
      if k != gate {
        assert Delivered(vectors[k.0], cutoff, s.best[k] + k.1, s);
      }
    }
  }

  lemma SendAllSent(g: Graph, terms: map<nat, nat>, cutoff: nat, s: Pass, s': Pass, node: nat, gate: SiblingGate)
    requires Topological(g) && Ranges(g, terms, cutoff, s) && AllSent(g, terms, cutoff, s, Some(node))
    requires Sends(g, terms, cutoff, s, s', node, gate) && forall d | d in s.queued && d !in s.pending :: node <= d
    ensures AllSent(g, terms, cutoff, s', None)
  {
    assert forall p | p in g[node].parents :: p < node;
    forall d | d in s'.queued && d !in s'.pending ensures d < |g| && Sent(g, terms, cutoff, s', d) {
      assert d in s.queued && d !in s.pending;
      assert Threshold(terms, s'.incoming, d) == Threshold(terms, s.incoming, d);
      if d != node {
        assert Sent(g, terms, cutoff, s, d);
      }
    }
  }

  lemma SendRanges(g: Graph, terms: map<nat, nat>, cutoff: nat, s: Pass, s': Pass, node: nat, gate: SiblingGate)
    requires Topological(g) && Ranges(g, terms, cutoff, s) && Decided(terms, s)
    requires Sends(g, terms, cutoff, s, s', node, gate) && forall d | d in s.queued && d !in s.pending :: node <= d
    ensures Ranges(g, terms, cutoff, s') && Decided(terms, s')
  {
    assert forall p | p in g[node].parents :: p < node;
    assert forall d | d in s.queued && d !in s.pending :: d in s.incoming <==> d in s'.incoming;
    assert forall d | d in s.queued && d !in s.pending && d in s.incoming :: s'.incoming[d] == s.incoming[d];
  }

  lemma SendKeeps(g: Graph, vectors: map<nat, seq<nat>>, terms: map<nat, nat>, cutoff: nat, s: Pass, s': Pass,
                  node: nat, gate: SiblingGate)
    requires Topological(g) && PassOk(g, vectors, terms, cutoff, s, Some(node))
    requires Sends(g, terms, cutoff, s, s', node, gate)
    requires gate.0 in vectors && vectors[gate.0] == g[node].parents && gate.1 == g[node].delay
    requires forall d | d in s.queued && d !in s.pending :: node <= d
    ensures PassOk(g, vectors, terms, cutoff, s', None)
  {
    SendInformed(g, vectors, terms, cutoff, s, s', node, gate);
    SendAllSent(g, terms, cutoff, s, s', node, gate);
    SendRanges(g, terms, cutoff, s, s', node, gate);
  }

  // -------------------------------------------------------------------- the pruning cache

  /** The phases kept for a gate whose lags are `key` plus any constant. */
  ghost predicate Remembers(g: Graph, key: map<nat, nat>, ids: seq<nat>) {
    InRange(g, key) && Ascending(ids) && forall p :: p in ids <==> p in Kept(g, key)
  }

  /** Every cached answer is what a fresh pass over the current graph would give. */
  ghost predicate Coherent(g: Graph, entries: map<map<nat, nat>, seq<nat>>) {
    forall key | key in entries :: Remembers(g, key, entries[key])
  }

  function EntryWeight(key: map<nat, nat>, ids: seq<nat>): nat {
    |key| + |ids|
  }

  /** Registering phases leaves every cached answer right. */
  lemma CoherentAppend(g: Graph, more: Graph, entries: map<map<nat, nat>, seq<nat>>)
    requires Topological(g) && Topological(g + more) && Coherent(g, entries)
    ensures Coherent(g + more, entries)
  {
    forall key | key in entries ensures Remembers(g + more, key, entries[key]) {
      assert Remembers(g, key, entries[key]);
      AppendKeeps(g, more, key);
    }
  }

  /** A cached answer serves every gate that differs from its key by a uniform shift of the lags. */
  lemma RememberedShift(g: Graph, key: map<nat, nat>, ids: seq<nat>, terms: map<nat, nat>, shift: nat)
    requires Remembers(g, key, ids) && Shifted(key, terms, shift)
    ensures forall p | p in ids :: p in terms
    ensures (map p | p in ids :: terms[p]) == Kept(g, terms)
  {
    ShiftKeeps(g, key, terms, shift);
    forall p ensures p in ids <==> p in Kept(g, terms) {
      assert p in ids <==> p in Kept(g, key).Keys;
    }
  }

  /** Phases are numbered by their source; a lone term has nothing to dominate it. */
  lemma LoneTermKept(g: Graph, terms: map<nat, nat>)
    requires Topological(g) && |terms| < 2
    ensures Kept(g, terms) == terms
  {
    forall p, c | p in terms ensures !Beats(g, terms, p, c) {
      if Beats(g, terms, p, c) {
        ChainDescends(g, c);
        var other := Source(c);
        assert {p, other} <= terms.Keys && |{p, other}| == 2;
        SubsetSize({p, other}, terms.Keys);
      }
    }
  }

  function LeastLag(terms: map<nat, nat>): (lag: nat)
    requires terms != map[]
    ensures forall p | p in terms :: lag <= terms[p]
  {
    assert exists p :: p in terms && terms[p] in terms.Values;
    assert forall p | p in terms :: terms[p] in terms.Values;
    Smallest(terms.Values)
  }

  lemma {:induction false} SubsetSize(a: set<nat>, b: set<nat>)
    requires a <= b
    ensures |a| <= |b|
  {
    if a != {} {
      var x :| x in a;
      SubsetSize(a - {x}, b - {x});
    }
  }

  class Pruner {
    const phases: PhaseTable
    var cache: Cache<map<nat, nat>, seq<nat>>

    ghost predicate Valid()
      reads this, phases`graph
    {
      Topological(phases.graph) && cache.Valid(EntryWeight) && Coherent(phases.graph, cache.lru.entries)
    }

    constructor (phases: PhaseTable)
      requires phases.graph == []
      ensures Valid() && this.phases == phases
    {
      this.phases := phases;
      cache := EmptyCache();
    }

    /** A mutated phase record invalidates every answer. */
    method Clear()
      requires Topological(phases.graph)
      modifies `cache
      ensures Valid()
    {
      cache := EmptyCache();
    }

    /** One phase off the heap: decide its own term, then send its threshold on unless it is below the cutoff
        or a sibling with the same gate already sent as much. */
    method Visit(terms: map<nat, nat>, cutoff: nat, s: Pass) returns (s': Pass)
      requires phases.Valid() && Topological(phases.graph)
      requires PassOk(phases.graph, phases.gates, terms, cutoff, s, None) && s.pending != {}
      modifies phases`vectors
      ensures phases.Valid() && PassOk(phases.graph, phases.gates, terms, cutoff, s', None)
      ensures forall m | m in s'.pending :: m < Largest(s.pending)
    {
      var node := Largest(s.pending);
      ghost var g, vectors := phases.graph, phases.gates;
      PopKeeps(g, vectors, terms, cutoff, s, node);
      var threshold := Threshold(terms, s.incoming, node);
      s' := Pop(s, terms, node);
      var phase := phases.Lookup(node);
      if node > cutoff && phase.parents != [] && phase.parents[|phase.parents| - 1] >= cutoff {
        var gate := (phases.gateIds[node], phase.delay);
        if gate !in s'.best || s'.best[gate] < threshold {
          s' := Send(terms, cutoff, s', node, gate, phase.parents, threshold);
          return;
        }
        assert Delivered(vectors[gate.0], cutoff, s'.best[gate] + gate.1, s');
      }
      SkipKeeps(g, vectors, terms, cutoff, s', node);
    }

    method Send(terms: map<nat, nat>, cutoff: nat, s: Pass, node: nat, gate: SiblingGate, parents: seq<nat>,
                threshold: nat)
      returns (s': Pass)
      requires phases.Valid() && Topological(phases.graph) && node < |phases.graph|
      requires PassOk(phases.graph, phases.gates, terms, cutoff, s, Some(node)) && node in s.queued
      requires node !in s.pending
      requires forall d | d in s.queued && d !in s.pending :: node <= d
      requires parents == phases.graph[node].parents && gate == (phases.gateIds[node], phases.graph[node].delay)
      requires threshold == Threshold(terms, s.incoming, node) && forall m | m in s.pending :: m < node
      ensures PassOk(phases.graph, phases.gates, terms, cutoff, s', None)
      ensures forall m | m in s'.pending :: m < node
    {
      var marked := s.(best := s.best[gate := threshold]);
      s' := Propagate(marked, parents, cutoff, threshold + gate.1);
      assert s'.(best := s.best) == Pass(s'.pending, s'.queued, s'.incoming, s'.kept, s.best);
      SendKeeps(phases.graph, phases.gates, terms, cutoff, s, s', node, gate);
    }

    /** The descending pass over the ancestors, largest phase first. */
    method Traverse(terms: map<nat, nat>) returns (kept: map<nat, nat>)
      requires phases.Valid() && Topological(phases.graph) && InRange(phases.graph, terms) && terms.Keys != {}
      modifies phases`vectors
      ensures phases.Valid() && kept == Kept(phases.graph, terms)
    {
      var cutoff := Smallest(terms.Keys);
      var s := Pass(terms.Keys, terms.Keys, map[], map[], map[]);
      while s.pending != {}
        invariant phases.Valid() && PassOk(phases.graph, phases.gates, terms, cutoff, s, None)
        decreases if s.pending == {} then 0 else 1 + Largest(s.pending)
      {
        s := Visit(terms, cutoff, s);
      }
      PassIsExact(phases.graph, phases.gates, terms, cutoff, s);
      kept := s.kept;
    }

    /** Exactly the undominated terms, from the cache or from a fresh pass. */
    method Prune(terms: map<nat, nat>) returns (kept: map<nat, nat>)
      requires Valid() && phases.Valid() && InRange(phases.graph, terms)
      modifies phases`vectors, `cache
      ensures Valid() && phases.Valid() && kept == Kept(phases.graph, terms)
    {
      if |terms| < 2 {
        LoneTermKept(phases.graph, terms);
        kept := terms;
      } else if |terms| > PRUNE_KEY_TERMS {
        kept := Traverse(terms);
      } else {
        var shift := LeastLag(terms);
        kept := PruneKeyed(terms, map p | p in terms :: terms[p] - shift, shift);
      }
    }

    method PruneKeyed(terms: map<nat, nat>, key: map<nat, nat>, shift: nat) returns (kept: map<nat, nat>)
      requires Valid() && phases.Valid() && InRange(phases.graph, terms) && terms.Keys != {}
      requires Shifted(key, terms, shift)
      modifies phases`vectors, `cache
      ensures Valid() && phases.Valid() && kept == Kept(phases.graph, terms)
    {
      if cache.Has(key) {
        var ids := cache.Get(key);
        RememberedShift(phases.graph, key, ids, terms, shift);
        cache := Refresh(cache, key, ids, EntryWeight);
        kept := map p | p in ids :: terms[p];
      } else {
        kept := Traverse(terms);
        ShiftKeeps(phases.graph, key, terms, shift);
        Memorize(key, Sorted(kept.Keys));
      }
    }

    method Memorize(key: map<nat, nat>, ids: seq<nat>)
      requires Valid() && !cache.Has(key) && Remembers(phases.graph, key, ids)
      modifies `cache
      ensures Valid()
    {
      var grown := Insert(cache, key, ids, EntryWeight);
      var trimmed, _ := Trim(grown, EntryWeight, PRUNE_ENTRIES, CACHE_WEIGHT, false);
      cache := trimmed;
    }
  }
}

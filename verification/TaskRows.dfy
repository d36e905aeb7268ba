/** What the rows of a finished output are, in terms of the input's own fields: which tasks have any, and when each may
    start in a legal execution. */
module TaskRows {
  import opened Collections
  import opened Timing
  import opened Dag
  import opened States
  import opened Tickets
  import opened TaskTables
  import opened Chunking
  import opened Tops
  import opened Compilers
  import opened Expanders
  import Guarantees

  // ------------------------------------------------------------------------- which tasks have rows

  /** Transfers, Prefill layers and batch begins, and Decode computations. */
  ghost predicate Emits(t: Task) {
    || t.class_.NETWORK?
    || (t.batch.PREFILL? && t.class_.COMPUTE? && t.stage.PREFILL_LAYER?)
    || (t.batch.PREFILL? && t.class_.TIMER? && t.stage.P_BATCH_BEGIN?)
    || (t.batch.DECODE? && t.class_.COMPUTE? && t.stage in {DECODE_LAYER, DECODE_STEP_COMPUTE})
  }

  lemma {:induction false} NoPayloadNoRows(rows: seq<Row>, t: nat)
    ensures PayloadOf(rows, t) == [] <==> forall r | r in rows :: r.dag != t
  {
    if rows != [] {
      var last := |rows| - 1;
      NoPayloadNoRows(rows[..last], t);
      assert rows == rows[..last] + [rows[last]];
    }
  }

  /** A converted task has rows exactly if it is of one of these kinds; a control task has one, of zero bytes. */
  lemma RowsExactly(x: Compiler, s: State, t: Task)
    requires x.Converted(s, t) && (t.class_.NETWORK? ==> t.bytes > 0)
    ensures (exists r :: r in s.rows && r.dag == t.id) <==> Emits(t)
    ensures Emits(t) && !t.class_.NETWORK? ==> PayloadOf(s.rows, t.id) == [0]
  {
    hide Compiler.Seated, PayloadOf;
    NoPayloadNoRows(s.rows, t.id);
    ChunkStep(t.bytes, x.divisor);
  }

  // ----------------------------------------------------------------------------- when rows start

  /** The configured storage latency, or the task's own. */
  ghost function Latency(override: Option<nat>, t: Task): nat {
    if override.Some? then override.value else t.readLatency
  }

  /** Not before the release, nor before any dependency is complete, each with the row's own time after it; and, if
      nothing is released later and all dependencies have rows, exactly then. */
  ghost predicate AfterEverything(s: State, t: Task, r: Row, C: Times, own: nat)
    requires Closed(s.dag) && t.id in s.dag && s.dag[t.id].deps == t.deps
  {
    && t.release + own <= Start(r, C)
    && (forall i | 0 <= i < |t.deps| :: Done(s.dag, t.deps[i], C, false) + own <= Start(r, C))
    && (t.release == 0 && (forall i | 0 <= i < |t.deps| :: s.dag[t.deps[i]].kind.Barrier?) ==>
          Start(r, C) == Gate(s.dag, t.id, t.deps, 0, C, true) + own)
  }

  lemma PrefillRowStarts(x: Compiler, s: State, t: Task, r: Row, C: Times)
    requires Good(s) && x.Converted(s, t) && r in s.rows && r.dag == t.id && Legal(s.rows, C) && t.batch.PREFILL?
    ensures t.id in s.dag && s.dag[t.id].deps == t.deps
    ensures t.class_.NETWORK? && t.stage in {PREFIX_READ, STORAGE_TO_D} ==>
              AfterEverything(s, t, r, C, Latency(x.readOverride, t))
    ensures t.class_.NETWORK? && t.stage !in {PREFIX_READ, STORAGE_TO_D} ==> AfterEverything(s, t, r, C, 0)
    ensures !t.class_.NETWORK? ==> AfterEverything(s, t, r, C, t.duration)
  {
    hide Sound, Meaning, TopForms, IdleForms, Gate, Done, GateTop, Compiler.Seated, PayloadOf, Compiler.Sizes;
    var n := s.dag[t.id];
    assert Promise(s.dag, r, C);
    Guarantees.DepsWithin(s.dag, t.id, t.deps, 0, C, false);
  }

  /** Streamed Decode input Reads, and those of a Decode batch, start their own time after the largest phase of all rows
      that they transitively depend on; other Decode rows when all phases are complete, and their duration later. */
  lemma DecodeRowStarts(x: Compiler, s: State, t: Task, r: Row, C: Times)
    requires Good(s) && x.Converted(s, t) && r in s.rows && r.dag == t.id && Legal(s.rows, C) && !t.batch.PREFILL?
    requires t.batch.DECODE? || (x.v14 && t.stage.STORAGE_TO_D?)
    ensures t.id in s.dag && s.dag[t.id].deps == t.deps
    ensures t.stage.STORAGE_TO_D? ==>
              var own := if !t.class_.NETWORK? then t.duration else if x.v14 then Latency(x.readOverride, t) else 0;
              exists p: nat, lag: nat :: Guarantees.LargestOfAll(s.dag, t.id, t.deps, Some((p, lag)))
                && r.deps == [p] && Start(r, C) == C(p) + own
    ensures !t.stage.STORAGE_TO_D? ==>
              Start(r, C) == Gate(s.dag, t.id, t.deps, 0, C, false) + if t.class_.NETWORK? then 0 else t.duration
    ensures !t.stage.STORAGE_TO_D? ==> forall i | 0 <= i < |t.deps| :: Done(s.dag, t.deps[i], C, false) <= Start(r, C)
  {
    hide Sound, Meaning, TopForms, IdleForms, Gate, Done, GateTop, Compiler.Seated, PayloadOf, Compiler.Sizes,
      Guarantees.LargestOfAll;
    assert Promise(s.dag, r, C);
    if t.stage.STORAGE_TO_D? {
      var p := Guarantees.FrontierIsLargest(s, r, C);
    } else {
      Guarantees.DepsWithin(s.dag, t.id, t.deps, 0, C, false);
    }
  }

  /** Rows gated by the timing policy: under the error policy exactly at the weighted gate, with their own time after
      it; under the conservative one not before; under max-phase not before their release, nor the largest phase with
      its lag. */
  lemma LegacyRowStarts(x: Compiler, s: State, t: Task, r: Row, C: Times)
    requires Good(s) && x.Converted(s, t) && r in s.rows && r.dag == t.id && Legal(s.rows, C) && t.batch.NEITHER?
    requires !(x.v14 && t.stage.STORAGE_TO_D?)
    ensures t.id in s.dag && s.dag[t.id].deps == t.deps && t.class_.NETWORK?
    ensures var own := if t.stage in {PREFIX_READ, STORAGE_TO_D} then Latency(x.readOverride, t) else 0;
            var gate := Gate(s.dag, t.id, t.deps, t.release, C, true);
      && (x.policy == Error ==> Start(r, C) == gate + own)
      && (x.policy == Conservative ==> Start(r, C) >= gate + own)
      && (x.policy == MaxPhase ==> t.release + own <= Start(r, C))
      && (x.policy == MaxPhase && r.deps != [] ==>
            exists p: nat, lag: nat :: Guarantees.LargestOfAll(s.dag, t.id, t.deps, Some((p, lag)))
              && r.deps == [p] && C(p) + lag + own <= Start(r, C))
  {
    hide Sound, Meaning, TopForms, IdleForms, Gate, Done, GateTop, PayloadOf, Compiler.Sizes, Guarantees.LargestOfAll;
    assert Promise(s.dag, r, C);
    assert Home(s.dag[r.dag], r.pid);
    Guarantees.GateTopIsLargest(s.dag, t.id, t.deps);
  }

  // ------------------------------------------------------------------------------ tasks without rows

  /** Work without rows is complete its duration after its release and all its dependencies. A Decode batch begin waits
      for the largest phase of each dependency and for no release instead; with eager compaction, work of no batch is
      kept as its largest phase. */
  lemma FoldedTasks(x: Compiler, s: State, t: Task, C: Times)
    requires Closed(s.dag) && x.Converted(s, t) && !Emits(t)
    ensures t.id in s.dag && s.dag[t.id].deps == t.deps && s.dag[t.id].local == t.duration
    ensures t.stage.D_BATCH_BEGIN? ==> Done(s.dag, t.id, C, true) == Fronts(s.dag, t.id, t.deps, C, true) + t.duration
    ensures !t.stage.D_BATCH_BEGIN? ==>
              if x.policy.MaxPhase? && x.v14 && x.share && t.batch.NEITHER?
              then s.dag[t.id].kind.Compact? && s.dag[t.id].release == t.release
              else Done(s.dag, t.id, C, true) == Gate(s.dag, t.id, t.deps, t.release, C, true) + t.duration
  {
    hide Compiler.Seated, PayloadOf, Compiler.Sizes, Compiler.ConsumesAll, Gate, Fronts;
  }

  // --------------------------------------------------------------------------- ranks of logical tasks

  /** The ranks that a logical row may have: some, in rising order, below the degree, each with bytes, together its
      payload; none, unless it is a transfer. */
  lemma MembersExactly(x: Expander, a: Logical)
    ensures x.MembersOk(a) <==>
            a.degree >= 1 && if !a.task.class_.NETWORK? then a.members == [] else
              && |a.members| > 0 && MemberBytes(a.members) == a.task.bytes
              && (forall i | 0 <= i < |a.members| :: a.members[i].rank < a.degree && a.members[i].bytes > 0)
              && (forall i, j | 0 <= i < j < |a.members| :: a.members[i].rank < a.members[j].rank)
  {
    if x.MembersOk(a) && a.task.class_.NETWORK? {
      RanksRise(a.members, |a.members|);
    }
  }

  lemma {:induction false} RanksRise(members: seq<Member>, n: nat)
    requires n <= |members| && forall i | 0 < i < |members| :: members[i - 1].rank < members[i].rank
    ensures forall i, j | 0 <= i < j < n :: members[i].rank < members[j].rank
  {
    if n > 0 {
      RanksRise(members, n - 1);
      assert forall i | 0 <= i < n - 1 :: n >= 2 && members[i].rank <= members[n - 2].rank;
    }
  }

  /** What a rank of a compiled logical row is: a converted task with the row's own fields. */
  lemma RankIsRow(x: Expander, s: State, aliases: map<nat, nat>, a: Logical, first: nat, joined: seq<nat>, i: nat)
    returns (t: Task)
    requires x.RanksDone(s, a, x.Resolved(aliases, a.task.deps), first, joined) && i < |joined|
    ensures x.compiler.Converted(s, t) && t.id == first + i && t.bytes == a.members[i].bytes
    ensures |t.deps| == |a.task.deps|
    ensures forall k | 0 <= k < |t.deps| :: a.task.deps[k] in aliases ==> t.deps[k] == aliases[a.task.deps[k]]
    ensures t.class_ == a.task.class_ && t.stage == a.task.stage && t.batch == a.task.batch
    ensures t.batchId == a.task.batchId && t.layer == a.task.layer && t.request == a.task.request
    ensures t.wave == a.task.wave && t.duration == a.task.duration && t.release == a.task.release
    ensures t.readLatency == a.task.readLatency && t.logical == Some(a.task.id)
  {
    hide Compiler.Converted;
    assert x.RankDone(s, a, x.Resolved(aliases, a.task.deps), first + i, a.members[i].bytes, joined[i]);
    t := x.RankTask(a, x.Resolved(aliases, a.task.deps), first + i, a.members[i].bytes);
  }

  /** Some dependency is complete last, unless nothing is waited for. */
  lemma {:induction false} GateAttained(dag: Tasks, t: nat, deps: seq<nat>, C: Times, timed: bool)
    requires Closed(dag) && Known(dag, t, deps)
    ensures Gate(dag, t, deps, 0, C, timed) == 0
            || exists k :: 0 <= k < |deps| && Done(dag, deps[k], C, timed) == Gate(dag, t, deps, 0, C, timed)
    decreases |deps|
  {
    hide Done;
    if deps != [] {
      var last := |deps| - 1;
      GateAttained(dag, t, deps[..last], C, timed);
      if Gate(dag, t, deps[..last], 0, C, timed) != 0 {
        var k :| 0 <= k < last && Done(dag, deps[..last][k], C, timed) == Gate(dag, t, deps[..last], 0, C, timed);
        assert deps[..last][k] == deps[k];
      }
    }
  }

  /** The start in terms of the aliases of the logical dependencies. */
  ghost predicate AfterAliases(s: State, aliases: map<nat, nat>, a: Task, r: Row, C: Times, own: nat)
    requires Closed(s.dag)
  {
    && (forall d | d in a.deps :: d in aliases && aliases[d] in s.dag)
    && a.release + own <= Start(r, C)
    && (forall d | d in a.deps :: Done(s.dag, aliases[d], C, false) + own <= Start(r, C))
    && (a.release == 0 && (forall d | d in a.deps :: s.dag[aliases[d]].kind.Barrier?) ==>
          Start(r, C) == own || exists d :: d in a.deps && Start(r, C) == Done(s.dag, aliases[d], C, true) + own)
  }

  lemma AliasedStart(s: State, aliases: map<nat, nat>, a: Task, t: Task, r: Row, C: Times, own: nat)
    requires Closed(s.dag) && t.id in s.dag && s.dag[t.id].deps == t.deps && AfterEverything(s, t, r, C, own)
    requires t.release == a.release && |t.deps| == |a.deps|
    requires forall k | 0 <= k < |a.deps| :: a.deps[k] in aliases && t.deps[k] == aliases[a.deps[k]]
    ensures AfterAliases(s, aliases, a, r, C, own)
  {
    hide Done, Gate, Start;
    GateAttained(s.dag, t.id, t.deps, C, true);
    forall d | d in a.deps
      ensures d in aliases && aliases[d] in s.dag && Done(s.dag, aliases[d], C, false) + own <= Start(r, C)
    {
      var k :| 0 <= k < |a.deps| && a.deps[k] == d;
    }
    if k :| 0 <= k < |t.deps| && Done(s.dag, t.deps[k], C, true) == Gate(s.dag, t.id, t.deps, 0, C, true) {
      assert a.deps[k] in a.deps && aliases[a.deps[k]] == t.deps[k];
    }
    assert forall k | 0 <= k < |t.deps| :: a.deps[k] in a.deps && t.deps[k] == aliases[a.deps[k]];
  }

  /** Every row of a rank of a logical Prefill transfer starts no earlier than the logical release, and than each alias
      that it depends on is complete: a read with the storage latency after it, a store at once. */
  lemma RankPrefillStarts(x: Expander, s: State, aliases: map<nat, nat>, a: Logical, first: nat, joined: seq<nat>,
                          i: nat, r: Row, C: Times)
    requires Good(s) && x.RanksDone(s, a, x.Resolved(aliases, a.task.deps), first, joined) && i < |joined|
    requires a.task.class_.NETWORK? && a.task.batch.PREFILL? && forall d | d in a.task.deps :: d in aliases
    requires r in s.rows && r.dag == first + i && Legal(s.rows, C)
    ensures a.task.stage in {PREFIX_READ, STORAGE_TO_D} ==>
              AfterAliases(s, aliases, a.task, r, C, Latency(x.compiler.readOverride, a.task))
    ensures a.task.stage !in {PREFIX_READ, STORAGE_TO_D} ==> AfterAliases(s, aliases, a.task, r, C, 0)
  {
    hide Sound, Meaning, TopForms, IdleForms, Promises, Expander.RanksDone, Compiler.Converted, AfterEverything,
      AfterAliases;
    var t := RankIsRow(x, s, aliases, a, first, joined, i);
    PrefillRowStarts(x.compiler, s, t, r, C);
    AliasedStart(s, aliases, a.task, t, r, C, if a.task.stage in {PREFIX_READ, STORAGE_TO_D}
                                              then Latency(x.compiler.readOverride, a.task) else 0);
  }

  /** Every row of a rank of a logical Decode input Read starts exactly the storage latency after the largest phase of
      all rows that its dependencies transitively wait for, and writes that phase alone; a Decode write starts when
      every alias it depends on is complete. */
  lemma RankDecodeStarts(x: Expander, s: State, aliases: map<nat, nat>, a: Logical, first: nat, joined: seq<nat>,
                         i: nat, r: Row, C: Times)
    requires Good(s) && x.RanksDone(s, a, x.Resolved(aliases, a.task.deps), first, joined) && i < |joined|
    requires a.task.class_.NETWORK? && a.task.batch.DECODE? && forall d | d in a.task.deps :: d in aliases
    requires r in s.rows && r.dag == first + i && Legal(s.rows, C) && x.compiler.v14
    ensures first + i in s.dag && |s.dag[first + i].deps| == |a.task.deps|
    ensures forall k | 0 <= k < |a.task.deps| :: s.dag[first + i].deps[k] == aliases[a.task.deps[k]]
    ensures a.task.stage.STORAGE_TO_D? ==>
              exists p: nat, lag: nat ::
                Guarantees.LargestOfAll(s.dag, first + i, s.dag[first + i].deps, Some((p, lag)))
                && r.deps == [p] && Start(r, C) == C(p) + Latency(x.compiler.readOverride, a.task)
    ensures !a.task.stage.STORAGE_TO_D? ==>
              Start(r, C) == Gate(s.dag, first + i, s.dag[first + i].deps, 0, C, false)
  {
    hide Sound, Meaning, TopForms, IdleForms, Promises, Expander.RanksDone, Compiler.Converted, Done, Gate,
      Guarantees.LargestOfAll;
    var t := RankIsRow(x, s, aliases, a, first, joined, i);
    DecodeRowStarts(x.compiler, s, t, r, C);
  }

  // ------------------------------------------------------------------------------- the whole output

  /** This row of a logical transfer starts as its kind says. */
  ghost predicate RankStarts(x: Expander, s: State, aliases: map<nat, nat>, a: Task, r: Row, C: Times)
    requires Closed(s.dag) && r.dag in s.dag && forall d | d in a.deps :: d in aliases
  {
    if a.batch.PREFILL? then
      AfterAliases(s, aliases, a, r, C,
                   if a.stage in {PREFIX_READ, STORAGE_TO_D} then Latency(x.compiler.readOverride, a) else 0)
    else if a.batch.DECODE? then
      var deps := s.dag[r.dag].deps;
      && |deps| == |a.deps| && (forall k | 0 <= k < |a.deps| :: deps[k] == aliases[a.deps[k]])
      && if a.stage.STORAGE_TO_D? then
           exists p: nat, lag: nat :: Guarantees.LargestOfAll(s.dag, r.dag, deps, Some((p, lag)))
             && r.deps == [p] && Start(r, C) == C(p) + Latency(x.compiler.readOverride, a)
         else Start(r, C) == Gate(s.dag, r.dag, deps, 0, C, false)
    else true
  }

  lemma RankStartsSo(x: Expander, s: State, aliases: map<nat, nat>, a: Logical, first: nat, joined: seq<nat>, r: Row,
                     C: Times)
    requires Good(s) && x.RanksDone(s, a, x.Resolved(aliases, a.task.deps), first, joined) && x.compiler.v14
    requires a.task.class_.NETWORK? && forall d | d in a.task.deps :: d in aliases
    requires r in s.rows && first <= r.dag < first + |joined| && Legal(s.rows, C)
    ensures r.dag in s.dag && RankStarts(x, s, aliases, a.task, r, C)
  {
    hide Sound, Meaning, TopForms, IdleForms, Promises, Expander.RanksDone, Compiler.Converted, Done, Gate,
      Guarantees.LargestOfAll, AfterAliases;
    var i := r.dag - first;
    Guarantees.RankIs(x, s, a, x.Resolved(aliases, a.task.deps), first, joined, i);
    if a.task.batch.PREFILL? {
      RankPrefillStarts(x, s, aliases, a, first, joined, i, r, C);
    } else if a.task.batch.DECODE? {
      RankDecodeStarts(x, s, aliases, a, first, joined, i, r, C);
    }
  }

  lemma GoodIsClosed(s: State)
    requires Good(s)
    ensures Closed(s.dag)
  {
  }

  /** In every legal execution of a finished expanded output, the rows of all ranks of a logical transfer start as its
      kind says, and what later tasks wait for in its place is complete when the last rank is. */
  lemma OutputStarts(x: Expander, s: State, aliases: map<nat, nat>, a: Logical, C: Times) returns (first: nat)
    requires Good(s) && x.RowCompiled(s, aliases, a) && Legal(s.rows, C) && x.compiler.v14 && a.task.class_.NETWORK?
    ensures a.task.id in aliases && aliases[a.task.id] in s.forms && forall d | d in a.task.deps :: d in aliases
    ensures forall r | r in s.rows && first <= r.dag < first + |a.members| ::
              r.dag in s.dag && RankStarts(x, s, aliases, a.task, r, C)
    ensures Guarantees.LastRank(s, first, |a.members|, C, true, Eval(View(s.forms[aliases[a.task.id]], true), C))
  {
    hide Good, Legal, RankStarts, Expander.RanksDone, Compiler.Converted, Eval, Guarantees.LastRank, PayloadOf, Sorted,
      Phases, Expander.MembersOk;
    GoodIsClosed(s);
    var joined;
    first, joined := Guarantees.AliasIsLatestRank(x, s, aliases, a, C, true);
    forall r | r in s.rows && first <= r.dag < first + |a.members|
      ensures r.dag in s.dag && RankStarts(x, s, aliases, a.task, r, C)
    {
      RankStartsSo(x, s, aliases, a, first, joined, r, C);
    }
  }

  /** A logical task without ranks is one task of the output with its own fields. */
  lemma SingleIsRow(x: Expander, s: State, aliases: map<nat, nat>, a: Logical) returns (t: Task)
    requires x.RowCompiled(s, aliases, a) && !a.task.class_.NETWORK?
    ensures a.task.id in aliases && x.compiler.Converted(s, t) && t.id == aliases[a.task.id]
    ensures |t.deps| == |a.task.deps|
    ensures forall k | 0 <= k < |t.deps| :: a.task.deps[k] in aliases && t.deps[k] == aliases[a.task.deps[k]]
    ensures t.class_ == a.task.class_ && t.stage == a.task.stage && t.batch == a.task.batch
    ensures t.duration == a.task.duration && t.release == a.task.release && t.readLatency == a.task.readLatency
    ensures t.request == a.task.request && t.bytes == a.task.bytes && t.logical == Some(a.task.id)
  {
    hide Compiler.Converted, Expander.RanksDone, PayloadOf;
    var first: nat, joined: seq<nat> :|
      x.Compiled(s, a, x.Resolved(aliases, a.task.deps), first, joined, aliases[a.task.id]);
    t := x.RankTask(a, x.Resolved(aliases, a.task.deps), aliases[a.task.id], a.task.bytes);
  }
}

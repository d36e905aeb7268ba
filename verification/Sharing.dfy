/** Which rows of a finished output share a phase, in terms of the input's own fields. */
module Sharing {
  import opened Collections
  import opened Timing
  import opened Dag
  import opened States
  import opened Tickets
  import opened TaskTables
  import opened Chunking
  import opened Grouping
  import GroupTables
  import opened Waves
  import opened Compilers
  import opened Expanders

  /** A row of a group as wide as its batch: Prefill input reads and stores, and streamed Decode input Reads. */
  ghost predicate BatchRow(v14: bool, t: Task) {
    t.class_.NETWORK? &&
    if v14 && t.stage.STORAGE_TO_D? then true
    else t.batch.PREFILL? && (t.stage.PREFIX_READ? || t.stage.PREFIX_STORE_WRITE?)
  }

  /** Reads, or stores, of one Prefill batch and layer; or input Reads of one Decode batch. */
  ghost predicate SameBatch(v14: bool, t: Task, u: Task) {
    && BatchRow(v14, t) && BatchRow(v14, u) && t.stage == u.stage && t.batchId == u.batchId
    && (t.stage.STORAGE_TO_D? || t.layer == u.layer)
  }

  /** Rows of one request; streamed, also those of one logical task without a request. */
  ghost predicate SameOwner(v14: bool, share: bool, t: Task, u: Task) {
    if !v14 then t.request == u.request
    else share && if t.request.Some? || u.request.Some? then t.request == u.request
                  else t.logical.Some? && t.logical == u.logical
  }

  /** Two rows of different tasks share a phase only as members of one batch, or of one owner's wave with the same
      written dependencies. */
  lemma PhaseMates(x: Compiler, s: State, t: Task, u: Task, r: Row, q: Row)
    requires x.Converted(s, t) && x.Converted(s, u) && t.id != u.id && r in s.rows && q in s.rows
    requires r.dag == t.id && q.dag == u.id && r.pid == q.pid
    requires !x.v14 ==> t.request.Some? && u.request.Some?
    ensures t.class_.NETWORK? && u.class_.NETWORK?
    ensures SameBatch(x.v14, t, u) || (t.wave == u.wave && r.deps == q.deps && SameOwner(x.v14, x.share, t, u))
  {
    hide Compiler.Matches, PayloadOf, Compiler.Sizes;
    assert x.SlotOf(t, r.deps) == x.SlotOf(u, q.deps);
  }

  /** Of a whole run. */
  lemma RunPhases(x: Compiler, m: Moment, m': Moment, tasks: seq<Task>, i: nat, j: nat, r: Row, q: Row)
    requires x.Converts(m, m', tasks) && i < j < |tasks| && r in m'.s.rows && q in m'.s.rows
    requires r.dag == tasks[i].id && q.dag == tasks[j].id && r.pid == q.pid
    requires !x.v14 ==> tasks[i].request.Some? && tasks[j].request.Some?
    ensures var (t, u) := (tasks[i], tasks[j]);
      && t.class_.NETWORK? && u.class_.NETWORK?
      && (SameBatch(x.v14, t, u) || (t.wave == u.wave && r.deps == q.deps && SameOwner(x.v14, x.share, t, u)))
  {
    hide Frozen, Writes, Compiler.Expected, Compiler.SealsFrom, Compiler.Converted;
    PhaseMates(x, m'.s, tasks[i], tasks[j], r, q);
  }

  /** All rows of a batch (and layer) share one phase: while it is open they join it, and once it was consumed, no other
      row of theirs is accepted. */
  lemma BatchesMeet(x: Compiler, t: Task, u: Task, r: Row, q: Row)
    requires x.Valid() && x.Converted(x.S(), t) && x.Converted(x.S(), u) && r in x.rows && q in x.rows
    requires r.dag == t.id && q.dag == u.id && t.id != u.id && BatchRow(x.v14, t)
    requires !x.v14 ==> t.request.Some? && u.request.Some?
    ensures r.pid == q.pid <==> SameBatch(x.v14, t, u)
  {
    hide Good, Compiler.Matches, PayloadOf, Compiler.Sizes, Tracked, Compiler.Stores;
    if r.pid == q.pid {
      assert x.SlotOf(t, r.deps) == x.SlotOf(u, q.deps);
    }
    if SameBatch(x.v14, t, u) {
      assert x.SlotOf(t, r.deps) == x.SlotOf(u, q.deps);
      NewestPhase(x, r.pid);
      NewestPhase(x, q.pid);
    }
  }

  lemma NewestPhase(x: Compiler, p: nat)
    requires x.Valid() && p in x.slots && x.slots[p].Shared?
    ensures var key := x.slots[p].key;
      key in x.groups.contents && (x.groups.contents[key].pid == p || (!BatchWide(key) && IsSealed(x.S(), p)))
  {
    hide Good, Tracked, Compiler.Stores;
  }

  /** In the other shared groups rows of one owner, wave and dependencies share a phase as long as it is not
      consumed. */
  lemma WavesMeet(x: Compiler, t: Task, u: Task, r: Row, q: Row)
    requires x.Valid() && x.v14 && x.share && x.Converted(x.S(), t) && x.Converted(x.S(), u)
    requires r in x.rows && q in x.rows && r.dag == t.id && q.dag == u.id
    requires t.class_.NETWORK? && u.class_.NETWORK? && !BatchRow(true, t) && !BatchRow(true, u)
    requires t.id != u.id && t.wave == u.wave && r.deps == q.deps && SameOwner(true, true, t, u)
    requires !IsSealed(x.S(), r.pid) && !IsSealed(x.S(), q.pid)
    ensures r.pid == q.pid
  {
    hide Good, Compiler.Matches, PayloadOf, Compiler.Sizes, Tracked, Compiler.Stores;
    assert x.SlotOf(t, r.deps) == x.SlotOf(u, q.deps);
    NewestPhase(x, r.pid);
    NewestPhase(x, q.pid);
  }

  /** Of an expanded run: rank i of one logical task and rank j of another (or another rank of the same one) share a
      phase only if the logical tasks are of one batch, or of one wave and request (or are one task without a request)
      with the same written dependencies. */
  lemma RankPhases(x: Expander, s: State, aliases: map<nat, nat>, a: Logical, b: Logical, i: nat, j: nat,
                   first: nat, first': nat, joined: seq<nat>, joined': seq<nat>, r: Row, q: Row)
    requires x.compiler.v14 && a.task.class_.NETWORK? && b.task.class_.NETWORK?
    requires x.RanksDone(s, a, x.Resolved(aliases, a.task.deps), first, joined) && i < |joined|
    requires x.RanksDone(s, b, x.Resolved(aliases, b.task.deps), first', joined') && j < |joined'|
    requires first + i != first' + j && r in s.rows && q in s.rows && r.dag == first + i && q.dag == first' + j
    requires r.pid == q.pid
    ensures SameBatch(true, a.task, b.task) ||
            (a.task.wave == b.task.wave && r.deps == q.deps && x.compiler.share
             && a.task.request == b.task.request && (a.task.request.None? ==> a.task.id == b.task.id))
  {
    hide Compiler.Converted, Compiler.SlotOf;
    var t := x.RankTask(a, x.Resolved(aliases, a.task.deps), first + i, a.members[i].bytes);
    var u := x.RankTask(b, x.Resolved(aliases, b.task.deps), first' + j, b.members[j].bytes);
    assert x.RankDone(s, a, x.Resolved(aliases, a.task.deps), first + i, a.members[i].bytes, joined[i]);
    assert x.RankDone(s, b, x.Resolved(aliases, b.task.deps), first' + j, b.members[j].bytes, joined'[j]);
    PhaseMates(x.compiler, s, t, u, r, q);
  }
}

/** Which rows are accepted and why one is refused, in terms of the input's own fields. */
module Admission {
  import opened Collections
  import opened Timing
  import opened Dominance
  import opened Dag
  import opened States
  import opened Tickets
  import opened TaskTables
  import opened Chunking
  import opened Grouping
  import GroupTables
  import opened Waves
  import opened Compilers
  import opened Sharing
  import opened TaskRows

  // ------------------------------------------------------------------------------- accepted rows

  ghost predicate IsDone(t: Task, request: nat) {
    t.stage.P_DONE? && t.batch.PREFILL? && t.request == Some(request)
  }

  /** Row j is the last P_DONE of this request. */
  ghost predicate LastDone(tasks: seq<Task>, request: nat, j: nat) {
    j < |tasks| && IsDone(tasks[j], request) && forall k | j < k < |tasks| :: !IsDone(tasks[k], request)
  }

  lemma {:induction false} ReadyIsLast(tasks: seq<Task>, request: nat) returns (j: nat)
    ensures var done := ReadyAfter(map[], tasks);
      if request in done then LastDone(tasks, request, j) && done[request] == tasks[j].id
      else forall k | 0 <= k < |tasks| :: !IsDone(tasks[k], request)
  {
    j := 0;
    if tasks != [] {
      var last := |tasks| - 1;
      if IsDone(tasks[last], request) {
        j := last;
      } else {
        j := ReadyIsLast(tasks[..last], request);
      }
    }
  }

  /** The row depends on the last P_DONE of its own request before it, and on nothing else. */
  ghost predicate NamesDone(tasks: seq<Task>, at: nat)
    requires at < |tasks|
  {
    var t := tasks[at];
    t.request.Some? && exists j: nat :: LastDone(tasks[..at], t.request.value, j) && t.deps == [tasks[j].id]
  }

  lemma NamesReady(tasks: seq<Task>, at: nat)
    requires at < |tasks|
    ensures var t, done := tasks[at], ReadyAfter(map[], tasks[..at]);
      NamesDone(tasks, at) <==>
      t.request.Some? && t.request.value in done && t.deps == [done[t.request.value]]
  {
    hide ReadyAfter;
    if tasks[at].request.Some? {
      var request := tasks[at].request.value;
      var j := ReadyIsLast(tasks[..at], request);
      assert forall i: nat | LastDone(tasks[..at], request, i) :: IsDone(tasks[..at][i], request);
      assert forall i: nat | LastDone(tasks[..at], request, i) && LastDone(tasks[..at], request, j) :: i == j;
    }
  }

  /** In a converted input every transfer is of one of the four kinds, names a wave, has a payload and no duration, and
      nothing else has a payload; every dependency is an earlier row; and an input Read of a Decode batch depends on the
      last P_DONE of its request before it alone. */
  lemma RowsAccepted(x: Compiler, m: Moment, m': Moment, tasks: seq<Task>, i: nat)
    requires x.Converts(m, m', tasks) && i < |tasks| && m.ready == map[] && m.s.dag == map[] && Closed(m'.s.dag)
    ensures var t := tasks[i];
      && (if t.class_.NETWORK? then
            t.stage in {PREFIX_READ, PREFIX_STORE_WRITE, STORAGE_TO_D, DECODE_WRITE} && t.bytes > 0 && t.duration == 0
            && t.wave != ""
          else t.bytes == 0)
      && (t.stage.STORAGE_TO_D? && t.batch.DECODE? ==> NamesDone(tasks, i))
      && forall d | d in t.deps :: exists j: nat :: j < i && tasks[j].id == d
  {
    hide Frozen, Writes, Compiler.Expected, Compiler.SealsFrom, NamesDone, ReadyAfter, Compiler.Seated, PayloadOf,
      Compiler.Sizes, Compiler.ConsumesAll;
    var t := tasks[i];
    assert Payable(t) && x.Converted(m'.s, t);
    assert Entitled(m.ready, tasks, i);
    NamesReady(tasks, i);
    forall d | d in t.deps ensures exists j: nat :: j < i && tasks[j].id == d {
      var k :| 0 <= k < |t.deps| && t.deps[k] == d;
      assert d in IdsOf(tasks) && d < t.id;
      var j :| 0 <= j < |tasks| && tasks[j].id == d;
      assert j < i;
    }
  }

  /** The kind of batch that a streamed stage belongs to. */
  ghost function BatchOf(stage: Stage): Option<Batch> {
    match stage
    case PREFIX_READ => Some(PREFILL)
    case PREFIX_STORE_WRITE => Some(PREFILL)
    case P_BATCH_BEGIN => Some(PREFILL)
    case PREFILL_LAYER => Some(PREFILL)
    case P_DONE => Some(PREFILL)
    case OTHER_STAGE => None
    case _ => Some(DECODE)
  }

  lemma ValidatedExactly(t: Task)
    ensures Validated(t) <==> BatchOf(t.stage).None? || t.batch == BatchOf(t.stage).value
  {
  }

  /** Streamed transfers belong to a batch: Prefill reads and stores, Decode input Reads and writes. */
  lemma StreamedKinds(x: Compiler, m: Moment, m': Moment, tasks: seq<Task>, i: nat)
    requires x.Converts(m, m', tasks) && i < |tasks| && Validated(tasks[i]) && tasks[i].class_.NETWORK?
    ensures var t := tasks[i];
      || (t.batch.PREFILL? && t.stage in {PREFIX_READ, PREFIX_STORE_WRITE})
      || (t.batch.DECODE? && t.stage in {STORAGE_TO_D, DECODE_WRITE})
  {
    hide Frozen, Writes, Compiler.Expected, Compiler.SealsFrom, Compiler.Converted;
    ValidatedExactly(tasks[i]);
    assert Payable(tasks[i]);
  }

  // ------------------------------------------------------------------------------- refused rows

  ghost predicate WavesFit(tasks: seq<Task>, from: nat, at: nat)
    requires from <= at < |tasks|
  {
    Contiguous(WaveNames(tasks[from..at + 1]))
  }

  /** No wave, or, where rows are grouped by request, one that the request's rows came back to. */
  ghost predicate BadWave(v14: bool, tasks: seq<Task>, at: nat)
    requires at < |tasks|
  {
    if v14 then tasks[at].wave == "" else
      exists from: nat :: from <= at && !WavesFit(tasks, from, at)
        && forall k | from <= k < at :: tasks[k].request == tasks[at].request
  }

  /** The row's gate has no traffic row: a Decode row that waits for nothing, or with a lag; under the error policy, one
      with a root or with different lags. */
  ghost predicate NoGate(x: Compiler, t: Task, s: State) {
    var f := Merged(s.forms, t.deps, t.release, false);
    if t.batch.PREFILL? then false
    else if t.batch.DECODE? || (x.v14 && t.stage.STORAGE_TO_D?) then
      f.terms.Keys == {} ||
      if t.stage.STORAGE_TO_D? then f.terms[Largest(f.terms.Keys)] != 0
      else exists p :: p in f.terms && !Dominated(s.g, f.terms, p) && f.terms[p] != 0
    else
      x.policy.Error? && f.terms.Keys != {} &&
      (f.root + (if t.stage in {PREFIX_READ, STORAGE_TO_D} then Latency(x.readOverride, t) else 0) > 0
       || exists p, q :: p in f.terms && q in f.terms && f.terms[p] != f.terms[q])
  }

  /** What is wrong with the row itself. */
  ghost predicate OwnFault(x: Compiler, tasks: seq<Task>, at: nat, m: Moment)
    requires at < |tasks|
  {
    var t := tasks[at];
    || t.id <= m.last || (exists d :: d in t.deps && d !in IdsOf(tasks[..at]))
    || (t.stage.STORAGE_TO_D? && t.batch.DECODE? && !NamesDone(tasks, at))
    || (if t.class_.NETWORK? then
          || t.stage !in {PREFIX_READ, PREFIX_STORE_WRITE, STORAGE_TO_D, DECODE_WRITE}
          || t.bytes == 0 || t.duration != 0 || BadWave(x.v14, tasks, at)
        else t.bytes != 0)
    || (Emits(t) && NoGate(x, t, m.s))
  }

  /** The row has traffic, and its phase or its last chunk would have an ID beyond uint32. */
  ghost predicate OutOfIds(x: Compiler, t: Task, s: State) {
    Emits(t) && (x.base + |s.g| > UINT32_MAX ||
                 x.firstTask + |s.rows| + (if t.class_.NETWORK? then |Chunks(t.bytes)| else 1) - 1 > UINT32_MAX)
  }

  /** Some earlier row of the batch is in a phase that an earlier row consumed, or that the row itself waits for, or
      after which the phases come that it waits for. */
  ghost predicate GroupClosed(x: Compiler, tasks: seq<Task>, at: nat, s: State)
    requires at < |tasks|
  {
    exists j: nat, r :: j < at && r in s.rows && r.dag == tasks[j].id && SameBatch(x.v14, tasks[j], tasks[at])
      && (x.ConsumedBy(s, tasks[..at], r.pid) || exists p :: p >= r.pid && SealedBy(s.forms, tasks[at].deps, p))
  }

  lemma {:induction false} MergedFrom(forms: map<nat, Form>, deps: seq<nat>, release: nat, p: nat)
    requires p in Merged(forms, deps, release, false).terms
    ensures SealedBy(forms, deps, p)
  {
    if deps != [] {
      var last := |deps| - 1;
      if p in Merged(forms, deps[..last], release, false).terms {
        MergedFrom(forms, deps[..last], release, p);
        var d :| d in deps[..last] && d in forms && p in forms[d].terms;
        assert d in deps;
      } else {
        assert deps[last] in deps && deps[last] in forms && p in forms[deps[last]].terms;
      }
    }
  }

  /** Without a reason against it, a row's gate can be expressed. */
  lemma GateGranted(x: Compiler, t: Task, s: State, pruned: bool) returns (parents: seq<nat>)
    requires !NoGate(x, t, s)
    ensures x.GateParents(s.g, t, Merged(s.forms, t.deps, t.release, false), pruned, false) == Some(parents)
    ensures BatchRow(x.v14, t) ==> forall p | p in parents :: p in Merged(s.forms, t.deps, t.release, false).terms
  {
    hide Merged, Dominated, Coverable, Sorted, Compiler.NativeParents;
    var f := Merged(s.forms, t.deps, t.release, false);
    if t.batch.NEITHER? && !(x.v14 && t.stage.STORAGE_TO_D?) {
      PolicyGranted(x, t, s, f, pruned);
    }
    parents := x.GateParents(s.g, t, f, pruned, false).value;
  }

  lemma PolicyGranted(x: Compiler, t: Task, s: State, f: Form, pruned: bool)
    requires f == Merged(s.forms, t.deps, t.release, false) && !NoGate(x, t, s)
    requires t.batch.NEITHER? && !(x.v14 && t.stage.STORAGE_TO_D?)
    ensures x.NativeParents(x.NormalOf(s.g, x.Delayed(t, f), pruned)).Some?
  {
    hide Merged, Dominated, Coverable, Sorted;
  }

  /** The key of a batch's group, and what its group lacks. */
  lemma GroupLacks(x: Compiler, t: Task, parents: seq<nat>, local: Local, shared: map<Key, GroupTables.Group>,
                   flags: seq<bool>) returns (key: Key)
    requires BatchRow(x.v14, t) && !x.MayJoin(t, parents, local, shared, flags) && x.base + |flags| <= UINT32_MAX
    ensures key in shared && forall u: Task, deps | u.class_.NETWORK? && x.SlotOf(u, deps) == Shared(key) ::
              SameBatch(x.v14, u, t)
    ensures (shared[key].pid < |flags| && flags[shared[key].pid])
            || (parents != [] && parents[|parents| - 1] >= shared[key].pid)
  {
    key := x.BatchKey(t).value;
  }

  /** Any other streamed row only needs a phase ID. */
  lemma OthersJoin(x: Compiler, t: Task, parents: seq<nat>, local: Local, shared: map<Key, GroupTables.Group>,
                   flags: seq<bool>)
    requires x.v14 && t.class_.NETWORK? && !BatchRow(x.v14, t) && local == Fresh(local.owner)
    requires x.base + |flags| <= UINT32_MAX
    ensures x.MayJoin(t, parents, local, shared, flags)
  {
  }

  /** The phase of a group has a row, and its task is one of those converted. */
  lemma RowInGroup(x: Compiler, m: Moment, m': Moment, tasks: seq<Task>, key: Key) returns (j: nat, r: Row)
    requires x.Converts(m, m', tasks) && m.s.dag == map[] && Good(m'.s) && Tracked(m'.s.g, m'.s.slots, m'.shared)
    requires key in m'.shared
    ensures j < |tasks| && r in m'.s.rows && r.dag == tasks[j].id && r.pid == m'.shared[key].pid
    ensures x.SlotOf(tasks[j], r.deps) == Shared(key) && tasks[j].class_.NETWORK?
  {
    hide Frozen, Writes, Compiler.Expected, Compiler.SealsFrom, Compiler.Matches, PayloadOf,
      Compiler.Sizes, Sound, Meaning, TopForms, IdleForms, Promises, AllEntitled, Compiler.ConsumesAll;
    SharedFacts(m'.s.g, m'.s.slots, m'.shared, key);
    assert HasRow(m'.s.rows, m'.shared[key].pid);
    var i :| 0 <= i < |m'.s.rows| && m'.s.rows[i].pid == m'.shared[key].pid;
    r := m'.s.rows[i];
    assert r in m'.s.rows && r.dag in IdsOf(tasks);
    j :| j < |tasks| && tasks[j].id == r.dag;
    assert x.Converted(m'.s, tasks[j]);
  }

  /** A fitting wave may be entered. */
  lemma WaveEntered(x: Compiler, tasks: seq<Task>, from: nat, at: nat, waves: Waves)
    requires from <= at < |tasks| && !BadWave(x.v14, tasks, at) && tasks[at].class_.NETWORK?
    requires Followed(WaveNames(tasks[from..at])) == Some(waves) && (x.v14 ==> from == at)
    requires !x.v14 ==> forall k | from <= k < at :: tasks[k].request == tasks[at].request
    ensures Entered(waves, tasks[at].wave).Some?
  {
    if !x.v14 {
      assert WavesFit(tasks, from, at);
      var names := WaveNames(tasks[from..at]);
      assert tasks[from..at + 1][..at - from] == tasks[from..at];
      assert WaveNames(tasks[from..at + 1]) == names + [tasks[at].wave];
      ContiguousAccepted(names + [tasks[at].wave]);
      assert (names + [tasks[at].wave])[..|names|] == names;
    }
  }

  /** What the converted rows left. */
  lemma Left(x: Compiler, m: Moment, m': Moment, tasks: seq<Task>)
    requires x.Converts(m, m', tasks) && m.s.forms == map[]
    ensures m'.s.forms.Keys == IdsOf(tasks) && x.SealsFrom(m.s, m'.s, tasks) && m'.ready == ReadyAfter(m.ready, tasks)
  {
  }

  lemma SealedCount(s: State)
    requires Good(s)
    ensures |s.sealedPhases| == |s.g|
  {
  }

  /** A row with nothing wrong about itself and IDs left is refused only as a transfer that no group takes. */
  lemma OnlyGroup(x: Compiler, tasks: seq<Task>, at: nat, m: Moment, from: nat, local: Local)
    returns (parents: seq<nat>)
    requires at < |tasks| && x.RefusedIn(m, tasks, at, from, local) && m.ready == ReadyAfter(map[], tasks[..at])
    requires !OwnFault(x, tasks, at, m) && !OutOfIds(x, tasks[at], m.s) && m.s.forms.Keys == IdsOf(tasks[..at])
    requires |m.s.sealedPhases| == |m.s.g|
    ensures var t := tasks[at];
      && t.class_.NETWORK?
      && !x.MayJoin(t, parents, local, m.shared, x.SealsAfter(t, t.deps, m.s.forms, m.s.sealedPhases))
      && (BatchRow(x.v14, t) ==> forall p | p in parents :: p in Merged(m.s.forms, t.deps, t.release, false).terms)
  {
    hide Merged, Contiguous, Followed, WaveNames, Compiler.MayJoin, Compiler.SealsAfter, Chunks, IdsOf, BadWave,
      NamesDone, NoGate, ReadyAfter, Compiler.GateParents, Entered;
    var t := tasks[at];
    NamesReady(tasks, at);
    if t.class_.NETWORK? {
      WaveEntered(x, tasks, from, at, local.waves);
    }
    if Emits(t) {
      parents := GateGranted(x, t, m.s, x.TakenOver(t));
    } else {
      parents := [];
    }
  }

  /** A phase is sealed because an earlier row, or the row itself, depends on it. */
  lemma GroupIsClosed(x: Compiler, m: Moment, m': Moment, tasks: seq<Task>, at: nat, parents: seq<nat>, pid: nat)
    requires at < |tasks| && x.SealsFrom(m.s, m'.s, tasks[..at]) && (forall p: nat :: !IsSealed(m.s, p))
    requires forall p | p in parents :: p in Merged(m'.s.forms, tasks[at].deps, tasks[at].release, false).terms
    requires var flags := x.SealsAfter(tasks[at], tasks[at].deps, m'.s.forms, m'.s.sealedPhases);
      (pid < |flags| && flags[pid]) || (parents != [] && parents[|parents| - 1] >= pid)
    ensures x.ConsumedBy(m'.s, tasks[..at], pid) || exists p :: p >= pid && SealedBy(m'.s.forms, tasks[at].deps, p)
  {
    hide Merged, Compiler.ConsumedBy;
    if parents != [] && parents[|parents| - 1] >= pid {
      MergedFrom(m'.s.forms, tasks[at].deps, tasks[at].release, parents[|parents| - 1]);
    } else if !IsSealed(m'.s, pid) {
      assert SealedBy(m'.s.forms, tasks[at].deps, pid);
    }
  }

  /** A row that stops a run is wrong in itself, finds no ID left, or belongs to a batch of which an earlier row was
      consumed, by an earlier row or by the row itself. */
  lemma RowRefused(x: Compiler, m: Moment, tasks: seq<Task>, at: nat, m': Moment)
    requires x.StoppedAt(m, tasks, at, m') && m.s.dag == map[] && m.s.forms == map[] && m.ready == map[]
    requires forall p: nat :: !IsSealed(m.s, p)
    requires x.v14 || BatchRow(x.v14, tasks[at]) || !tasks[at].class_.NETWORK?
    ensures OwnFault(x, tasks, at, m') || OutOfIds(x, tasks[at], m'.s)
            || (BatchRow(x.v14, tasks[at]) && GroupClosed(x, tasks, at, m'.s))
  {
    hide Compiler.Converts, Compiler.Acceptable, Compiler.MayJoin, Good, Tracked, BatchRow, OwnFault, OutOfIds,
      Compiler.SlotOf, SameBatch, Merged, Compiler.SealsAfter;
    if !OwnFault(x, tasks, at, m') && !OutOfIds(x, tasks[at], m'.s) {
      var t := tasks[at];
      var from: nat, local: Local :| x.RefusedIn(m', tasks, at, from, local);
      Left(x, m, m', tasks[..at]);
      SealedCount(m'.s);
      var parents := OnlyGroup(x, tasks, at, m', from, local);
      var flags := x.SealsAfter(t, t.deps, m'.s.forms, m'.s.sealedPhases);
      IdsLeft(x, t, m'.s);
      if !BatchRow(x.v14, t) {
        OthersJoin(x, t, parents, local, m'.shared, flags);
      }
      var key := GroupLacks(x, t, parents, local, m'.shared, flags);
      var j, r := RowInGroup(x, m, m', tasks[..at], key);
      GroupIsClosed(x, m, m', tasks, at, parents, r.pid);
      assert tasks[..at][j] == tasks[j] && SameBatch(x.v14, tasks[j], t);
    }
  }

  lemma IdsLeft(x: Compiler, t: Task, s: State)
    requires !OutOfIds(x, t, s) && t.class_.NETWORK?
    ensures x.base + |s.g| <= UINT32_MAX
  {
    hide Chunks;
  }

  // ----------------------------------------------------------------------------- closed batches

  /** Once a row depends on a phase of a batch, no other row of that batch (and layer) is accepted: Prefill rows close
      what they depend on, and all streamed rows do while groups are shared. */
  lemma ClosedBatchRefuses(x: Compiler, t: Task, u: Task, c: Task, r: Row, d: nat, local: Local)
    requires x.Valid() && x.Converted(x.S(), u) && r in x.rows && r.dag == u.id && SameBatch(x.v14, u, t)
    requires x.Converted(x.S(), c) && x.v14 && (x.share || c.batch.PREFILL?)
    requires d in c.deps && d in x.S().forms && r.pid in x.S().forms[d].terms
    ensures !x.Acceptable(x.S(), t, None, local, x.groups.contents, x.lastDagId, x.prefillReady, x.nextTask)
  {
    hide Good, Compiler.Matches, PayloadOf, Compiler.Sizes, Tracked, Compiler.Stores, Merged, Compiler.GateParents;
    NewestPhase(x, r.pid);
    var i :| 0 <= i < |c.deps| && c.deps[i] == d;
    assert IsSealed(x.S(), r.pid);
    assert x.BatchKey(t) == Some(x.slots[r.pid].key);
  }
}

/** Expansion of logical tensor-parallel tasks into one row per rank and an ALL-completion alias. */
module Expanders {
  import opened Collections
  import opened Timing
  import opened Dag
  import opened States
  import opened Tickets
  import opened TaskTables
  import opened Chunking
  import PhaseTables
  import GroupTables
  import opened Grouping
  import Pruning
  import opened Compilers

  datatype Member = Member(rank: nat, bytes: nat)

  /** A logical row: its dependencies are logical IDs, its members the ranks of a network task. */
  datatype Logical = Logical(task: Task, degree: nat, members: seq<Member>)

  /** What a prepared gate depends on. */
  datatype PrepareKey = PrepareKey(deps: seq<nat>, release: nat, read: nat, prefill: bool, decode: bool)

  const PREPARE_ENTRIES := 128
  const PREPARE_WEIGHT := 262144

  function PreparedWeight(key: PrepareKey, prepared: Prepared): nat {
    |prepared.form.terms|
  }

  function MemberBytes(members: seq<Member>): nat {
    if members == [] then 0 else members[0].bytes + MemberBytes(members[1..])
  }

  /** The bytes of the native rows of these members, in order. */
  function MemberPayload(members: seq<Member>, divisor: positive): seq<nat>
  {
    if members == [] then []
    else MemberPayload(members[..|members| - 1], divisor) + ScaledAll(Chunks(members[|members| - 1].bytes), divisor)
  }

  lemma {:induction false} SumAppend(a: seq<nat>, b: seq<nat>)
    ensures Sum(a + b) == Sum(a) + Sum(b)
  {
    if a == [] {
      assert a + b == b;
    } else {
      assert (a + b)[1..] == a[1..] + b;
      SumAppend(a[1..], b);
    }
  }

  lemma {:induction false} MemberBytesAppend(members: seq<Member>, m: Member)
    ensures MemberBytes(members + [m]) == MemberBytes(members) + m.bytes
  {
    if members == [] {
      assert ([] + [m])[1..] == [];
    } else {
      assert (members + [m])[1..] == members[1..] + [m];
      MemberBytesAppend(members[1..], m);
    }
  }

  /** `rows` native rows of `sum` scaled bytes in all carry a payload of `bytes`: at least bytes/d, less than bytes/d
      plus
      the number of rows, and exactly the bytes when the divisor d is 1. */
  ghost predicate Carries(bytes: nat, sum: nat, rows: nat, d: positive) {
    && bytes <= sum * d
    && (rows > 0 ==> sum * d < bytes + rows * d)
    && (rows == 0 ==> bytes == 0 && sum == 0)
    && (d == 1 ==> sum == bytes)
  }

  lemma CarriesBoth(bytes: nat, sum: nat, rows: nat, bytes': nat, sum': nat, rows': nat, d: positive)
    requires Carries(bytes, sum, rows, d) && Carries(bytes', sum', rows', d)
    ensures Carries(bytes + bytes', sum + sum', rows + rows', d)
  {
    Distribute(sum, sum', d);
    Distribute(rows, rows', d);
  }

  /** One rank's payload. */
  lemma RankCarries(bytes: nat, divisor: positive)
    ensures Carries(bytes, Sum(ScaledAll(Chunks(bytes), divisor)), |ScaledAll(Chunks(bytes), divisor)|, divisor)
  {
    ChunksSum(bytes);
    ScaledSum(Chunks(bytes), divisor);
    if |Chunks(bytes)| == 0 {
      assert Chunks(bytes) == [];
    }
  }

  /** Conservation over all ranks. */
  lemma {:induction false} PayloadConserved(members: seq<Member>, divisor: positive)
    ensures var sizes := MemberPayload(members, divisor);
      Carries(MemberBytes(members), Sum(sizes), |sizes|, divisor)
  {
    if members != [] {
      var last := |members| - 1;
      var before, m := members[..last], members[last];
      PayloadConserved(before, divisor);
      RankCarries(m.bytes, divisor);
      assert members == before + [m];
      MemberBytesAppend(before, m);
      SumAppend(MemberPayload(before, divisor), ScaledAll(Chunks(m.bytes), divisor));
      hide Carries, Sum, Chunks, ScaledAll, MemberBytes;
      CarriesBoth(MemberBytes(before), Sum(MemberPayload(before, divisor)), |MemberPayload(before, divisor)|,
                  m.bytes, Sum(ScaledAll(Chunks(m.bytes), divisor)), |ScaledAll(Chunks(m.bytes), divisor)|, divisor);
    }
  }

  // ----------------------------------------------------------------- prepared gates

  /** Some network row with this gate; every such row has the same one. */
  function Stand(key: PrepareKey, id: nat): Task {
    Task(id, NETWORK, DECODE_WRITE, if key.prefill then PREFILL else DECODE, 0, 0, None, None, "", 0, 0,
         key.release, 0, key.deps)
  }

  lemma GateFormKept(s: State, s': State, t: nat, n: Node, f: Form)
    requires Good(s) && Good(s') && Frozen(s, s') && GateForm(s, t, n, f, 0)
    ensures GateForm(s', t, n, f, 0)
  {
    var added := s'.rows[|s.rows|..];
    assert s'.rows == s.rows + added;
    forall C: Times, timed: bool | Legal(s'.rows, C)
      ensures Eval(View(f, timed), C) == Gate(s'.dag, t, n.deps, n.release, C, timed)
    {
      LegalPrefix(s.rows, added, C);
      GateExtends(s.dag, s'.dag, t, n.deps, n.release, C, timed);
    }
    GateTopExtends(s.dag, s'.dag, t, n.deps);
  }

  lemma GateIdleKept(s: State, s': State, t: nat, n: Node, f: Form)
    requires Good(s) && Good(s') && Frozen(s, s') && GateIdle(s, t, n, f)
    ensures GateIdle(s', t, n, f)
  {
    forall i, b | 0 <= i < |n.deps| ensures Idle(s.dag, n.deps[i], b) == Idle(s'.dag, n.deps[i], b) {
      IdleExtends(s.dag, s'.dag, n.deps[i], b);
    }
  }

  /** A gathered gate survives later rows. */
  lemma GatheredKept(s: State, s': State, t: Task, f: Form, seals: bool)
    requires Good(s) && Good(s') && Frozen(s, s') && Gathered(s, t, t.deps, f, seals) && !t.stage.D_BATCH_BEGIN?
    ensures Gathered(s', t, t.deps, f, seals)
  {
    assert Stub(t).(deps := t.deps) == Stub(t);
    GateFormKept(s, s', t.id, Stub(t), f);
    GateIdleKept(s, s', t.id, Stub(t), f);
    MergedSame(s.forms, s'.forms, t.deps, RootOf(t), false);
    if seals {
      ConsumedForEver(s, s', t.deps);
    }
  }

  /** The gate does not depend on which row waits for it. */
  lemma GatheredFor(s: State, t: Task, u: Task, f: Form, seals: bool)
    requires Good(s) && Gathered(s, t, t.deps, f, seals) && !t.stage.D_BATCH_BEGIN? && !u.stage.D_BATCH_BEGIN?
    requires u.deps == t.deps && u.release == t.release && Known(s.dag, u.id, u.deps)
    ensures Gathered(s, u, u.deps, f, seals)
  {
    forall C: Times, timed: bool | Legal(s.rows, C)
      ensures Eval(View(f, timed), C) == Gate(s.dag, u.id, u.deps, u.release, C, timed)
    {
      GateNumber(s.dag, t.id, u.id, t.deps, t.release, C, timed);
    }
    GateTopNumber(s.dag, t.id, u.id, t.deps);
  }

  lemma KnownLater(dag: Tasks, t: nat, u: nat, deps: seq<nat>)
    requires Known(dag, t, deps) && t <= u
    ensures Known(dag, u, deps)
  {
  }

  /** Logical IDs resolve to stored tasks that come before the next expanded ID. */
  ghost predicate AliasesOk(aliases: map<nat, nat>, next: nat, last: int, table: map<nat, Form>) {
    forall t | t in aliases :: t <= last && aliases[t] < next && aliases[t] in table
  }

  lemma AliasesKept(s: State, s': State, aliases: map<nat, nat>, next: nat, next': nat, last: int, last': int)
    requires AliasesOk(aliases, next, last, s.forms) && Frozen(s, s') && next <= next' && last <= last'
    ensures AliasesOk(aliases, next', last', s'.forms)
  {
  }

  /** The traffic of these members, rank by rank, as tasks from `first` on. */
  function MembersTraffic(members: seq<Member>, first: nat, divisor: positive): seq<(nat, nat)> {
    if members == [] then []
    else
      var last := |members| - 1;
      MembersTraffic(members[..last], first, divisor)
      + Labelled(first + last, ScaledAll(Chunks(members[last].bytes), divisor))
  }

  lemma NoMembers(first: nat, divisor: positive)
    ensures MembersTraffic([], first, divisor) == []
  {
  }

  lemma MembersStep(members: seq<Member>, i: nat, first: nat, divisor: positive)
    requires i < |members|
    ensures MembersTraffic(members[..i + 1], first, divisor)
         == MembersTraffic(members[..i], first, divisor)
            + Labelled(first + i, ScaledAll(Chunks(members[i].bytes), divisor))
  {
    assert members[..i + 1][..i] == members[..i];
  }

  function IdRange(first: nat, n: nat): set<nat> {
    if n == 0 then {} else IdRange(first, n - 1) + {first + n - 1}
  }

  lemma {:induction false} IdRangeThen(first: nat, n: nat, k: nat)
    ensures IdRange(first, n + k) == IdRange(first, n) + IdRange(first + n, k)
  {
    if k > 0 {
      IdRangeThen(first, n, k - 1);
    }
  }

  /** From s to s' exactly this traffic was written, and exactly the `n` tasks from `first` on were added. */
  ghost predicate Wrote(s: State, s': State, traffic: seq<(nat, nat)>, first: nat, n: nat) {
    Writes(s, s', traffic) && s'.dag.Keys == s.dag.Keys + IdRange(first, n)
  }

  lemma WroteThen(a: State, b: State, c: State, x: seq<(nat, nat)>, y: seq<(nat, nat)>, first: nat, n: nat, k: nat)
    requires Wrote(a, b, x, first, n) && Wrote(b, c, y, first + n, k)
    ensures Wrote(a, c, x + y, first, n + k)
  {
    WritesThen(a, b, c, x, y);
    IdRangeThen(first, n, k);
  }

  lemma WroteNothing(s: State, first: nat)
    ensures Wrote(s, s, [], first, 0)
  {
    WritesNothing(s, s);
  }

  lemma WroteAfterSeal(s: State, s': State, s'': State, traffic: seq<(nat, nat)>, first: nat, n: nat)
    requires Closes(s, s') && Wrote(s', s'', traffic, first, n)
    ensures Wrote(s, s'', traffic, first, n)
  {
  }

  lemma WroteThenNone(s: State, s': State, s'': State, traffic: seq<(nat, nat)>, first: nat, n: nat, alias: nat)
    requires Wrote(s, s', traffic, first, n) && s''.rows == s'.rows
    requires alias == first + n && s''.dag.Keys == s'.dag.Keys + {alias}
    ensures Wrote(s, s'', traffic, first, n + 1)
  {
  }

  /** The rank that was not acceptable under the gate prepared for all of them, and the state it met. */
  datatype Refusal = Refusal(m: Moment, prep: Prepared, at: nat, stop: Moment)

  /** What the expansion of later rows depends on. */
  datatype Pause = Pause(m: Moment, aliases: map<nat, nat>, last: int, entries: map<PrepareKey, Prepared>)

  function KeyOf(t: Task, read: nat): PrepareKey {
    PrepareKey(t.deps, t.release, read, t.batch.PREFILL?, t.batch.DECODE?)
  }

  class Expander {
    const compiler: Compiler
    var aliases: map<nat, nat>
    var nextId: nat
    var lastLogical: int
    var prepared: Cache<PrepareKey, Prepared>

    predicate KeySeals(key: PrepareKey) {
      compiler.share || key.prefill
    }

    /** Every prepared gate is the one a fresh gathering would find. */
    ghost predicate PreparedSound(s: State, next: nat, entries: map<PrepareKey, Prepared>) {
      forall key | key in entries :: EntrySound(s, next, key, entries[key])
    }

    ghost predicate EntrySound(s: State, next: nat, key: PrepareKey, entry: Prepared) {
      && entry.native.None? && entry.text == Sorted(entry.form.terms.Keys)
      && Gathered(s, Stand(key, next), key.deps, entry.form, KeySeals(key))
    }

    ghost predicate Valid()
      reads this, compiler, compiler.phases, compiler.pruner, compiler.groups, compiler.forms
    {
      && compiler.Valid() && compiler.v14 && compiler.lastDagId < nextId
      && AliasesOk(aliases, nextId, lastLogical, compiler.forms.table)
      && prepared.Valid(PreparedWeight) && PreparedSound(compiler.S(), nextId, prepared.lru.entries)
    }

    constructor (compiler: Compiler)
      requires compiler.Valid() && compiler.v14 && compiler.dag == map[] && compiler.lastDagId == -1
      ensures Valid() && this.compiler == compiler && aliases == map[] && nextId == 0 && lastLogical == -1
      ensures prepared.lru.entries == map[]
    {
      this.compiler := compiler;
      aliases, nextId, lastLogical, prepared := map[], 0, -1, EmptyCache();
    }

    /** The expanded IDs of logical dependencies; a missing or forward one is rejected. */
    method Resolve(deps: seq<nat>) returns (r: Result<seq<nat>>)
      requires AliasesOk(aliases, nextId, lastLogical, compiler.forms.table)
      ensures r.Ok? <==> forall d | d in deps :: d in aliases
      ensures r.Ok? ==> |r.value| == |deps| && forall i | 0 <= i < |deps| ::
                deps[i] in aliases && r.value[i] == aliases[deps[i]]
      ensures r.Ok? ==> Below(r.value, nextId)
    {
      var expanded := [];
      for i := 0 to |deps|
        invariant |expanded| == i && forall j | 0 <= j < i :: deps[j] in aliases && expanded[j] == aliases[deps[j]]
      {
        if deps[i] !in aliases {
          return Err("missing or forward logical dependency");
        }
        expanded := expanded + [aliases[deps[i]]];
      }
      return Ok(expanded);
    }

    /** A gate is there for the row: an equal one is cached, or all dependencies are stored and an input Read names
        its own P_DONE. So an input Read that does not is accepted exactly on a hit. */
    ghost predicate Preparable(t: Task, entries: map<PrepareKey, Prepared>, ready: map<nat, nat>, table: map<nat,
                               Form>) {
      KeyOf(t, compiler.ReadLatency(t)) in entries || (compiler.MayConsume(t, ready) && AllIn(t.deps, table))
    }

    /** The gate shared by all ranks of a network task, from the cache or gathered now. A hit does not repeat the
        check that an input Read names its own P_DONE. */
    method Prepare(t: Task) returns (r: Result<Prepared>)
      requires Valid() && t.id == nextId && t.class_.NETWORK? && Transfers(t.stage) && Validated(t)
      modifies `prepared, compiler.phases`sealedPhases, compiler.forms`cache
      ensures Valid() && Closes(old(compiler.S()), compiler.S())
      ensures r.Ok? <==> Preparable(t, old(prepared.lru.entries), compiler.prefillReady, compiler.forms.table)
      ensures r.Ok? ==> r.value.native.None? && r.value.text == Sorted(r.value.form.terms.Keys)
      ensures r.Ok? ==> Gathered(compiler.S(), t, t.deps, r.value.form, compiler.Seals(t))
    {
      hide Good, Kempt, Gathered, Compiler.Valid, PreparedSound, AliasesOk, Cache.Valid;
      var key := KeyOf(t, compiler.ReadLatency(t));
      if prepared.Has(key) {
        var entry := prepared.Get(key);
        IsGood();
        HitSound(compiler.S(), nextId, prepared.lru.entries, key, t);
        Touch(key);
        ClosesNothing(compiler.S());
        r := Ok(entry);
      } else {
        r := PrepareFresh(t, key);
      }
    }

    lemma IsGood()
      requires compiler.Valid()
      ensures Good(compiler.S())
      ensures Kempt(compiler.S(), compiler.slots, compiler.groups.contents, compiler.lastDagId, compiler.v14,
                    compiler.share)
    {
    }

    lemma ValidIsGood()
      requires Valid()
      ensures compiler.Valid() && Good(compiler.S())
    {
    }

    method Touch(key: PrepareKey)
      requires Valid() && prepared.Has(key)
      modifies `prepared
      ensures Valid() && prepared.lru.entries == old(prepared.lru.entries)
    {
      hide Compiler.Valid, PreparedSound, AliasesOk;
      prepared := Refresh(prepared, key, prepared.Get(key), PreparedWeight);
    }

    /** Adds a freshly gathered gate, evicting the oldest ones beyond the limits. */
    method Remember(key: PrepareKey, entry: Prepared)
      requires Valid() && !prepared.Has(key) && PreparedSound(compiler.S(), nextId, prepared.lru.entries[key := entry])
      modifies `prepared
      ensures Valid()
    {
      hide Compiler.Valid, PreparedSound, AliasesOk;
      var grown := Insert(prepared, key, entry, PreparedWeight);
      var kept, evicted := Trim(grown, PreparedWeight, PREPARE_ENTRIES, PREPARE_WEIGHT, true);
      EvictSound(compiler.S(), nextId, grown.lru.entries, kept.lru.entries, evicted);
      prepared := kept;
    }

    lemma HitSound(s: State, next: nat, entries: map<PrepareKey, Prepared>, key: PrepareKey, t: Task)
      requires Good(s) && PreparedSound(s, next, entries) && key in entries && t.id == next && compiler.v14
      requires key.deps == t.deps && key.release == t.release && key.prefill == t.batch.PREFILL?
      requires !t.stage.D_BATCH_BEGIN?
      ensures entries[key].native.None? && entries[key].text == Sorted(entries[key].form.terms.Keys)
      ensures Gathered(s, t, t.deps, entries[key].form, compiler.Seals(t))
    {
      assert EntrySound(s, next, key, entries[key]);
      GatheredFor(s, Stand(key, next), t, entries[key].form, KeySeals(key));
    }

    method PrepareFresh(t: Task, key: PrepareKey) returns (r: Result<Prepared>)
      requires Valid() && t.id == nextId && !t.stage.D_BATCH_BEGIN? && !prepared.Has(key)
      requires key.deps == t.deps && key.release == t.release && key.prefill == t.batch.PREFILL?
      modifies `prepared, compiler.phases`sealedPhases, compiler.forms`cache
      ensures Valid() && Closes(old(compiler.S()), compiler.S())
      ensures r.Ok? <==> compiler.MayConsume(t, compiler.prefillReady) && AllIn(t.deps, compiler.forms.table)
      ensures r.Ok? ==> r.value.native.None? && r.value.text == Sorted(r.value.form.terms.Keys)
      ensures r.Ok? ==> Gathered(compiler.S(), t, t.deps, r.value.form, compiler.Seals(t))
    {
      hide Good, Kempt, Gathered, PhaseTables.PhaseTable.Valid, GroupTables.GroupTable.Valid, Pruning.Pruner.Valid,
        FormTable.Valid, PreparedSound, Closes, AliasesOk;
      var incoming := Gather(t);
      if incoming.Err? {
        return Err(incoming.reason);
      }
      var form := incoming.value;
      var entry := Prepared(form, None, Sorted(form.terms.Keys));
      IsGood();
      FreshSound(compiler.S(), nextId, prepared.lru.entries, key, t, entry);
      Remember(key, entry);
      return Ok(entry);
    }

    /** Gathers a gate afresh; the prepared ones stay right. */
    method Gather(t: Task) returns (r: Result<Form>)
      requires Valid() && t.id == nextId
      modifies compiler.phases`sealedPhases, compiler.forms`cache
      ensures Valid() && Closes(old(compiler.S()), compiler.S())
      ensures r.Ok? <==> compiler.MayConsume(t, compiler.prefillReady) && AllIn(t.deps, compiler.forms.table)
      ensures r.Ok? ==> Gathered(compiler.S(), t, t.deps, r.value, compiler.Seals(t))
    {
      hide Good, Kempt, Gathered, PhaseTables.PhaseTable.Valid, GroupTables.GroupTable.Valid, Pruning.Pruner.Valid,
        FormTable.Valid, PreparedSound, Closes, AliasesOk;
      ghost var s := compiler.S();
      NoLaterTask(s, compiler.slots, compiler.groups.contents, compiler.lastDagId, true, compiler.share, t.id);
      var incoming := compiler.Incoming(t);
      SealGood(s, compiler.S());
      SoundKept(s, compiler.S(), nextId, nextId, prepared.lru.entries);
      if incoming.Err? {
        return Err(incoming.reason);
      }
      return Ok(incoming.value.0);
    }

    lemma FreshSound(s: State, next: nat, entries: map<PrepareKey, Prepared>, key: PrepareKey, t: Task, entry: Prepared)
      requires Good(s) && PreparedSound(s, next, entries) && t.id == next && compiler.v14
      requires key.deps == t.deps && key.release == t.release && key.prefill == t.batch.PREFILL?
      requires !t.stage.D_BATCH_BEGIN?
      requires entry.native.None? && entry.text == Sorted(entry.form.terms.Keys)
      requires Gathered(s, t, t.deps, entry.form, compiler.Seals(t))
      ensures PreparedSound(s, next, entries[key := entry])
    {
      GatheredFor(s, t, Stand(key, next), entry.form, compiler.Seals(t));
    }

    lemma EvictSound(s: State, next: nat, whole: map<PrepareKey, Prepared>, kept: map<PrepareKey, Prepared>,
                     evicted: map<PrepareKey, Prepared>)
      requires PreparedSound(s, next, whole) && Splits(whole, kept, evicted)
      ensures PreparedSound(s, next, kept)
    {
      forall key | key in kept ensures EntrySound(s, next, key, kept[key]) {
        assert EntrySound(s, next, key, whole[key]);
      }
    }

    /** Prepared gates survive later rows and later IDs. */
    lemma SoundKept(s: State, s': State, next: nat, next': nat, entries: map<PrepareKey, Prepared>)
      requires Good(s) && Good(s') && Frozen(s, s') && next <= next' && PreparedSound(s, next, entries)
      ensures PreparedSound(s', next', entries)
    {
      forall key | key in entries ensures EntrySound(s', next', key, entries[key]) {
        assert EntrySound(s, next, key, entries[key]);
        GatheredKept(s, s', Stand(key, next), entries[key].form, KeySeals(key));
        KnownLater(s'.dag, next, next', key.deps);
        GatheredFor(s', Stand(key, next), Stand(key, next'), entries[key].form, KeySeals(key));
      }
    }

    // ------------------------------------------------------------------------- one task

    /** The row of one rank, or of a task without ranks. */
    function RankTask(row: Logical, deps: seq<nat>, id: nat, bytes: nat): Task {
      row.task.(id := id, deps := deps, logical := Some(row.task.id), bytes := bytes)
    }

    predicate MembersOk(row: Logical) {
      row.degree >= 1 &&
      if row.task.class_.NETWORK? then
        && row.members != [] && MemberBytes(row.members) == row.task.bytes
        && (forall i | 0 <= i < |row.members| :: row.members[i].rank < row.degree && row.members[i].bytes > 0)
        && (forall i | 0 < i < |row.members| :: row.members[i - 1].rank < row.members[i].rank)
      else row.members == []
    }

    /** Rank i is a task of its own that joined phase joined[i]. */
    ghost predicate RanksDone(s: State, row: Logical, deps: seq<nat>, first: nat, joined: seq<nat>) {
      |joined| <= |row.members| &&
      forall i | 0 <= i < |joined| :: RankDone(s, row, deps, first + i, row.members[i].bytes, joined[i])
    }

    /** One rank: a task with the resolved dependencies, its own bytes and one phase. */
    ghost predicate RankDone(s: State, row: Logical, deps: seq<nat>, id: nat, bytes: nat, pid: nat) {
      compiler.Converted(s, RankTask(row, deps, id, bytes)) && s.dag[id].kind == Barrier([pid]) && pid < |s.g|
    }

    lemma RankKept(s: State, s': State, row: Logical, deps: seq<nat>, id: nat, bytes: nat, pid: nat)
      requires RankDone(s, row, deps, id, bytes, pid) && Frozen(s, s')
      ensures RankDone(s', row, deps, id, bytes, pid)
    {
      compiler.ConvertedStays(s, s', RankTask(row, deps, id, bytes));
    }

    /** Ranks converted earlier stay what they are. */
    lemma RanksKept(s: State, s': State, row: Logical, deps: seq<nat>, first: nat, joined: seq<nat>)
      requires RanksDone(s, row, deps, first, joined) && Frozen(s, s')
      ensures RanksDone(s', row, deps, first, joined)
    {
      hide RankDone, Frozen;
      forall i | 0 <= i < |joined| ensures RankDone(s', row, deps, first + i, row.members[i].bytes, joined[i]) {
        RankKept(s, s', row, deps, first + i, row.members[i].bytes, joined[i]);
      }
    }

    lemma RanksGrow(s: State, row: Logical, deps: seq<nat>, first: nat, joined: seq<nat>, pid: nat)
      requires RanksDone(s, row, deps, first, joined) && |joined| < |row.members|
      requires RankDone(s, row, deps, first + |joined|, row.members[|joined|].bytes, pid)
      ensures RanksDone(s, row, deps, first, joined + [pid])
    {
      hide RankDone;
    }

    /** One more rank, after the others. */
    lemma RanksStep(s: State, s': State, s'': State, row: Logical, deps: seq<nat>, first: nat, joined: seq<nat>,
                    pid: nat)
      requires Good(s) && Good(s') && Frozen(s, s') && Frozen(s', s'') && |joined| < |row.members|
      requires RanksDone(s', row, deps, first, joined)
      requires RankDone(s'', row, deps, first + |joined|, row.members[|joined|].bytes, pid)
      requires Wrote(s, s', MembersTraffic(row.members[..|joined|], first, compiler.divisor), first, |joined|)
      requires Wrote(s', s'',
                     Labelled(first + |joined|, ScaledAll(Chunks(row.members[|joined|].bytes), compiler.divisor)),
                     first + |joined|, 1)
      ensures Frozen(s, s'') && RanksDone(s'', row, deps, first, joined + [pid])
      ensures Wrote(s, s'', MembersTraffic(row.members[..|joined| + 1], first, compiler.divisor), first, |joined| + 1)
    {
      hide Good, Frozen, RankDone, RanksDone, Wrote, MembersTraffic, Labelled, Chunks, ScaledAll;
      RanksKept(s', s'', row, deps, first, joined);
      RanksGrow(s'', row, deps, first, joined, pid);
      MembersStep(row.members, |joined|, first, compiler.divisor);
      WroteThen(s, s', s'', MembersTraffic(row.members[..|joined|], first, compiler.divisor),
                Labelled(first + |joined|, ScaledAll(Chunks(row.members[|joined|].bytes), compiler.divisor)),
                first, |joined|, 1);
      FrozenChain(s, s', s'');
    }

    lemma NothingYet(s: State, row: Logical, deps: seq<nat>, first: nat, divisor: positive)
      ensures RanksDone(s, row, deps, first, [])
      ensures Wrote(s, s, MembersTraffic(row.members[..0], first, divisor), first, 0)
    {
      NoMembers(first, divisor);
      WroteNothing(s, first);
    }

    /** The row of a rank is acceptable under the prepared gate. */
    ghost predicate RankAccepted(m: Moment, row: Logical, deps: seq<nat>, id: nat, prep: Prepared, bytes: nat) {
      compiler.Acceptable(m.s, RankTask(row, deps, id, bytes), Some(prep), Fresh(TaskOwner(id)), m.shared,
                          m.last, m.ready, compiler.firstTask + |m.s.rows|)
    }

    lemma RankAcceptable(row: Logical, deps: seq<nat>, id: nat, prep: Prepared, bytes: nat)
      requires compiler.Valid()
      ensures RankAccepted(compiler.Now(), row, deps, id, prep, bytes) ==
              compiler.Acceptable(compiler.S(), RankTask(row, deps, id, bytes), Some(prep), Fresh(TaskOwner(id)),
                                  compiler.groups.contents, compiler.lastDagId, compiler.prefillReady,
                                  compiler.nextTask)
    {
      hide Compiler.Acceptable, Good, Kempt;
    }

    /** Just this task and its rows were added. */
    lemma RankWrote(s: State, t: Task, form: Form, stored: bool)
      requires compiler.Landed(s, t, form, stored)
      ensures Wrote(s, compiler.S(), Labelled(t.id, compiler.Sizes(t)), t.id, 1)
    {
      hide Compiler.Landed, Compiler.Sizes, Compiler.Valid, Frozen, Writes;
      compiler.LandedValid(s, t, form, stored);
      assert IdRange(t.id, 1) == {t.id};
    }

    /** Converts the row of one rank under the prepared gate. */
    method Rank(row: Logical, deps: seq<nat>, prep: Prepared, bytes: nat) returns (r: Result<nat>)
      requires Valid() && row.task.class_.NETWORK? && Transfers(row.task.stage) && Validated(row.task) && bytes > 0
      requires prep.native.None? && prep.text == Sorted(prep.form.terms.Keys)
      requires Gathered(compiler.S(), RankTask(row, deps, nextId, bytes), deps, prep.form, compiler.Seals(row.task))
      modifies `nextId, compiler, compiler.phases, compiler.pruner, compiler.groups, compiler.forms
      ensures r.Ok? <==> old(RankAccepted(compiler.Now(), row, deps, nextId, prep, bytes))
      ensures r.Ok? ==> Valid() && Frozen(old(compiler.S()), compiler.S()) && nextId == old(nextId) + 1
      ensures r.Ok? ==> compiler.forms.table == old(compiler.forms.table) && compiler.lastDagId == old(nextId)
      ensures r.Ok? ==> RankDone(compiler.S(), row, deps, old(nextId), bytes, r.value)
      ensures r.Ok? ==> Wrote(old(compiler.S()), compiler.S(),
                              Labelled(old(nextId), ScaledAll(Chunks(bytes), compiler.divisor)), old(nextId), 1)
    {
      hide Good, Kempt, Gathered, PreparedSound, Compiler.Valid, Compiler.Landed, AliasesOk, Frozen, Compiler.Converted,
        Compiler.Converts, Wrote, Labelled, Chunks, ScaledAll, RankAccepted, Compiler.Acceptable, Compiler.Stores,
        Compiler.Onward, Cache.Valid, Sorted, RankDone;
      var t := RankTask(row, deps, nextId, bytes);
      ghost var s := compiler.S();
      IsGood();
      PreparedFits(s, t, prep);
      RankAcceptable(row, deps, nextId, prep, bytes);
      var converted := compiler.ConvertRow(t, Some(prep), Fresh(TaskOwner(t.id)), true);
      if converted.Err? {
        return Err(converted.reason);
      }
      LandedRank(s, t, converted.value.0);
      RankWrote(s, t, converted.value.0, false);
      Advance(s);
      nextId := nextId + 1;
      r := Ok(Largest(converted.value.0.terms.Keys));
      RankIsDone(row, deps, t.id, bytes, r.value);
    }

    lemma RankIsDone(row: Logical, deps: seq<nat>, id: nat, bytes: nat, pid: nat)
      requires compiler.Converted(compiler.S(), RankTask(row, deps, id, bytes)) && pid < |compiler.phases.graph|
      requires compiler.dag[id].kind == Barrier([pid])
      ensures RankDone(compiler.S(), row, deps, id, bytes, pid)
    {
      hide Compiler.Matches, PayloadOf;
    }

    /** One more expanded ID used: aliases and prepared gates are as good as before. */
    lemma Advance(s: State)
      requires Good(s) && Frozen(s, compiler.S()) && compiler.Valid()
      requires AliasesOk(aliases, nextId, lastLogical, s.forms) && PreparedSound(s, nextId, prepared.lru.entries)
      ensures AliasesOk(aliases, nextId + 1, lastLogical, compiler.forms.table)
      ensures PreparedSound(compiler.S(), nextId + 1, prepared.lru.entries)
    {
      hide Good, Kempt, PreparedSound, Compiler.Valid, Frozen, AliasesOk;
      IsGood();
      SoundKept(s, compiler.S(), nextId, nextId + 1, prepared.lru.entries);
      AliasesKept(s, compiler.S(), aliases, nextId, nextId + 1, lastLogical, lastLogical);
    }

    lemma LandedRank(s: State, t: Task, form: Form)
      requires compiler.Landed(s, t, form, false) && t.class_.NETWORK?
      ensures compiler.Valid() && Frozen(s, compiler.S()) && compiler.lastDagId == t.id
      ensures compiler.forms.table == s.forms
      ensures form.terms.Keys != {} && Largest(form.terms.Keys) < |compiler.phases.graph|
      ensures compiler.Converted(compiler.S(), t)
      ensures compiler.dag[t.id].kind == Barrier([Largest(form.terms.Keys)])
    {
      var n := compiler.dag[t.id];
      assert n.kind.pids[0] in form.terms.Keys;
      assert n.kind.pids == [n.kind.pids[0]];
    }

    lemma PreparedFits(s: State, t: Task, prep: Prepared)
      requires Good(s) && s == compiler.S() && compiler.v14 && Validated(t) && Transfers(t.stage)
      requires prep.native.None? && prep.text == Sorted(prep.form.terms.Keys)
      requires Gathered(s, t, t.deps, prep.form, compiler.Seals(t))
      ensures compiler.PreparedOk(t, prep)
    {
    }

    /** All ranks before this one were converted, and in the state they left its row is not acceptable. */
    ghost predicate RankRefused(m: Moment, row: Logical, deps: seq<nat>, first: nat, prep: Prepared, at: nat,
                                stop: Moment) {
      && at < |row.members| && Good(stop.s) && Frozen(m.s, stop.s) && (at == 0 ==> stop == m)
      && Wrote(m.s, stop.s, MembersTraffic(row.members[..at], first, compiler.divisor), first, at)
      && !RankAccepted(stop, row, deps, first + at, prep, row.members[at].bytes)
    }

    /** Converts every rank under the same prepared gate. */
    method Ranks(row: Logical, deps: seq<nat>, prep: Prepared)
      returns (r: Result<seq<nat>>, ghost at: nat, ghost stop: Moment)
      requires Valid() && row.task.class_.NETWORK? && MembersOk(row) && Transfers(row.task.stage) && Validated(row.task)
      requires prep.native.None? && prep.text == Sorted(prep.form.terms.Keys)
      requires Gathered(compiler.S(), RankTask(row, deps, nextId, 0), deps, prep.form, compiler.Seals(row.task))
      modifies `nextId, compiler, compiler.phases, compiler.pruner, compiler.groups, compiler.forms
      ensures r.Ok? ==> Valid() && Frozen(old(compiler.S()), compiler.S()) && nextId == old(nextId) + |row.members|
      ensures r.Ok? ==> compiler.forms.table == old(compiler.forms.table) && |r.value| == |row.members|
      ensures r.Ok? ==> RanksDone(compiler.S(), row, deps, old(nextId), r.value)
      ensures r.Ok? ==> Wrote(old(compiler.S()), compiler.S(),
                              MembersTraffic(row.members, old(nextId), compiler.divisor), old(nextId), |row.members|)
      ensures r.Err? ==> RankRefused(old(compiler.Now()), row, deps, old(nextId), prep, at, stop)
    {
      hide Good, Kempt, Gathered, PreparedSound, Compiler.Valid, AliasesOk, Frozen, RankDone, RanksDone, Wrote,
        MembersTraffic, RankAccepted, Cache.Valid, Labelled, Chunks, ScaledAll, RankTask, Compiler.Seals, Transfers,
        Validated, Sorted, Valid;
      var joined: seq<nat> := [];
      at, stop := 0, compiler.Now();
      ghost var s, first := compiler.S(), nextId;
      ValidIsGood();
      FrozenSelf(s);
      NothingYet(s, row, deps, first, compiler.divisor);
      for i := 0 to |row.members|
        invariant Valid() && Good(s) && Frozen(s, compiler.S()) && nextId == first + i && |joined| == i
        invariant compiler.forms.table == s.forms && RanksDone(compiler.S(), row, deps, first, joined)
        invariant Wrote(s, compiler.S(), MembersTraffic(row.members[..i], first, compiler.divisor), first, i)
        invariant i == 0 ==> compiler.Now() == old(compiler.Now())
      {
        ghost var s1 := compiler.S();
        at, stop := i, compiler.Now();
        ValidIsGood();
        RankGathered(s, s1, row, deps, first, nextId, row.members[i].bytes, prep.form);
        var pid := Rank(row, deps, prep, row.members[i].bytes);
        if pid.Err? {
          return Err(pid.reason), at, stop;
        }
        ValidIsGood();
        RanksStep(s, s1, compiler.S(), row, deps, first, joined, pid.value);
        joined := joined + [pid.value];
      }
      assert row.members[..|row.members|] == row.members;
      return Ok(joined), at, stop;
    }

    lemma RankGathered(s: State, s': State, row: Logical, deps: seq<nat>, first: nat, id: nat, bytes: nat, form: Form)
      requires Good(s) && Good(s') && Frozen(s, s') && Transfers(row.task.stage) && first <= id
      requires Gathered(s, RankTask(row, deps, first, 0), deps, form, compiler.Seals(row.task))
      ensures Gathered(s', RankTask(row, deps, id, bytes), deps, form, compiler.Seals(row.task))
    {
      GatheredKept(s, s', RankTask(row, deps, first, 0), form, compiler.Seals(row.task));
      KnownLater(s'.dag, first, id, deps);
      GatheredFor(s', RankTask(row, deps, first, 0), RankTask(row, deps, id, bytes), form, compiler.Seals(row.task));
    }

    /** What compiling one logical task leaves behind: its alias is a stored task whose phases are those of its
        ranks. */
    ghost predicate Compiled(s: State, row: Logical, deps: seq<nat>, first: nat, joined: seq<nat>, alias: nat) {
      && alias in s.dag && alias in s.forms && s.dag[alias].deps == deps && s.dag[alias].release == row.task.release
      && (if row.task.class_.NETWORK? then
            && |joined| == |row.members| && RanksDone(s, row, deps, first, joined)
            && s.dag[alias].kind == Barrier(Sorted(Phases(joined))) && s.forms[alias] == AllOf(Phases(joined))
            && PayloadOf(s.rows, alias) == []
          else
            compiler.Converted(s, RankTask(row, deps, alias, row.task.bytes)))
    }

    lemma CompiledKept(s: State, s': State, row: Logical, deps: seq<nat>, first: nat, joined: seq<nat>, alias: nat)
      requires Compiled(s, row, deps, first, joined, alias) && Frozen(s, s')
      ensures Compiled(s', row, deps, first, joined, alias)
    {
      hide PayloadOf, RanksDone, Compiler.Converted;
      if row.task.class_.NETWORK? {
        RanksKept(s, s', row, deps, first, joined);
        PayloadKept(s, s', alias);
      } else {
        compiler.ConvertedStays(s, s', RankTask(row, deps, alias, row.task.bytes));
      }
    }

    /** The row is part of the output: its dependencies resolved, its ranks converted, its alias stored. */
    ghost predicate RowCompiled(s: State, aliases: map<nat, nat>, row: Logical) {
      && row.task.id in aliases && MembersOk(row) && (forall d | d in row.task.deps :: d in aliases)
      && exists first: nat, joined: seq<nat> ::
           Compiled(s, row, Resolved(aliases, row.task.deps), first, joined, aliases[row.task.id])
    }

    lemma NowCompiled(s: State, aliases: map<nat, nat>, row: Logical, deps: seq<nat>, first: nat, joined: seq<nat>,
                      alias: nat)
      requires Compiled(s, row, deps, first, joined, alias) && deps == Resolved(aliases, row.task.deps)
      requires row.task.id !in aliases && MembersOk(row) && forall d | d in row.task.deps :: d in aliases
      ensures alias in s.forms && Grows(aliases, aliases[row.task.id := alias])
      ensures RowCompiled(s, aliases[row.task.id := alias], row)
    {
      hide RanksDone, Compiler.Converted;
      assert deps == Resolved(aliases[row.task.id := alias], row.task.deps);
    }

    /** Aliases are never reassigned. */
    ghost predicate Grows(aliases: map<nat, nat>, aliases': map<nat, nat>) {
      forall t | t in aliases :: t in aliases' && aliases'[t] == aliases[t]
    }

    lemma RowStays(s: State, s': State, aliases: map<nat, nat>, aliases': map<nat, nat>, row: Logical)
      requires RowCompiled(s, aliases, row) && Frozen(s, s') && Grows(aliases, aliases')
      ensures RowCompiled(s', aliases', row)
    {
      hide Compiled, Frozen, MembersOk;
      var deps := Resolved(aliases, row.task.deps);
      assert deps == Resolved(aliases', row.task.deps);
      var first: nat, joined: seq<nat> :| Compiled(s, row, deps, first, joined, aliases[row.task.id]);
      CompiledKept(s, s', row, deps, first, joined, aliases[row.task.id]);
    }

    lemma RowsStay(s: State, s': State, aliases: map<nat, nat>, aliases': map<nat, nat>, rows: seq<Logical>)
      requires (forall i | 0 <= i < |rows| :: RowCompiled(s, aliases, rows[i])) && Frozen(s, s')
      requires Grows(aliases, aliases')
      ensures forall i | 0 <= i < |rows| :: RowCompiled(s', aliases', rows[i])
    {
      hide RowCompiled, Frozen, Grows;
      forall i | 0 <= i < |rows| ensures RowCompiled(s', aliases', rows[i]) {
        RowStays(s, s', aliases, aliases', rows[i]);
      }
    }

    /** A later ID, dependencies that have aliases, and well-formed members. */
    ghost predicate Linked(row: Logical, last: int, aliases: map<nat, nat>) {
      row.task.id > last && (forall d | d in row.task.deps :: d in aliases) && MembersOk(row)
    }

    ghost predicate Rejected(m: Moment, entries: map<PrepareKey, Prepared>, row: Logical, deps: seq<nat>, first: nat,
                             why: Refusal) {
      if row.task.class_.NETWORK? then NetworkRefused(m, entries, row, deps, first, why)
      else !SingleAccepted(m, row, deps, first)
    }

    /** One logical task: its ranks as ephemeral rows under one gate, then an alias for all of them; or one row. */
    method Compile(row: Logical) returns (r: Result<()>, ghost why: Refusal)
      requires Valid() && Validated(row.task)
      modifies this, compiler, compiler.phases, compiler.pruner, compiler.groups, compiler.forms
      ensures r.Ok? ==> Valid() && Frozen(old(compiler.S()), compiler.S())
      ensures r.Ok? ==>
                row.task.id > old(lastLogical) && MembersOk(row) && forall d | d in row.task.deps :: d in old(aliases)
      ensures r.Ok? ==> row.task.id in aliases && aliases == old(aliases)[row.task.id := aliases[row.task.id]]
      ensures r.Ok? ==> exists joined: seq<nat> ::
                Compiled(compiler.S(), row, Resolved(old(aliases), row.task.deps), old(nextId), joined,
                         aliases[row.task.id])
      ensures r.Ok? ==> Grows(old(aliases), aliases) && RowCompiled(compiler.S(), aliases, row)
      ensures r.Ok? ==> nextId == old(nextId) + IdsUsed(row) && aliases[row.task.id] == nextId - 1
      ensures r.Ok? ==> Wrote(old(compiler.S()), compiler.S(), RowTraffic(row, old(nextId)), old(nextId), IdsUsed(row))
      ensures r.Ok? && !row.task.class_.NETWORK? ==> row.task.bytes == 0
      ensures r.Err? ==>
                || !Linked(row, old(lastLogical), old(aliases))
                || Rejected(old(compiler.Now()), old(prepared.lru.entries), row, Resolved(old(aliases), row.task.deps),
                            old(nextId), why)
      ensures r.Ok? && !row.task.class_.NETWORK? ==>
                old(SingleAccepted(compiler.Now(), row, Resolved(aliases, row.task.deps), nextId))
    {
      hide Good, Kempt, Gathered, PreparedSound, Compiler.Valid, Frozen, RanksDone, Wrote, RowTraffic, IdsUsed,
        Compiler.Converted, Compiled, RowCompiled, Grows, MembersOk, SingleAccepted, NetworkRefused;
      var tid := row.task.id;
      why := Refusal(compiler.Now(), Prepared(Form(0, map[]), None, []), 0, compiler.Now());
      if tid <= lastLogical {
        return Err("logical task IDs must be strictly increasing"), why;
      }
      lastLogical := tid;
      var deps := Resolve(row.task.deps);
      if deps.Err? {
        return Err(deps.reason), why;
      }
      assert deps.value == Resolved(old(aliases), row.task.deps);
      if !MembersOk(row) {
        return Err("invalid TP members"), why;
      }
      var alias;
      ghost var joined: seq<nat> := [];
      if row.task.class_.NETWORK? {
        alias, joined, why := CompileNetwork(row, deps.value);
      } else {
        alias := CompileSingle(row, deps.value);
      }
      if alias.Err? {
        return Err(alias.reason), why;
      }
      NowCompiled(compiler.S(), aliases, row, deps.value, old(nextId), joined, alias.value);
      aliases := aliases[tid := alias.value];
      return Ok(()), why;
    }

    /** Logical dependencies replaced by their aliases. */
    ghost function Resolved(aliases: map<nat, nat>, deps: seq<nat>): seq<nat> {
      seq(|deps|, i requires 0 <= i < |deps| => if deps[i] in aliases then aliases[deps[i]] else 0)
    }

    ghost predicate SingleAccepted(m: Moment, row: Logical, deps: seq<nat>, id: nat) {
      compiler.Acceptable(m.s, RankTask(row, deps, id, row.task.bytes), None, Fresh(TaskOwner(id)), m.shared,
                          m.last, m.ready, compiler.firstTask + |m.s.rows|)
    }

    lemma SingleAcceptable(row: Logical, deps: seq<nat>, id: nat)
      requires compiler.Valid() && !row.task.class_.NETWORK?
      ensures SingleAccepted(compiler.Now(), row, deps, id) ==
              compiler.Acceptable(compiler.S(), RankTask(row, deps, id, row.task.bytes), None, Fresh(TaskOwner(id)),
                                  compiler.groups.contents, compiler.lastDagId, compiler.prefillReady,
                                  compiler.nextTask)
      ensures SingleAccepted(compiler.Now(), row, deps, id) ==> row.task.bytes == 0
    {
      hide Good, Kempt, Compiler.RowGate, Compiler.RowFlags, Compiler.GateParents;
    }

    /** The traffic of a logical row whose first expanded ID is `first`. */
    function RowTraffic(row: Logical, first: nat): seq<(nat, nat)> {
      if row.task.class_.NETWORK? then MembersTraffic(row.members, first, compiler.divisor)
      else Labelled(first, compiler.Sizes(row.task))
    }

    lemma SingleTraffic(row: Logical, deps: seq<nat>, id: nat)
      requires !row.task.class_.NETWORK?
      ensures RowTraffic(row, id) == Labelled(id, compiler.Sizes(RankTask(row, deps, id, row.task.bytes)))
    {
    }

    /** Each rank takes an expanded ID, and so does the alias of them all. */
    function IdsUsed(row: Logical): nat {
      if row.task.class_.NETWORK? then |row.members| + 1 else 1
    }

    function AllIds(rows: seq<Logical>): nat {
      if rows == [] then 0 else AllIds(rows[..|rows| - 1]) + IdsUsed(rows[|rows| - 1])
    }

    /** The traffic of the whole logical input, row by row. */
    function AllTraffic(rows: seq<Logical>, first: nat): seq<(nat, nat)> {
      if rows == [] then []
      else
        var before := rows[..|rows| - 1];
        AllTraffic(before, first) + RowTraffic(rows[|rows| - 1], first + AllIds(before))
    }

    lemma AllStep(rows: seq<Logical>, i: nat, first: nat)
      requires i < |rows|
      ensures AllIds(rows[..i + 1]) == AllIds(rows[..i]) + IdsUsed(rows[i])
      ensures AllTraffic(rows[..i + 1], first)
           == AllTraffic(rows[..i], first) + RowTraffic(rows[i], first + AllIds(rows[..i]))
    {
      hide RowTraffic, IdsUsed;
      assert rows[..i + 1][..i] == rows[..i];
    }

    method CompileSingle(row: Logical, deps: seq<nat>) returns (r: Result<nat>)
      requires Valid() && Validated(row.task) && !row.task.class_.NETWORK?
      modifies `nextId, compiler, compiler.phases, compiler.pruner, compiler.groups, compiler.forms
      ensures r.Ok? ==> Valid() && Frozen(old(compiler.S()), compiler.S()) && r.value < nextId
      ensures r.Ok? <==> old(SingleAccepted(compiler.Now(), row, deps, nextId))
      ensures r.Ok? ==> nextId == old(nextId) + IdsUsed(row) && r.value == nextId - 1 && row.task.bytes == 0
      ensures r.Ok? ==> Wrote(old(compiler.S()), compiler.S(), RowTraffic(row, old(nextId)), old(nextId), IdsUsed(row))
      ensures r.Ok? ==> Compiled(compiler.S(), row, deps, old(nextId), [], r.value)
    {
      hide Good, Kempt, Gathered, PreparedSound, Compiler.Valid, Compiler.Landed, Frozen, AliasesOk, Compiler.Converted,
        Compiler.Converts, Wrote, RowTraffic, SingleAccepted;
      var t := RankTask(row, deps, nextId, row.task.bytes);
      ghost var s := compiler.S();
      IsGood();
      SingleAcceptable(row, deps, nextId);
      var converted := compiler.ConvertRow(t, None, Fresh(TaskOwner(t.id)), false);
      if converted.Err? {
        return Err(converted.reason);
      }
      LandedSingle(s, t, converted.value.0);
      RankWrote(s, t, converted.value.0, true);
      SingleTraffic(row, deps, nextId);
      Advance(s);
      nextId := nextId + 1;
      return Ok(t.id);
    }

    lemma LandedSingle(s: State, t: Task, form: Form)
      requires compiler.Landed(s, t, form, true)
      ensures compiler.Valid() && Frozen(s, compiler.S()) && compiler.lastDagId == t.id && t.id in compiler.forms.table
      ensures compiler.Converted(compiler.S(), t)
      ensures compiler.dag[t.id].deps == t.deps && compiler.dag[t.id].release == t.release
    {
      compiler.NowConverted(s, t, form, true);
    }

    lemma AliasCompiled(s: State, s': State, row: Logical, deps: seq<nat>, first: nat, joined: seq<nat>, alias: nat,
                        n: Node)
      requires RanksDone(s, row, deps, first, joined) && Frozen(s, s') && |joined| == |row.members|
      requires alias in s'.dag && s'.dag[alias] == n && row.task.class_.NETWORK?
      requires alias in s'.forms && s'.forms[alias] == AllOf(Phases(joined))
      requires n.deps == deps && n.release == row.task.release && n.kind == Barrier(Sorted(Phases(joined)))
      requires PayloadOf(s'.rows, alias) == []
      ensures Compiled(s', row, deps, first, joined, alias)
    {
      RanksKept(s, s', row, deps, first, joined);
    }

    lemma AliasLands(s: State, row: Logical, deps: seq<nat>, first: nat, joined: seq<nat>, n: Node)
      requires Good(s) && Frozen(s, compiler.S()) && compiler.Valid()
      requires AliasesOk(aliases, nextId, lastLogical, s.forms) && PreparedSound(s, nextId, prepared.lru.entries)
      requires RanksDone(s, row, deps, first, joined) && |joined| == |row.members| && row.task.class_.NETWORK?
      requires nextId in compiler.dag && compiler.dag[nextId] == n
      requires nextId in compiler.forms.table && compiler.forms.table[nextId] == AllOf(Phases(joined))
      requires n.deps == deps && n.release == row.task.release && n.kind == Barrier(Sorted(Phases(joined)))
      requires PayloadOf(compiler.rows, nextId) == []
      ensures AliasesOk(aliases, nextId + 1, lastLogical, compiler.forms.table)
      ensures PreparedSound(compiler.S(), nextId + 1, prepared.lru.entries)
      ensures Compiled(compiler.S(), row, deps, first, joined, nextId)
    {
      hide PayloadOf, Good, Kempt, PreparedSound, Compiler.Valid, Frozen, AliasesOk, RanksDone, Compiled;
      AliasCompiled(s, compiler.S(), row, deps, first, joined, nextId, n);
      Advance(s);
    }

    /** The alias that later rows refer to: complete when every rank's phase is. */
    method Alias(row: Logical, deps: seq<nat>, ghost first: nat, joined: seq<nat>) returns (alias: nat)
      requires Valid() && row.task.class_.NETWORK? && |joined| == |row.members|
      requires RanksDone(compiler.S(), row, deps, first, joined)
      requires Known(compiler.dag, nextId, deps) && (compiler.share ==> Consumed(compiler.S(), deps))
      modifies `nextId, compiler.forms, compiler`dag, compiler`lastDagId
      ensures Valid() && Frozen(old(compiler.S()), compiler.S()) && alias < nextId
      ensures Compiled(compiler.S(), row, deps, first, joined, alias) && compiler.rows == old(compiler.rows)
      ensures alias == old(nextId) && nextId == alias + 1
      ensures compiler.S().dag.Keys == old(compiler.S()).dag.Keys + {alias}
    {
      hide PayloadOf, Good, Kempt, PreparedSound, Compiler.Valid, Frozen, AliasesOk, RanksDone, Compiled, Consumed,
        Known, Cache.Valid, Phases, MembersOk;
      ghost var s := compiler.S();
      IsGood();
      JoinedPhases(s, row, deps, first, joined);
      NoRowsYet(nextId);
      ghost var n := compiler.AddAlias(nextId, deps, row.task.release, Phases(joined));
      AliasLands(s, row, deps, first, joined, n);
      alias := nextId;
      nextId := nextId + 1;
    }

    /** A task that does not exist yet has no rows. */
    lemma NoRowsYet(id: nat)
      requires compiler.Valid() && compiler.lastDagId < id
      ensures PayloadOf(compiler.rows, id) == []
    {
      IsGood();
      FreshTask(compiler.S(), compiler.slots, compiler.groups.contents, compiler.lastDagId, compiler.v14,
                compiler.share, id);
      NoPayload(compiler.rows, id);
    }

    lemma JoinedPhases(s: State, row: Logical, deps: seq<nat>, first: nat, joined: seq<nat>)
      requires RanksDone(s, row, deps, first, joined)
      ensures forall p | p in Phases(joined) :: p < |s.g|
    {
      hide Compiler.Converted;
      forall p | p in joined ensures p < |s.g| {
        var i :| 0 <= i < |joined| && joined[i] == p;
        assert RankDone(s, row, deps, first + i, row.members[i].bytes, joined[i]);
      }
    }

    /** A network row is refused: it is no transfer, no gate can be prepared, or one of its ranks is not acceptable
        under the gate prepared, in the state the ranks before it left. */
    ghost predicate NetworkRefused(m: Moment, entries: map<PrepareKey, Prepared>, row: Logical, deps: seq<nat>,
                                   first: nat,
                                   why: Refusal) {
      || !Transfers(row.task.stage)
      || !Preparable(RankTask(row, deps, first, 0), entries, m.ready, m.s.forms)
      || (Closes(m.s, why.m.s) && why.m == m.(s := why.m.s)
          && Gathered(why.m.s, RankTask(row, deps, first, 0), deps, why.prep.form, compiler.Seals(row.task))
          && RankRefused(why.m, row, deps, first, why.prep, why.at, why.stop))
    }

    /** The ranks of a network row under the gate prepared for them. */
    method PreparedRanks(row: Logical, deps: seq<nat>) returns (r: Result<seq<nat>>, ghost why: Refusal)
      requires Valid() && Validated(row.task) && row.task.class_.NETWORK? && MembersOk(row)
      modifies `nextId, `prepared, compiler, compiler.phases, compiler.pruner, compiler.groups, compiler.forms
      ensures r.Ok? ==> Valid() && Frozen(old(compiler.S()), compiler.S()) && nextId == old(nextId) + |row.members|
      ensures r.Ok? ==> |r.value| == |row.members| && RanksDone(compiler.S(), row, deps, old(nextId), r.value)
      ensures r.Ok? ==> Known(compiler.dag, nextId, deps) && (compiler.share ==> Consumed(compiler.S(), deps))
      ensures r.Ok? ==> Wrote(old(compiler.S()), compiler.S(),
                              MembersTraffic(row.members, old(nextId), compiler.divisor), old(nextId), |row.members|)
      ensures r.Err? ==> NetworkRefused(old(compiler.Now()), old(prepared.lru.entries), row, deps, old(nextId), why)
    {
      hide Good, Kempt, Gathered, PreparedSound, Compiler.Valid, Closes, Frozen, AliasesOk, RanksDone,
        Compiler.Converted, Wrote, MembersTraffic, RankRefused, Preparable, MembersOk;
      why := Refusal(compiler.Now(), Prepared(Form(0, map[]), None, []), 0, compiler.Now());
      if !Transfers(row.task.stage) {
        return Err("unsupported network task type"), why;
      }
      ghost var s := compiler.S();
      IsGood();
      var prep := Prepare(RankTask(row, deps, nextId, 0));
      if prep.Err? {
        return Err(prep.reason), why;
      }
      ghost var s1, first := compiler.S(), nextId;
      SealGood(s, s1);
      IsGood();
      ghost var at, stop;
      why := why.(m := compiler.Now(), prep := prep.value);
      r, at, stop := Ranks(row, deps, prep.value);
      why := why.(at := at, stop := stop);
      if r.Err? {
        return;
      }
      IsGood();
      FrozenChain(s, s1, compiler.S());
      WroteAfterSeal(s, s1, compiler.S(), MembersTraffic(row.members, first, compiler.divisor), first, |row.members|);
      GatheredConsumed(s1, compiler.S(), RankTask(row, deps, first, 0), prep.value.form, nextId,
                       compiler.Seals(row.task));
    }

    method CompileNetwork(row: Logical, deps: seq<nat>)
      returns (r: Result<nat>, ghost joined: seq<nat>, ghost why: Refusal)
      requires Valid() && Validated(row.task) && row.task.class_.NETWORK? && MembersOk(row)
      modifies `nextId, `prepared, compiler, compiler.phases, compiler.pruner, compiler.groups, compiler.forms
      ensures r.Ok? ==> Valid() && Frozen(old(compiler.S()), compiler.S()) && r.value < nextId
      ensures r.Ok? ==> Compiled(compiler.S(), row, deps, old(nextId), joined, r.value)
      ensures r.Ok? ==> nextId == old(nextId) + IdsUsed(row) && r.value == nextId - 1
      ensures r.Ok? ==> Wrote(old(compiler.S()), compiler.S(), RowTraffic(row, old(nextId)), old(nextId), IdsUsed(row))
      ensures r.Err? ==> NetworkRefused(old(compiler.Now()), old(prepared.lru.entries), row, deps, old(nextId), why)
    {
      hide Good, Kempt, PreparedSound, Compiler.Valid, Frozen, AliasesOk, RanksDone, Compiled, Known, Consumed,
        Wrote, MembersTraffic, NetworkRefused, MembersOk, Cache.Valid;
      ghost var s, first := compiler.S(), nextId;
      IsGood();
      var pids;
      joined := [];
      pids, why := PreparedRanks(row, deps);
      if pids.Err? {
        return Err(pids.reason), [], why;
      }
      IsGood();
      ghost var s2 := compiler.S();
      var alias := Alias(row, deps, first, pids.value);
      IsGood();
      FrozenChain(s, s2, compiler.S());
      WroteThenNone(s, s2, compiler.S(), MembersTraffic(row.members, first, compiler.divisor), first, |row.members|,
                    alias);
      return Ok(alias), pids.value, why;
    }

    ghost function Here(): Pause
      reads this, compiler`rows, compiler`dag, compiler`slots, compiler`lastDagId, compiler`prefillReady,
            compiler.forms`table, compiler.groups`contents, compiler.phases`graph, compiler.phases`sealedPhases
    {
      Pause(compiler.Now(), aliases, lastLogical, prepared.lru.entries)
    }

    /** From p to p' these logical rows were compiled: each is part of the output, and exactly their ranks, aliases and
        traffic were added. */
    ghost predicate Compiles(p: Pause, p': Pause, rows: seq<Logical>, first: nat) {
      && Frozen(p.m.s, p'.m.s) && (forall i | 0 <= i < |rows| :: RowCompiled(p'.m.s, p'.aliases, rows[i]))
      && (forall i | 0 <= i < |rows| :: !rows[i].task.class_.NETWORK? ==> rows[i].task.bytes == 0)
      && Wrote(p.m.s, p'.m.s, AllTraffic(rows, first), first, AllIds(rows))
    }

    lemma CompilesNothing(p: Pause, rows: seq<Logical>, first: nat)
      ensures Compiles(p, p, rows[..0], first) && AllIds(rows[..0]) == 0
    {
      FrozenSelf(p.m.s);
      WroteNothing(p.m.s, first);
    }

    lemma CompilesOne(p: Pause, p': Pause, p'': Pause, rows: seq<Logical>, i: nat, first: nat)
      requires i < |rows| && Good(p.m.s) && Good(p'.m.s) && Compiles(p, p', rows[..i], first)
      requires Frozen(p'.m.s, p''.m.s) && RowCompiled(p''.m.s, p''.aliases, rows[i]) && Grows(p'.aliases, p''.aliases)
      requires !rows[i].task.class_.NETWORK? ==> rows[i].task.bytes == 0
      requires Wrote(p'.m.s, p''.m.s, RowTraffic(rows[i], first + AllIds(rows[..i])), first + AllIds(rows[..i]),
                     IdsUsed(rows[i]))
      ensures Compiles(p, p'', rows[..i + 1], first) && AllIds(rows[..i + 1]) == AllIds(rows[..i]) + IdsUsed(rows[i])
    {
      hide Good, Frozen, RowCompiled, Grows, RowTraffic, IdsUsed, AllTraffic, AllIds, Wrote;
      AllStep(rows, i, first);
      FrozenChain(p.m.s, p'.m.s, p''.m.s);
      RowsStay(p'.m.s, p''.m.s, p'.aliases, p''.aliases, rows[..i]);
      WroteThen(p.m.s, p'.m.s, p''.m.s, AllTraffic(rows[..i], first), RowTraffic(rows[i], first + AllIds(rows[..i])),
                first, AllIds(rows[..i]), IdsUsed(rows[i]));
      assert forall j | 0 <= j < i :: rows[..i + 1][j] == rows[..i][j];
    }

    /** All rows before this one were compiled, and in the state they left it is refused. */
    ghost predicate Halted(p: Pause, rows: seq<Logical>, first: nat, at: nat, stop: Pause, why: Refusal) {
      && at < |rows| && Good(stop.m.s) && Compiles(p, stop, rows[..at], first) && (at == 0 ==> stop == p)
      && (!Validated(rows[at].task) || !Linked(rows[at], stop.last, stop.aliases)
          || Rejected(stop.m, stop.entries, rows[at], Resolved(stop.aliases, rows[at].task.deps),
                      first + AllIds(rows[..at]), why))
    }

    /** The whole logical input, row by row: every row is part of the final output, and nothing else is. */
    method Run(rows: seq<Logical>) returns (r: Result<()>, ghost at: nat, ghost stop: Pause, ghost why: Refusal)
      requires Valid()
      modifies this, compiler, compiler.phases, compiler.pruner, compiler.groups, compiler.forms
      ensures r.Ok? ==>
                Valid() && Compiles(old(Here()), Here(), rows, old(nextId)) && nextId == old(nextId) + AllIds(rows)
      ensures r.Err? ==> Halted(old(Here()), rows, old(nextId), at, stop, why)
    {
      hide Good, PreparedSound, Compiler.Valid, Frozen, AliasesOk, RowCompiled, Compiled, Wrote, RowTraffic, IdsUsed,
        Grows,
        Rejected, Linked, SingleAccepted, Resolved, AllIds, MembersOk, Compiles;
      IsGood();
      ghost var first, start := nextId, Here();
      at, stop := 0, start;
      why := Refusal(compiler.Now(), Prepared(Form(0, map[]), None, []), 0, compiler.Now());
      CompilesNothing(start, rows, first);
      for i := 0 to |rows|
        invariant Valid() && Good(start.m.s) && Compiles(start, Here(), rows[..i], first)
        invariant nextId == first + AllIds(rows[..i]) && (i == 0 ==> Here() == start)
      {
        at, stop := i, Here();
        IsGood();
        if !Validated(rows[i].task) {
          return Err("row lacks its batch type"), at, stop, why;
        }
        var done;
        done, why := Compile(rows[i]);
        if done.Err? {
          return Err(done.reason), at, stop, why;
        }
        CompilesOne(start, stop, Here(), rows, i, first);
      }
      assert rows[..|rows|] == rows;
      return Ok(()), at, stop, why;
    }
  }

  /** What a gathered gate consumed stays consumed. */
  lemma GatheredConsumed(s: State, s': State, t: Task, f: Form, next: nat, seals: bool)
    requires Gathered(s, t, t.deps, f, seals) && Frozen(s, s') && t.id <= next
    ensures Known(s'.dag, next, t.deps)
    ensures seals ==> Consumed(s', t.deps)
  {
    if seals {
      ConsumedForEver(s, s', t.deps);
    }
  }
}

/** The streaming compiler from DAG rows to native rows, phase records and stored forms. */
module Compilers {
  import opened Collections
  import opened Timing
  import opened Dominance
  import opened Tops
  import opened Dag
  import opened States
  import opened Tickets
  import opened PhaseTables
  import opened GroupTables
  import opened Grouping
  import opened TaskTables
  import opened Pruning
  import opened Chunking
  import opened Waves

  /** Groups and waves of the request being converted, for the schema that groups per request, and whose they are. */
  datatype Local = Local(owner: Owner, groups: map<Signature, Group>, waves: Waves, wavePhases: map<nat, string>)

  function Fresh(owner: Owner): Local {
    Local(owner, map[], UNSTARTED, map[])
  }

  /** What of the compiler decides about later rows. */
  datatype Moment = Moment(s: State, shared: map<Key, Group>, last: int, ready: map<nat, nat>)

  /** The P_DONE of each request, once a row was converted. */
  function ReadyWith(ready: map<nat, nat>, t: Task): map<nat, nat> {
    if t.stage.P_DONE? && t.batch.PREFILL? && t.request.Some? then ready[t.request.value := t.id] else ready
  }

  function ReadyAfter(ready: map<nat, nat>, tasks: seq<Task>): map<nat, nat> {
    if tasks == [] then ready
    else ReadyWith(ReadyAfter(ready, tasks[..|tasks| - 1]), tasks[|tasks| - 1])
  }

  lemma {:induction false} ReadyThen(ready: map<nat, nat>, x: seq<Task>, y: seq<Task>)
    ensures ReadyAfter(ready, x + y) == ReadyAfter(ReadyAfter(ready, x), y)
  {
    if y == [] {
      assert x + y == x;
    } else {
      assert (x + y)[..|x + y| - 1] == x + y[..|y| - 1];
      ReadyThen(ready, x, y[..|y| - 1]);
    }
  }

  /** An input Read of a Decode batch depends on the last P_DONE of its request before it, and on nothing else. */
  ghost predicate Entitled(ready: map<nat, nat>, tasks: seq<Task>, i: nat)
    requires i < |tasks|
  {
    var t, done := tasks[i], ReadyAfter(ready, tasks[..i]);
    t.stage.STORAGE_TO_D? && t.batch.DECODE? ==>
      t.request.Some? && t.request.value in done && t.deps == [done[t.request.value]]
  }

  ghost predicate AllEntitled(ready: map<nat, nat>, tasks: seq<Task>) {
    forall i | 0 <= i < |tasks| :: Entitled(ready, tasks, i)
  }

  lemma EntitledThen(ready: map<nat, nat>, x: seq<Task>, y: seq<Task>)
    requires AllEntitled(ready, x) && AllEntitled(ReadyAfter(ready, x), y)
    ensures AllEntitled(ready, x + y)
  {
    hide ReadyAfter;
    forall i | 0 <= i < |x + y| ensures Entitled(ready, x + y, i) {
      if i < |x| {
        assert Entitled(ready, x, i);
        assert (x + y)[..i] == x[..i];
      } else {
        assert Entitled(ReadyAfter(ready, x), y, i - |x|);
        assert (x + y)[..i] == x + y[..i - |x|];
        ReadyThen(ready, x, y[..i - |x|]);
      }
    }
  }

  function IdsOf(tasks: seq<Task>): set<nat> {
    set i | 0 <= i < |tasks| :: tasks[i].id
  }

  lemma IdsThen(x: seq<Task>, y: seq<Task>)
    ensures IdsOf(x + y) == IdsOf(x) + IdsOf(y)
  {
    forall id | id in IdsOf(x) + IdsOf(y) ensures id in IdsOf(x + y) {
      if i :| 0 <= i < |x| && x[i].id == id {
        assert (x + y)[i].id == id;
      } else {
        var i :| 0 <= i < |y| && y[i].id == id;
        assert (x + y)[|x| + i].id == id;
      }
    }
  }

  /** The IDs rise from above `after` to `last`. */
  ghost predicate Rising(after: int, tasks: seq<Task>, last: int) {
    && (forall i | 0 <= i < |tasks| :: after < tasks[i].id)
    && (forall i, j | 0 <= i < j < |tasks| :: tasks[i].id < tasks[j].id)
    && last == if tasks == [] then after else tasks[|tasks| - 1].id
  }

  lemma RisingThen(a: int, x: seq<Task>, b: int, y: seq<Task>, c: int)
    requires Rising(a, x, b) && Rising(b, y, c)
    ensures Rising(a, x + y, c)
  {
    var z := x + y;
    forall i, j | 0 <= i < j < |z| ensures z[i].id < z[j].id {
      if i < |x| {
        assert x[i].id <= x[|x| - 1].id;
      }
    }
    forall i | 0 <= i < |z| ensures a < z[i].id {
    }
  }

  /** Transfers carry a payload, take no time of their own and name a wave; nothing else carries a payload. */
  predicate Payable(t: Task) {
    if t.class_.NETWORK? then Transfers(t.stage) && t.bytes > 0 && t.duration == 0 && t.wave != "" else t.bytes == 0
  }

  /** The waves of the network rows, in order. */
  function WaveNames(tasks: seq<Task>): seq<string> {
    if tasks == [] then []
    else
      var last := |tasks| - 1;
      WaveNames(tasks[..last]) + if tasks[last].class_.NETWORK? then [tasks[last].wave] else []
  }

  /** Inputs of a native gate worked out once for all ranks of a logical task. */
  datatype NativeInputs = NativeInputs(parents: seq<nat>, floor: nat, common: nat, mixed: bool)

  datatype Prepared = Prepared(form: Form, native: Option<NativeInputs>, text: seq<nat>)

  /** The dependencies and release of a row, before it is known what becomes of it. */
  function Stub(t: Task): Node {
    Node(t.deps, t.release, 0, AfterAll, Folded)
  }

  // --------------------------------------------------------------- groups and records

  ghost predicate GroupRecord(g: Graph, slots: map<nat, Slot>, slot: Slot, group: Group) {
    && group.pid < |g| && group.pid in slots && slots[group.pid] == slot
    && g[group.pid].parents == group.parents && g[group.pid].floor == group.floor
  }

  ghost predicate SharedOk(g: Graph, slots: map<nat, Slot>, key: Key, group: Group) {
    && GroupRecord(g, slots, Shared(key), group)
    && (if BatchWide(key) then g[group.pid].delay == 0
        else g[group.pid].delay == group.maxDelay && group.parents == key.parents)
  }

  /** Each group mirrors the record of a phase that belongs to it alone. */
  ghost predicate Tracked(g: Graph, slots: map<nat, Slot>, groups: map<Key, Group>) {
    && (forall pid | pid in slots :: pid < |g|)
    && (forall key | key in groups :: SharedOk(g, slots, key, groups[key]))
  }

  /** The group under a key has the newest phase of that key: an older one is sealed, and a batch-wide key has none. */
  ghost predicate Latest(slots: map<nat, Slot>, groups: map<Key, Group>, flags: seq<bool>) {
    forall p | p in slots && slots[p].Shared? ::
      && slots[p].key in groups
      && (groups[slots[p].key].pid == p || (!BatchWide(slots[p].key) && p < |flags| && flags[p]))
  }

  /** A fresh phase under a key without an open group. */
  lemma LatestOpened(slots: map<nat, Slot>, groups: map<Key, Group>, flags: seq<bool>, key: Key, group: Group)
    requires Latest(slots, groups, flags) && (forall p | p in slots :: p < |flags|) && group.pid == |flags|
    requires key in groups ==> !BatchWide(key) && groups[key].pid < |flags| && flags[groups[key].pid]
    ensures Latest(slots[|flags| := Shared(key)], groups[key := group], flags + [false])
  {
  }

  /** A fresh phase under no key. */
  lemma LatestOther(slots: map<nat, Slot>, groups: map<Key, Group>, flags: seq<bool>, slot: Slot)
    requires Latest(slots, groups, flags) && !slot.Shared?
    ensures Latest(slots[|flags| := slot], groups, flags + [false])
  {
  }

  /** A group keeps its phase, and phases stay sealed. */
  lemma LatestSame(slots: map<nat, Slot>, groups: map<Key, Group>, groups': map<Key, Group>, flags: seq<bool>,
                   flags': seq<bool>)
    requires Latest(slots, groups, flags) && forall k | k in groups :: k in groups' && groups'[k].pid == groups[k].pid
    requires |flags| <= |flags'| && forall p | 0 <= p < |flags| && flags[p] :: flags'[p]
    ensures Latest(slots, groups', flags')
  {
  }

  ghost predicate LocalTracked(g: Graph, slots: map<nat, Slot>, owner: Owner, groups: map<Signature, Group>) {
    forall sig | sig in groups ::
      && GroupRecord(g, slots, Private(owner, sig), groups[sig])
      && g[groups[sig].pid].delay == groups[sig].maxDelay && groups[sig].parents == sig.1
  }

  /** The stored forms of these tasks were consumed: no phase in them takes another member. */
  ghost predicate Consumed(s: State, deps: seq<nat>) {
    forall i | 0 <= i < |deps| :: deps[i] in s.forms && TermsSealed(s, s.forms[deps[i]].terms)
  }

  /** Consumed forms stay as they are. */
  lemma ConsumedForEver(s: State, s': State, deps: seq<nat>)
    requires Consumed(s, deps) && Frozen(s, s')
    ensures Consumed(s', deps)
  {
  }

  ghost predicate AllOpen(flags: seq<bool>, groups: map<Signature, Group>) {
    forall sig | sig in groups :: groups[sig].pid < |flags| ==> !flags[groups[sig].pid]
  }

  /** What holds between any two rows besides the invariant of the abstract state. */
  ghost predicate Kempt(s: State, slots: map<nat, Slot>, groups: map<Key, Group>, last: int, v14: bool, share: bool) {
    && Tracked(s.g, slots, groups) && Latest(slots, groups, s.sealedPhases)
    && (v14 && share ==> ParentsSealed(s))
    && (!v14 ==> forall p: nat :: !IsSealed(s, p))
    && (forall t | t in s.dag :: t <= last)
    && (v14 && share ==> forall t | t in s.dag :: Consumed(s, s.dag[t].deps))
    && Derived(s) && (v14 ==> PaddedRows(s))
  }

  lemma KemptInitially(v14: bool, share: bool)
    ensures Good(State([], [], [], map[], map[], map[]))
    ensures Kempt(State([], [], [], map[], map[], map[]), map[], map[], -1, v14, share)
  {
  }

  // --------------------------------------------------------- gathering a row's gate

  /** A batch begin ignores its forecast release. */
  function RootOf(t: Task): nat {
    if t.stage.D_BATCH_BEGIN? then 0 else t.release
  }

  /** The gate gathered for a row from its dependencies `deps`: their stored forms merged, of a batch begin only the
      largest phase of each. */
  ghost predicate Gathered(s: State, t: Task, deps: seq<nat>, f: Form, seals: bool) {
    && Known(s.dag, t.id, deps) && InRange(s.g, f.terms) && AllIn(deps, s.forms)
    && f == Merged(s.forms, deps, RootOf(t), t.stage.D_BATCH_BEGIN?)
    && (seals ==> TermsSealed(s, f.terms) && Consumed(s, deps))
    && (!t.stage.D_BATCH_BEGIN? ==>
          && GateForm(s, t.id, Stub(t).(deps := deps), f, 0) && GateIdle(s, t.id, Stub(t).(deps := deps), f)
          && t.release <= f.root)
  }

  lemma GatherNothing(s: State, t: Task, root: nat, seals: bool)
    requires Good(s) && root == RootOf(t)
    ensures Gathered(s, t, [], Form(root, map[]), seals)
  {
    if !t.stage.D_BATCH_BEGIN? {
      forall C: Times, timed: bool
        ensures Eval(View(Form(root, map[]), timed), C) == Gate(s.dag, t.id, [], t.release, C, timed)
      {
        var v := View(Form(root, map[]), timed);
        assert v.terms == map[];
      }
    }
  }

  /** A batch begin keeps the largest phase of each predecessor and no root; any other row keeps everything. */
  function Taken(t: Task, f: Form): Form {
    if t.stage.D_BATCH_BEGIN? then Frontier(f) else f
  }

  lemma IdleStep(s: State, t: nat, n: Node, deps: seq<nat>, d: nat, f: Form)
    requires Good(s) && d in s.forms && Known(s.dag, t, deps + [d]) && GateIdle(s, t, n.(deps := deps), f)
    ensures GateIdle(s, t, n.(deps := deps + [d]), Merge(f, s.forms[d]))
  {
    var more := deps + [d];
    forall b | AllIdle(s.dag, t, more, b) ensures AllIdle(s.dag, t, deps, b) && Idle(s.dag, d, b) {
      assert forall i | 0 <= i < |deps| :: more[i] == deps[i];
      assert more[|deps|] == d;
    }
  }

  lemma GatherStep(s: State, t: Task, deps: seq<nat>, d: nat, f: Form, seals: bool)
    requires Good(s) && d in s.forms && d < t.id && Gathered(s, t, deps, f, seals)
    requires seals ==> TermsSealed(s, s.forms[d].terms)
    ensures Gathered(s, t, deps + [d], Merge(f, Taken(t, s.forms[d])), seals)
  {
    assert Known(s.dag, t.id, deps + [d]);
    assert (deps + [d])[..|deps|] == deps;
    if !t.stage.D_BATCH_BEGIN? {
      GateStep(s, t.id, Stub(t), deps, d, f);
      IdleStep(s, t.id, Stub(t), deps, d, f);
    }
  }

  lemma GatheredIs(s: State, t: Task, deps: seq<nat>, f: Form, seals: bool)
    requires Gathered(s, t, deps, f, seals)
    ensures f == Merged(s.forms, deps, RootOf(t), t.stage.D_BATCH_BEGIN?)
  {
  }

  /** The padding of a Prefill row comes from the gate it gathered. */
  lemma GatheredPads(s: State, t: Task, f: Form, n: Node, ticket: Ticket)
    requires Gathered(s, t, t.deps, f, true) && !t.stage.D_BATCH_BEGIN?
    requires n.deps == t.deps && n.release == t.release
    requires Lists(ticket.parents, f.terms) && PadsBy(s.g, f, ticket.delay, n.local)
    ensures Padded(s, n, ticket.parents, ticket.delay)
  {
  }

  /** Sealing changes no gate. */
  lemma GatheredSealed(s: State, s': State, t: Task, deps: seq<nat>, f: Form, seals: bool)
    requires Good(s') && Closes(s, s') && Gathered(s, t, deps, f, seals)
    ensures Gathered(s', t, deps, f, seals)
  {
  }

  /** Sealing these phases, or none. */
  lemma SealedSo(s: State, s': State, terms: map<nat, nat>, seals: bool)
    requires s' == Sealed(s, s'.sealedPhases) && |s'.sealedPhases| == |s.sealedPhases| == |s.g| && InRange(s.g, terms)
    requires forall p | 0 <= p < |s.g| :: s'.sealedPhases[p] == (s.sealedPhases[p] || (seals && p in terms))
    ensures Closes(s, s') && (seals ==> TermsSealed(s', terms)) && (!seals ==> s' == s)
  {
    if !seals {
      assert s'.sealedPhases == s.sealedPhases;
    }
  }

  lemma KemptSealed(s: State, s': State, slots: map<nat, Slot>, groups: map<Key, Group>, last: int, v14: bool,
                    share: bool)
    requires Good(s) && Kempt(s, slots, groups, last, v14, share) && Closes(s, s') && (v14 || s == s')
    ensures Good(s') && Kempt(s', slots, groups, last, v14, share) && Frozen(s, s')
  {
    SealGood(s, s');
    DerivedKept(s, s');
    forall p | 0 <= p < |s.sealedPhases| && s.sealedPhases[p] ensures s'.sealedPhases[p] {
      assert IsSealed(s, p);
    }
    LatestSame(slots, groups, groups, s.sealedPhases, s'.sealedPhases);
    if v14 {
      PaddedRowsKept(s, s');
    }
    forall u | v14 && share && u in s'.dag ensures Consumed(s', s'.dag[u].deps) {
      ConsumedForEver(s, s', s'.dag[u].deps);
    }
  }

  // ------------------------------------------------------ groups follow their records

  /** From one table of records to the next, no other kind of group lost its record. */
  ghost predicate KindKept(g: Graph, slots: map<nat, Slot>, g': Graph, slots': map<nat, Slot>, private: bool) {
    forall p | p in slots && slots[p].Private? == private ::
      p in slots' && slots'[p] == slots[p] && p < |g| && p < |g'| && g'[p] == g[p]
  }

  /** The group after one more member; `parents` is what its phase then waits for. */
  function Widened(group: Group, ticket: Ticket, parents: seq<nat>): Group {
    Group(group.pid, parents, Max(group.maxDelay, ticket.delay), Max(group.floor, ticket.floor))
  }

  predicate OpenGroup<K>(groups: map<K, Group>, flags: seq<bool>, key: K) {
    key in groups && !(groups[key].pid < |flags| && flags[groups[key].pid])
  }

  /** The group a member ends up in: the open one, wider by the member, or a fresh one. */
  function GroupFor<K>(groups: map<K, Group>, flags: seq<bool>, key: K, ticket: Ticket, parents: seq<nat>): Group {
    if OpenGroup(groups, flags, key) then Widened(groups[key], ticket, parents)
    else Group(|flags|, ticket.parents, ticket.delay, ticket.floor)
  }

  /** A batch-wide group waits for the parents of all its members. */
  function BatchMember(groups: map<Key, Group>, flags: seq<bool>, key: Key, ticket: Ticket): Group {
    GroupFor(groups, flags, key, ticket, Union(if key in groups then groups[key].parents else [], ticket.parents))
  }

  lemma LocalKept(g: Graph, slots: map<nat, Slot>, g': Graph, slots': map<nat, Slot>, owner: Owner,
                  groups: map<Signature, Group>)
    requires LocalTracked(g, slots, owner, groups) && KindKept(g, slots, g', slots', true)
    ensures LocalTracked(g', slots', owner, groups)
  {
    forall sig | sig in groups
      ensures GroupRecord(g', slots', Private(owner, sig), groups[sig])
      ensures g'[groups[sig].pid].delay == groups[sig].maxDelay
    {
      assert slots[groups[sig].pid].Private?;
    }
  }

  lemma SharedKept(g: Graph, slots: map<nat, Slot>, g': Graph, slots': map<nat, Slot>, groups: map<Key, Group>)
    requires Tracked(g, slots, groups) && KindKept(g, slots, g', slots', false) && forall p | p in slots' :: p < |g'|
    ensures Tracked(g', slots', groups)
  {
    forall key | key in groups ensures SharedOk(g', slots', key, groups[key]) {
      assert SharedOk(g, slots, key, groups[key]) && !slots[groups[key].pid].Private?;
    }
  }

  /** A fresh phase for a group. */
  lemma TrackOpen(g: Graph, slots: map<nat, Slot>, groups: map<Key, Group>, slot: Slot, rec: Phase)
    requires Tracked(g, slots, groups)
    ensures Tracked(g + [rec], slots[|g| := slot], groups)
    ensures KindKept(g, slots, g + [rec], slots[|g| := slot], true) && SlotsKept(slots, slots[|g| := slot])
    ensures forall p | p in slots :: p < |g|
  {
    forall key | key in groups ensures SharedOk(g + [rec], slots[|g| := slot], key, groups[key]) {
      assert SharedOk(g, slots, key, groups[key]);
    }
  }

  lemma SharedFacts(g: Graph, slots: map<nat, Slot>, groups: map<Key, Group>, key: Key)
    requires Tracked(g, slots, groups) && key in groups
    ensures SharedOk(g, slots, key, groups[key])
  {
  }

  lemma TrackStore(g: Graph, slots: map<nat, Slot>, groups: map<Key, Group>, key: Key, group: Group)
    requires Tracked(g, slots, groups) && SharedOk(g, slots, key, group)
    ensures Tracked(g, slots, groups[key := group])
  {
  }

  /** The record of a shared group rewritten together with the group. */
  lemma TrackRewrite(g: Graph, slots: map<nat, Slot>, groups: map<Key, Group>, key: Key, group: Group, rec: Phase)
    requires Tracked(g, slots, groups) && key in groups && group.pid == groups[key].pid
    requires group.pid < |g| && SharedOk(g[group.pid := rec], slots, key, group)
    ensures Tracked(g[group.pid := rec], slots, groups[key := group])
    ensures KindKept(g, slots, g[group.pid := rec], slots, true)
  {
    assert SharedOk(g, slots, key, groups[key]);
    forall k | k in groups && k != key ensures SharedOk(g[group.pid := rec], slots, k, groups[k]) {
      assert SharedOk(g, slots, k, groups[k]);
    }
  }

  /** A phase of a wave waits for earlier phases only, and so does every row that joins it. */
  lemma WaveBelow(g: Graph, slots: map<nat, Slot>, groups: map<Key, Group>, key: Key)
    requires Tracked(g, slots, groups) && Topological(g)
    ensures key in groups && !BatchWide(key) ==> Below(key.parents, groups[key].pid)
  {
    if key in groups && !BatchWide(key) {
      assert SharedOk(g, slots, key, groups[key]);
    }
  }

  lemma LocalBelow(g: Graph, slots: map<nat, Slot>, owner: Owner, groups: map<Signature, Group>, signature: Signature)
    requires LocalTracked(g, slots, owner, groups) && Topological(g) && signature in groups
    ensures Below(signature.1, groups[signature].pid)
  {
  }

  lemma LocalSlot(g: Graph, slots: map<nat, Slot>, owner: Owner, groups: map<Signature, Group>, signature: Signature)
    requires LocalTracked(g, slots, owner, groups) && signature in groups
    ensures groups[signature].pid in slots && slots[groups[signature].pid] == Private(owner, signature)
  {
  }

  lemma AscendingBelow(parents: seq<nat>, pid: nat)
    requires Ascending(parents) && (parents == [] || parents[|parents| - 1] < pid)
    ensures Below(parents, pid)
  {
  }

  class Compiler {
    const base: nat
    const firstTask: nat
    const policy: Policy
    const share: bool
    const v14: bool
    const readOverride: Option<nat>
    const divisor: positive
    const phases: PhaseTable
    const pruner: Pruner
    const groups: GroupTable
    const forms: FormTable
    var nextPhase: nat
    var nextTask: nat
    var lastDagId: int
    var rows: seq<Row>
    var prefillReady: map<nat, nat>
    var requests: set<nat>
    ghost var dag: Tasks
    ghost var slots: map<nat, Slot>

    /** The default configuration compacts every local form to one phase. */
    predicate Eager() {
      policy == MaxPhase && v14 && share
    }

    predicate Seals(t: Task) {
      v14 && (share || t.batch.PREFILL?)
    }

    ghost function S(): State
      reads this`rows, this`dag, this`slots, forms`table, phases`graph, phases`sealedPhases
    {
      State(phases.graph, phases.sealedPhases, rows, forms.table, dag, slots)
    }

    ghost function Now(): Moment
      reads this`rows, this`dag, this`slots, this`lastDagId, this`prefillReady, forms`table, groups`contents,
            phases`graph, phases`sealedPhases
    {
      Moment(S(), groups.contents, lastDagId, prefillReady)
    }

    ghost predicate Stores()
      reads this`nextPhase, phases, pruner, groups, forms
    {
      && pruner.phases == phases && phases.Valid() && pruner.Valid() && groups.Valid() && forms.Valid()
      && nextPhase == |phases.graph| == |phases.sealedPhases|
    }

    /** Native rows are numbered from the first traffic ID without a gap. */
    ghost predicate Numbered()
      reads this`rows, this`nextTask
    {
      nextTask == firstTask + |rows| && Consecutive(rows, firstTask)
    }

    ghost predicate Valid()
      reads this`nextPhase, this`nextTask, this`rows, this`dag, this`slots, this`lastDagId, phases, pruner, groups,
            forms
    {
      Stores() && Numbered() && Good(S()) && Kempt(S(), slots, groups.contents, lastDagId, v14, share)
    }

    constructor (base: nat, firstTask: nat, policy: Policy, share: bool, v14: bool, readOverride: Option<nat>,
                 divisor: positive)
      ensures Valid() && rows == [] && dag == map[] && lastDagId == -1
      ensures fresh(phases) && fresh(pruner) && fresh(groups) && fresh(forms)
      ensures this.policy == policy && this.share == share && this.v14 == v14 && this.firstTask == firstTask
      ensures this.divisor == divisor && this.base == base && this.readOverride == readOverride
    {
      hide Good, Kempt, PhaseTable.Valid, GroupTable.Valid, Pruner.Valid, FormTable.Valid;
      KemptInitially(v14, share);
      this.base, this.firstTask, this.policy, this.share, this.v14 := base, firstTask, policy, share, v14;
      this.readOverride, this.divisor := readOverride, divisor;
      var table := new PhaseTable();
      phases := table;
      pruner := new Pruner(table);
      groups := new GroupTable();
      forms := new FormTable();
      nextPhase, nextTask, lastDagId := 0, firstTask, -1;
      rows, prefillReady, requests := [], map[], {};
      dag, slots := map[], map[];
    }

    function ReadLatency(t: Task): nat {
      if readOverride.Some? then readOverride.value else t.readLatency
    }

    // ------------------------------------------------------------- consuming stored forms

    /** Consuming a form closes its phases to further members. */
    method SealTerms(t: Task, terms: map<nat, nat>)
      requires Valid() && InRange(phases.graph, terms)
      modifies phases`sealedPhases
      ensures Valid() && Closes(old(S()), S())
      ensures Seals(t) ==> TermsSealed(S(), terms)
      ensures forall p | 0 <= p < |phases.sealedPhases| ::
                phases.sealedPhases[p] == (old(phases.sealedPhases)[p] || (Seals(t) && p in terms))
    {
      hide Good, Kempt, PhaseTable.Valid, GroupTable.Valid, Pruner.Valid, FormTable.Valid, Numbered, Closes,
        TermsSealed, Frozen;
      ghost var s0 := S();
      if Seals(t) {
        assert forall p :: p in Sorted(terms.Keys) <==> p in terms;
        phases.SealAll(Sorted(terms.Keys));
      }
      SealedSo(s0, S(), terms, Seals(t));
      KemptSealed(s0, S(), slots, groups.contents, lastDagId, v14, share);
    }

    /** A Decode input Read must name exactly its own request's P_DONE. */
    predicate MayConsume(t: Task, ready: map<nat, nat>) {
      t.stage.STORAGE_TO_D? && t.batch.DECODE? ==>
        t.request.Some? && t.request.value in ready && t.deps == [ready[t.request.value]]
    }

    /** The seals after a row consumed its dependencies. */
    ghost function SealsAfter(t: Task, deps: seq<nat>, table: map<nat, Form>, flags: seq<bool>): (after: seq<bool>)
      ensures |after| == |flags|
    {
      seq(|flags|, i requires 0 <= i < |flags| => flags[i] || (Seals(t) && SealedBy(table, deps, i)))
    }

    /** That single stored form was taken over as it is. */
    ghost predicate TakenOver(t: Task) {
      v14 && |t.deps| == 1 && !t.stage.D_BATCH_BEGIN?
    }

    /** The gate of a row: the ALL of its stored dependencies and its release time. The flag says that a single
        stored form was taken over as it is, so that it need not be pruned again. */
    method Incoming(t: Task) returns (r: Result<(Form, bool)>)
      requires Valid() && forall u | u in dag :: u < t.id
      modifies phases`sealedPhases, forms`cache
      ensures Valid() && Closes(old(S()), S())
      ensures r.Ok? ==> Gathered(S(), t, t.deps, r.value.0, Seals(t))
      ensures r.Ok? <==> MayConsume(t, prefillReady) && AllIn(t.deps, forms.table)
      ensures r.Ok? ==> r.value.1 == TakenOver(t)
      ensures r.Ok? ==> phases.sealedPhases == SealsAfter(t, t.deps, forms.table, old(phases.sealedPhases))
    {
      hide Good, Kempt, Gathered, PhaseTable.Valid, GroupTable.Valid, Pruner.Valid, FormTable.Valid, SealsAfter;
      if !MayConsume(t, prefillReady) {
        return Err("an input Read must depend directly on its own P_DONE");
      }
      var form := Form(RootOf(t), map[]);
      GatherNothing(S(), t, form.root, Seals(t));
      var missing := false;
      NothingConsumed(t, t.deps[..0], forms.table, phases.sealedPhases);
      for i := 0 to |t.deps|
        invariant Valid() && Closes(old(S()), S())
        invariant missing == !AllIn(t.deps[..i], forms.table)
        invariant !missing ==> Gathered(S(), t, t.deps[..i], form, Seals(t))
        invariant !missing ==> phases.sealedPhases == SealsAfter(t, t.deps[..i], forms.table, old(phases.sealedPhases))
      {
        assert t.deps[..i + 1] == t.deps[..i] + [t.deps[i]];
        var found := forms.Find(t.deps[i]);
        if found.None? {
          missing := true;
        } else {
          ghost var flags := phases.sealedPhases;
          form := Consume(t, t.deps[..i], t.deps[i], form, found.value, missing);
          if !missing {
            OneMoreConsumed(t, t.deps[..i], t.deps[i], forms.table, old(phases.sealedPhases), flags,
                            phases.sealedPhases);
          }
        }
      }
      assert t.deps[..|t.deps|] == t.deps;
      if missing {
        return Err("missing or forward dependency");
      }
      return Ok((form, v14 && |t.deps| == 1 && !t.stage.D_BATCH_BEGIN?));
    }

    /** Seals the phases of one dependency and merges its form. */
    method Consume(t: Task, deps: seq<nat>, d: nat, form: Form, found: Form, missing: bool) returns (merged: Form)
      requires Valid() && d in forms.table && forms.table[d] == found && forall u | u in dag :: u < t.id
      requires !missing ==> Gathered(S(), t, deps, form, Seals(t))
      modifies phases`sealedPhases
      ensures Valid() && Closes(old(S()), S())
      ensures !missing ==> Gathered(S(), t, deps + [d], merged, Seals(t))
      ensures forall p | 0 <= p < |phases.sealedPhases| ::
                phases.sealedPhases[p] == (old(phases.sealedPhases)[p] || (Seals(t) && p in found.terms))
    {
      ghost var s0 := S();
      assert d in s0.forms && d in s0.dag && InRange(s0.g, found.terms);
      SealTerms(t, found.terms);
      merged := Merge(form, Taken(t, found));
      if !missing {
        GatheredSealed(s0, S(), t, deps, form, Seals(t));
        GatherStep(S(), t, deps, d, form, Seals(t));
      }
    }

    lemma NothingConsumed(t: Task, deps: seq<nat>, table: map<nat, Form>, flags: seq<bool>)
      requires deps == []
      ensures SealsAfter(t, deps, table, flags) == flags
    {
    }

    lemma OneMoreConsumed(t: Task, deps: seq<nat>, d: nat, table: map<nat, Form>, flags: seq<bool>, before: seq<bool>,
                          after: seq<bool>)
      requires before == SealsAfter(t, deps, table, flags) && |after| == |flags| && d in table
      requires forall p | 0 <= p < |after| :: after[p] == (before[p] || (Seals(t) && p in table[d].terms))
      ensures after == SealsAfter(t, deps + [d], table, flags)
    {
      forall p: nat ensures SealedBy(table, deps + [d], p) <==> SealedBy(table, deps, p) || p in table[d].terms {
        assert forall e :: e in deps + [d] <==> e in deps || e == d;
      }
    }

    // ------------------------------------------------ what a row waits for, if it is accepted

    /** The one normal form of a gate under the configured policy. */
    ghost function NormalOf(g: Graph, form: Form, pruned: bool): Form {
      if Eager() then RootlessMax(g, Compacted(form))
      else
        var out := if pruned then form else Form(form.root, Kept(g, form.terms));
        if policy.MaxPhase? then RootlessMax(g, out)
        else if Coverable(g, out) then Form(0, out.terms) else out
    }

    /** Native gates: refused under the error policy with a root or two different lags. */
    ghost function NativeParents(f: Form): Option<seq<nat>> {
      if policy.Error? && f.terms.Keys != {}
         && (f.root > 0 || exists p, q | p in f.terms && q in f.terms :: f.terms[p] != f.terms[q])
      then None else Some(NativeText(Sorted(f.terms.Keys)))
    }

    /** The phases a Decode row waits for: an input Read its Prefill frontier, any other row all of them. */
    ghost function Awaited(g: Graph, stage: Stage, terms: map<nat, nat>): map<nat, nat> {
      if stage.STORAGE_TO_D? then
        if terms.Keys == {} then map[] else map[Largest(terms.Keys) := terms[Largest(terms.Keys)]]
      else Kept(g, terms)
    }

    /** Decode gates: refused without a predecessor, or with a lag after an awaited one. */
    ghost function DecodeParents(g: Graph, stage: Stage, terms: map<nat, nat>): Option<seq<nat>> {
      var awaited := Awaited(g, stage, terms);
      if terms.Keys != {} && forall p | p in awaited :: awaited[p] == 0 then Some(Sorted(awaited.Keys)) else None
    }

    /** The dependencies of a row with this gate, or None if the gate cannot be expressed. */
    ghost function GateParents(g: Graph, t: Task, form: Form, pruned: bool, ready: bool): Option<seq<nat>> {
      if t.batch.PREFILL? then Some(Sorted(form.terms.Keys))
      else if DecodeGated(t) then DecodeParents(g, t.stage, form.terms)
      else NativeParents(if ready then form else NormalOf(g, Delayed(t, form), pruned))
    }

    /** A Read starts its latency after its gate. */
    function Delayed(t: Task, form: Form): Form {
      if Reads(t.stage) then Shift(form, ReadLatency(t)) else form
    }

    // ------------------------------------------------------------------- normal forms

    /** Prunes once, then drops a root that the known floor of a phase already enforces. The default
        configuration keeps the largest phase only. */
    method Normalize(form: Form, pruned: bool) returns (out: Form)
      requires Stores() && InRange(phases.graph, form.terms)
      modifies phases`vectors, pruner`cache
      ensures Stores() && Normal(phases.graph, form, out, Eager())
      ensures policy.MaxPhase? ==> RootCovered(phases.graph, out, form.root)
      ensures Eager() ==> out == RootlessMax(phases.graph, Compacted(form))
      ensures out == NormalOf(phases.graph, form, pruned)
    {
      hide PhaseTable.Valid, GroupTable.Valid, FormTable.Valid, SameValue;
      if Eager() {
        out := Compacted(form);
        if out.terms.Keys != {} && RootlessAt(out, Largest(out.terms.Keys)) {
          out := Form(0, out.terms);
        }
        return;
      }
      out := form;
      NormalSelf(phases.graph, form);
      if !pruned {
        var kept := pruner.Prune(form.terms);
        NormalPruned(phases.graph, form);
        out := Form(form.root, kept);
      }
      if policy.MaxPhase? {
        if out.terms.Keys != {} && RootlessAt(out, Largest(out.terms.Keys)) {
          out := Rootless(form, out, Largest(out.terms.Keys));
        }
      } else if p :| p in out.terms && RootlessAt(out, p) {
        out := Rootless(form, out, p);
      }
    }

    predicate RootlessAt(f: Form, p: nat)
      requires Stores() && p in f.terms && InRange(phases.graph, f.terms)
      reads this`nextPhase, phases, pruner, groups, forms
    {
      f.root <= phases.Floor(p) + f.terms[p]
    }

    method Rootless(ghost form: Form, f: Form, ghost p: nat) returns (out: Form)
      requires Normal(phases.graph, form, f, false) && InRange(phases.graph, f.terms) && f.root == form.root
      requires p in f.terms && f.root <= phases.graph[p].floor + f.terms[p]
      ensures out == Form(0, f.terms) && Normal(phases.graph, form, out, false)
    {
      out := Form(0, f.terms);
      NormalRootless(phases.graph, f, p);
      NormalTransitive(phases.graph, form, f, out);
    }

    // --------------------------------------------------------------------------- gates

    /** The dependencies of an accepted ticket. */
    function Granted(r: Result<Ticket>): Option<seq<nat>> {
      if r.Ok? then Some(r.value.parents) else None
    }

    /** The rule a native gate follows under the configured policy. */
    function NativeRule(): Rule {
      match policy
      case Error => Exactly
      case Conservative => NoEarlier
      case MaxPhase => NotBeforeRelease
    }

    /** What a native gate is made from: the exact gate, or under max-phase one that keeps the release time. */
    ghost predicate NativeForm(t: nat, n: Node, form: Form)
      reads this`rows, this`dag, this`slots, forms`table, phases`graph, phases`sealedPhases
    {
      && Closed(dag) && Known(dag, t, n.deps) && n.rule == NativeRule() && InRange(phases.graph, form.terms)
      && (if policy.MaxPhase? then
            && ReleaseKept(phases.graph, form, n.release + n.local)
            && TopOf(form.terms) == Lifted(GateTop(dag, t, n.deps), n.local)
          else GateForm(S(), t, n, form, n.local))
    }

    /** Inputs worked out beforehand, possibly with a floor that has risen since. */
    ghost predicate NativeOk(form: Form, inputs: NativeInputs)
      reads phases`graph
    {
      && InRange(phases.graph, form.terms) && Lists(inputs.parents, form.terms)
      && (if policy.MaxPhase? then
            form.terms.Keys != {} ==> inputs.floor <= phases.graph[Largest(form.terms.Keys)].floor
          else
            LagFacts(form.terms, inputs.common, inputs.mixed) &&
            (inputs.floor == 0 ||
             exists p | p in inputs.parents :: p < |phases.graph| && inputs.floor <= phases.graph[p].floor))
    }

    /** The largest known floor of some phases. */
    method ParentFloor(parents: seq<nat>) returns (floor: nat)
      requires Stores() && Below(parents, |phases.graph|)
      ensures forall p | p in parents :: p < |phases.graph| && phases.graph[p].floor <= floor
      ensures floor == 0 || exists p | p in parents :: p < |phases.graph| && floor == phases.graph[p].floor
    {
      hide PhaseTable.Valid, GroupTable.Valid, Pruner.Valid, FormTable.Valid;
      floor := 0;
      for i := 0 to |parents|
        invariant forall j | 0 <= j < i :: phases.graph[parents[j]].floor <= floor
        invariant floor == 0 || exists j :: 0 <= j < i && floor == phases.graph[parents[j]].floor
      {
        floor := Max(floor, phases.Floor(parents[i]));
      }
    }

    method NativeInputsOf(form: Form) returns (inputs: NativeInputs)
      requires Stores() && InRange(phases.graph, form.terms)
      ensures NativeOk(form, inputs)
      ensures policy.MaxPhase? && form.terms.Keys != {} ==> inputs.floor == phases.graph[Largest(form.terms.Keys)].floor
      ensures !policy.MaxPhase? ==>
                forall p | p in inputs.parents :: p < |phases.graph| && phases.graph[p].floor <= inputs.floor
    {
      hide PhaseTable.Valid, GroupTable.Valid, Pruner.Valid, FormTable.Valid;
      var parents := Sorted(form.terms.Keys);
      ListsBelow(parents, form.terms, phases.graph);
      if form.terms.Keys == {} {
        inputs := NativeInputs([], 0, 0, false);
      } else if policy.MaxPhase? {
        inputs := NativeInputs(parents, phases.Floor(Largest(form.terms.Keys)), 0, false);
      } else {
        inputs := CommonInputs(form, parents);
      }
    }

    method CommonInputs(form: Form, parents: seq<nat>) returns (inputs: NativeInputs)
      requires Stores() && InRange(phases.graph, form.terms) && Lists(parents, form.terms)
      requires Below(parents, |phases.graph|) && form.terms.Keys != {} && !policy.MaxPhase?
      ensures NativeOk(form, inputs)
      ensures forall p | p in inputs.parents :: p < |phases.graph| && phases.graph[p].floor <= inputs.floor
    {
      hide PhaseTable.Valid, GroupTable.Valid, Pruner.Valid, FormTable.Valid;
      var common := CommonLag(form.terms);
      var floor := ParentFloor(parents);
      inputs := NativeInputs(parents, floor, common, exists p | p in form.terms :: form.terms[p] != common);
    }

    /** The dependencies a native row writes: all of them, or under max-phase the last one. */
    function NativeText(parents: seq<nat>): seq<nat> {
      if policy.MaxPhase? && parents != [] then [parents[|parents| - 1]] else parents
    }

    /** One dependency list and one delay for a symbolic gate, or a refusal under the error policy. */
    method NativeGate(form: Form, prepared: Option<NativeInputs>, ghost t: nat, ghost n: Node)
      returns (r: Result<Ticket>)
      requires Stores() && Good(S()) && NativeForm(t, n, form)
      requires prepared.Some? ==> NativeOk(form, prepared.value)
      ensures r.Ok? ==> Fits(S(), t, n, r.value) && forall p | p in r.value.parents :: p in form.terms
      ensures r.Ok? && prepared.Some? ==> r.value.parents == NativeText(prepared.value.parents)
      ensures prepared.None? && policy.MaxPhase? ==> r == Ok(Selection(phases.graph, form))
      ensures r.Ok? && !policy.MaxPhase? ==>
                r.value.delay <= form.root || exists p | p in form.terms :: form.terms[p] == r.value.delay
      ensures r.Ok? && !policy.MaxPhase? && prepared.None? ==> Tight(phases.graph, r.value)
      ensures Granted(r) == NativeParents(form)
    {
      hide PhaseTable.Valid, GroupTable.Valid, Pruner.Valid, FormTable.Valid, Good, GateForm, Fits, Tight, LagFacts,
        NativeParents;
      var inputs;
      if prepared.Some? { inputs := prepared.value; } else { inputs := NativeInputsOf(form); }
      NativeGranted(form, inputs);
      if inputs.parents == [] {
        assert form.terms.Keys == {} by {
          assert forall p | p in form.terms :: p in inputs.parents;
        }
        NativeAlone(form, Ticket([], form.root, form.root), t, n);
        return Ok(Ticket([], form.root, form.root));
      }
      assert inputs.parents[0] in form.terms.Keys;
      if policy.MaxPhase? {
        var ticket := NativeSelected(form, inputs, t, n);
        return Ok(ticket);
      }
      if policy.Error? && (inputs.mixed || form.root > 0) {
        return Err("native one-delay format cannot represent this gate exactly");
      }
      var delay := Max(inputs.common, Max(0, form.root - inputs.floor));
      var ticket := Ticket(inputs.parents, delay, inputs.floor + delay);
      NativeTogether(form, inputs, ticket, t, n);
      NativeTight(phases.graph, inputs, ticket);
      return Ok(ticket);
    }

    lemma NativeGranted(form: Form, inputs: NativeInputs)
      requires NativeOk(form, inputs)
      ensures NativeParents(form) ==
                if policy.Error? && inputs.parents != [] && (inputs.mixed || form.root > 0) then None
                else Some(NativeText(inputs.parents))
    {
      ListsSorted(inputs.parents, form.terms);
      hide LagFacts;
      if !policy.MaxPhase? {
        MixedMeans(form.terms, inputs.common, inputs.mixed);
      }
      if inputs.parents != [] {
        assert inputs.parents[0] in form.terms.Keys;
      } else {
        assert forall p | p in form.terms.Keys :: p in inputs.parents;
      }
    }

    lemma NativeTight(g: Graph, inputs: NativeInputs, ticket: Ticket)
      requires ticket.parents == inputs.parents && ticket.floor == inputs.floor + ticket.delay
      ensures (forall p | p in inputs.parents :: p < |g| && g[p].floor <= inputs.floor) ==> Tight(g, ticket)
    {
    }

    /** Max-phase: the largest phase with its own lag, never the largest lag. */
    method NativeSelected(form: Form, inputs: NativeInputs, ghost t: nat, ghost n: Node) returns (ticket: Ticket)
      requires Good(S()) && NativeForm(t, n, form) && NativeOk(form, inputs) && policy.MaxPhase?
      requires form.terms.Keys != {} && inputs.parents != []
      ensures Fits(S(), t, n, ticket) && ticket.parents == NativeText(inputs.parents)
      ensures forall p | p in ticket.parents :: p in form.terms
      ensures inputs.floor == phases.graph[Largest(form.terms.Keys)].floor ==> ticket == Selection(phases.graph, form)
    {
      hide Good, GateForm;
      var selected := Largest(form.terms.Keys);
      var delay := Max(form.terms[selected], Max(0, form.root - inputs.floor));
      ticket := Ticket([selected], delay, inputs.floor + delay);
      assert selected in ticket.parents;
      LastIsLargest(inputs.parents, form.terms);
      SelectedTicket(S(), t, n, form, inputs.floor, ticket);
    }

    lemma NativeAlone(form: Form, ticket: Ticket, t: nat, n: Node)
      requires Good(S()) && NativeForm(t, n, form) && form.terms.Keys == {}
      requires ticket == Ticket([], form.root, form.root)
      ensures Fits(S(), t, n, ticket) && Tight(phases.graph, ticket)
    {
      match policy
      case Error => ExactTicket(S(), t, n, form, [], ticket);
      case Conservative => LaterTicket(S(), t, n, form, [], 0, ticket);
      case MaxPhase => SelectedTicket(S(), t, n, form, 0, ticket);
    }

    lemma NativeTogether(form: Form, inputs: NativeInputs, ticket: Ticket, t: nat, n: Node)
      requires Good(S()) && NativeForm(t, n, form) && NativeOk(form, inputs) && inputs.parents != []
      requires !policy.MaxPhase?
      requires policy.Error? ==> !inputs.mixed && form.root == 0
      requires ticket.parents == inputs.parents && ticket.floor == inputs.floor + ticket.delay
      requires ticket.delay == Max(inputs.common, Max(0, form.root - inputs.floor))
      ensures Fits(S(), t, n, ticket)
      ensures ticket.delay <= form.root || exists p | p in form.terms :: form.terms[p] == ticket.delay
    {
      assert inputs.parents[0] in form.terms;
      if policy.Error? {
        ExactTicket(S(), t, n, form, inputs.parents, ticket);
      } else {
        LaterTicket(S(), t, n, form, inputs.parents, inputs.floor, ticket);
      }
    }

    /** Prefill: all predecessor phases, and a delay for the local latency and an uncovered root. */
    method PrefillGate(form: Form, local: nat, ghost t: nat, ghost n: Node) returns (ticket: Ticket)
      requires Stores() && Good(S()) && GateForm(S(), t, n, form, 0) && GateIdle(S(), t, n, form)
      requires n.rule == AfterAll && n.local == local && n.release <= form.root
      ensures Fits(S(), t, n, ticket) && ticket.delay >= local && Tight(phases.graph, ticket)
      ensures ticket.parents == Sorted(form.terms.Keys) && PadsOnlyRoot(phases.graph, ticket, form.root, local)
      ensures Lists(ticket.parents, form.terms) && PadsBy(phases.graph, form, ticket.delay, local)
    {
      hide PhaseTable.Valid, GroupTable.Valid, Pruner.Valid, FormTable.Valid, Good, GateIdle, Fits, Tight, PadsOnlyRoot,
        PadsBy;
      var parents := Sorted(form.terms.Keys);
      ListsBelow(parents, form.terms, phases.graph);
      var floor := ParentFloor(parents);
      ticket := Ticket(parents, Max(0, form.root - floor) + local, Max(form.root, floor) + local);
      PrefillFits(S(), t, n, form, floor, ticket);
    }

    lemma PrefillFits(s: State, t: nat, n: Node, form: Form, floor: nat, ticket: Ticket)
      requires Good(s) && GateForm(s, t, n, form, 0) && GateIdle(s, t, n, form)
      requires n.rule == AfterAll && n.release <= form.root && Lists(ticket.parents, form.terms)
      requires forall p | p in ticket.parents :: p < |s.g| && s.g[p].floor <= floor
      requires floor == 0 || exists p | p in ticket.parents :: p < |s.g| && floor == s.g[p].floor
      requires ticket.delay == Max(0, form.root - floor) + n.local && ticket.floor == Max(form.root, floor) + n.local
      ensures Fits(s, t, n, ticket) && Tight(s.g, ticket)
      ensures PadsOnlyRoot(s.g, ticket, form.root, n.local) && PadsBy(s.g, form, ticket.delay, n.local)
    {
      GateInRange(s, t, n, form);
      PaddingCovers(s.g, form.root, ticket, floor, n.local);
      hide Good, GateForm, GateIdle, Fits, Tight, PadsOnlyRoot, PadsBy, LargestFloor, Lists, Covered;
      PrefillPads(s.g, ticket, form.root, floor, n.local);
      FloorIsLargest(s.g, form.terms, ticket.parents, floor);
      PadsWith(s.g, form, floor, ticket.delay, n.local);
      PrefillTicket(s, t, n, form, ticket.parents, floor, ticket);
    }

    lemma GateInRange(s: State, t: nat, n: Node, form: Form)
      requires GateForm(s, t, n, form, 0)
      ensures Known(s.dag, t, n.deps) && InRange(s.g, form.terms)
    {
    }

    /** The known floor of the row follows from the largest floor of its dependencies. */
    lemma PaddingCovers(g: Graph, root: nat, ticket: Ticket, floor: nat, local: nat)
      requires floor == 0 || exists p | p in ticket.parents :: p < |g| && floor == g[p].floor
      requires ticket.delay == Max(0, root - floor) + local && ticket.floor == Max(root, floor) + local
      ensures Covered(g, ticket) && (ticket.parents == [] ==> floor == 0)
    {
      if floor > 0 {
        var p :| p in ticket.parents && p < |g| && floor == g[p].floor;
        assert ticket.floor <= g[p].floor + ticket.delay;
      }
    }

    /** Decode: refuses lags and missing predecessors; releases are ignored. */
    method DecodeGate(stage: Stage, form: Form, local: nat, ghost t: nat, ghost n: Node) returns (r: Result<Ticket>)
      requires Stores() && Good(S()) && GateForm(S(), t, n, form, 0)
      requires n.rule == (if stage.STORAGE_TO_D? then AtFrontier else JustAfterAll) && n.local == local
      modifies phases`vectors, pruner`cache
      ensures Stores() && S() == old(S())
      ensures r.Ok? ==>
                Fits(S(), t, n, r.value) && r.value.delay == local && forall p | p in r.value.parents :: p in form.terms
      ensures r.Ok? ==> Lists(r.value.parents, Awaited(phases.graph, stage, form.terms)) && Tight(phases.graph, r.value)
      ensures Granted(r) == DecodeParents(phases.graph, stage, form.terms)
    {
      hide PhaseTable.Valid, GroupTable.Valid, Pruner.Valid, FormTable.Valid, Good, GateForm, Fits, Covered, Lists,
        Tight, Awaited, DecodeParents, InRange, Compiler.Stores;
      var terms := AwaitedTerms(stage, form, t, n);
      DecodeGranted(phases.graph, stage, form.terms);
      if exists p | p in terms :: terms[p] > 0 {
        return Err("Decode needs explicit Compute TIMERs");
      }
      if terms.Keys == {} {
        return Err("Decode task needs a completion dependency");
      }
      var ticket := DecodeTicketOf(terms, local);
      DecodeFits(stage, form, terms, ticket, t, n);
      ListsSorted(ticket.parents, terms);
      return Ok(ticket);
    }

    lemma DecodeGranted(g: Graph, stage: Stage, terms: map<nat, nat>)
      ensures var awaited := Awaited(g, stage, terms);
        DecodeParents(g, stage, terms) ==
          if terms.Keys != {} && forall p | p in awaited :: awaited[p] == 0 then Some(Sorted(awaited.Keys)) else None
    {
    }

    method DecodeTicketOf(terms: map<nat, nat>, local: nat) returns (ticket: Ticket)
      requires Stores() && InRange(phases.graph, terms) && terms.Keys != {}
      ensures Stores()
      ensures Lists(ticket.parents, terms) && ticket.parents != [] && ticket.delay == local
      ensures Covered(phases.graph, ticket)
      ensures Tight(phases.graph, ticket)
      ensures forall p | p in ticket.parents :: p in terms
    {
      hide PhaseTable.Valid, GroupTable.Valid, Pruner.Valid, FormTable.Valid;
      var parents := Sorted(terms.Keys);
      ListsBelow(parents, terms, phases.graph);
      var floor := ParentFloor(parents);
      ticket := Ticket(parents, local, floor + local);
    }

    method AwaitedTerms(stage: Stage, form: Form, ghost t: nat, ghost n: Node) returns (terms: map<nat, nat>)
      requires Stores() && GateForm(S(), t, n, form, 0)
      modifies phases`vectors, pruner`cache
      ensures Stores() && terms == Awaited(phases.graph, stage, form.terms) && InRange(phases.graph, terms)
      ensures S() == old(S())
      ensures terms.Keys == {} <==> form.terms.Keys == {}
      ensures forall p | p in terms :: p in form.terms
    {
      hide PhaseTable.Valid, GroupTable.Valid, FormTable.Valid;
      if !stage.STORAGE_TO_D? {
        terms := pruner.Prune(form.terms);
        if form.terms.Keys != {} {
          LargestIsKept(phases.graph, form.terms);
        }
      } else if form.terms.Keys == {} {
        terms := map[];
      } else {
        var selected := Largest(form.terms.Keys);
        terms := map[selected := form.terms[selected]];
        assert selected in terms.Keys;
      }
    }

    lemma DecodeFits(stage: Stage, form: Form, terms: map<nat, nat>, ticket: Ticket, t: nat, n: Node)
      requires Good(S()) && GateForm(S(), t, n, form, 0) && terms == Awaited(phases.graph, stage, form.terms)
      requires n.rule == (if stage.STORAGE_TO_D? then AtFrontier else JustAfterAll)
      requires Lists(ticket.parents, terms) && ticket.parents != [] && ticket.delay == n.local
      requires Covered(phases.graph, ticket)
      ensures Fits(S(), t, n, ticket)
    {
      assert ticket.parents[0] in terms;
      if stage.STORAGE_TO_D? {
        var p := Largest(form.terms.Keys);
        assert ticket.parents[0] == p && ticket.parents[|ticket.parents| - 1] == p by {
          assert ticket.parents[|ticket.parents| - 1] in ticket.parents;
        }
        FrontierTicket(S(), t, n, form, ticket);
      } else {
        DecodeTicket(S(), t, n, form, terms, ticket);
      }
    }

    // ----------------------------------------------------------------- who may join what

    /** A phase of this number still has a uint32 ID. */
    predicate FreshId(n: nat) {
      base + n <= UINT32_MAX
    }

    predicate MayJoinWave(key: Key, shared: map<Key, Group>, flags: seq<bool>) {
      OpenGroup(shared, flags, key) || FreshId(|flags|)
    }

    /** A batch-wide group takes members until it is consumed, but none that waits for it. */
    predicate MayJoinBatch(key: Key, parents: seq<nat>, shared: map<Key, Group>, flags: seq<bool>) {
      if key in shared then
        OpenGroup(shared, flags, key) && (parents == [] || parents[|parents| - 1] < shared[key].pid)
      else FreshId(|flags|)
    }

    predicate MayJoinLocal(wave: string, parents: seq<nat>, local: Local, flags: seq<bool>) {
      && (forall p | p in parents :: p in local.wavePhases ==> local.wavePhases[p] != wave)
      && ((wave, parents) in local.groups || FreshId(|flags|))
    }

    /** The group that a network row's batch type, schema and grouping call for can take it. */
    predicate MayJoin(t: Task, parents: seq<nat>, local: Local, shared: map<Key, Group>, flags: seq<bool>) {
      if BatchKey(t).Some? then MayJoinBatch(BatchKey(t).value, parents, shared, flags)
      else if v14 && share then MayJoinWave(WaveKey(t, parents), shared, flags)
      else MayJoinLocal(t.wave, parents, local, flags)
    }

    // -------------------------------------------------------------------- joining a phase

    /** The phase `pid` took the ticket's row in: only its record changed, it was open, and the new record claims
        no more than its old one and the ticket justify. */
    ghost predicate Joined(s: State, pid: nat, ticket: Ticket)
      reads this`nextPhase, this`slots, phases, pruner, groups, forms
    {
      && Stores() && pid <= |s.g| && Below(ticket.parents, pid) && !IsSealed(s, pid)
      && pid < |phases.graph| && phases.graph == Recorded(s.g, pid, phases.graph[pid])
      && Justified(s.g, pid, ticket, phases.graph[pid])
      && phases.sealedPhases == (if pid == |s.g| then s.sealedPhases + [false] else s.sealedPhases)
      && Tracked(phases.graph, slots, groups.contents) && SlotsKept(s.slots, slots)
      && Latest(slots, groups.contents, phases.sealedPhases)
    }

    /** Registers the next phase with its first member's record. */
    method Open(ticket: Ticket, delay: nat, ghost slot: Slot) returns (r: Result<nat>)
      requires Stores() && Topological(phases.graph) && delay <= ticket.delay
      requires Ascending(ticket.parents) && Below(ticket.parents, |phases.graph|)
      modifies phases, this`nextPhase, this`slots
      ensures r.Err? ==> phases.graph == old(phases.graph)
      ensures r.Ok? <==> FreshId(|old(phases.graph)|)
      ensures r.Ok? ==>
                && Stores() && r.value == |old(phases.graph)| && slots == old(slots)[r.value := slot]
                && phases.graph == old(phases.graph) + [Phase(ticket.parents, delay, ticket.floor)]
                && phases.sealedPhases == old(phases.sealedPhases) + [false]
    {
      hide GroupTable.Valid, FormTable.Valid, PhaseTable.Valid;
      if base + nextPhase > UINT32_MAX {
        return Err("phase ID exceeds uint32");
      }
      var pid := nextPhase;
      ghost var g := phases.graph;
      var ok := phases.Register(pid, ticket.parents, delay, ticket.floor);
      AppendTopological(g, Phase(ticket.parents, delay, ticket.floor));
      CoherentAppend(g, [Phase(ticket.parents, delay, ticket.floor)], pruner.cache.lru.entries);
      nextPhase := nextPhase + 1;
      slots := slots[pid := slot];
      return Ok(pid);
    }

    /** Rewrites the record of a registered phase; every cached pruning answer is dropped. */
    method Rewrite(pid: nat, rec: Phase)
      requires Stores() && Topological(phases.graph) && pid < |phases.graph|
      requires Ascending(rec.parents) && Below(rec.parents, pid)
      modifies phases, pruner`cache
      ensures Stores() && phases.graph == old(phases.graph)[pid := rec]
      ensures phases.sealedPhases == old(phases.sealedPhases)
    {
      hide GroupTable.Valid, FormTable.Valid, PhaseTable.Valid;
      ghost var g := phases.graph;
      var ok := phases.Register(pid, rec.parents, rec.delay, rec.floor);
      RewriteTopological(g, pid, rec);
      pruner.Clear();
    }

    // ----------------------------------------------------------------- shared groups

    /** The open group under a key, if any: a sealed one is as good as absent. */
    method SharedGroup(key: Key) returns (group: Option<Group>)
      requires Stores() && Tracked(phases.graph, slots, groups.contents)
      modifies groups
      ensures Stores() && groups.contents == old(groups.contents)
      ensures group == if key in groups.contents && !IsSealed(S(), groups.contents[key].pid)
                       then Some(groups.contents[key]) else None
      ensures group.Some? ==> groups.cache.Has(key)
    {
      hide GroupTable.Valid, FormTable.Valid, PhaseTable.Valid, Pruner.Valid;
      group := groups.Load(key);
      if group.Some? {
        assert SharedOk(phases.graph, slots, key, group.value);
        if phases.sealedPhases[group.value.pid] {
          group := None;
        }
      }
    }

    /** One phase per owner, wave and parent vector; a sealed one is replaced by a fresh phase. */
    method JoinWave(key: Key, ticket: Ticket) returns (r: Result<nat>)
      requires Stores() && Topological(phases.graph) && Tracked(phases.graph, slots, groups.contents)
      requires Latest(slots, groups.contents, phases.sealedPhases)
      requires Ascending(ticket.parents) && Below(ticket.parents, |phases.graph|)
      requires !BatchWide(key) && key.parents == ticket.parents
      modifies this`nextPhase, this`slots, phases, pruner`cache, groups
      ensures r.Ok? <==> MayJoinWave(key, old(groups.contents), old(phases.sealedPhases))
      ensures r.Ok? ==>
                Joined(old(S()), r.value, ticket) && KindKept(old(phases.graph), old(slots), phases.graph, slots, true)
      ensures r.Ok? ==>
                var group := GroupFor(old(groups.contents), old(phases.sealedPhases), key, ticket, ticket.parents);
                        r.value == group.pid && groups.contents == old(groups.contents)[key := group]
    {
      hide GroupTable.Valid, FormTable.Valid, PhaseTable.Valid, Pruner.Valid, Tracked, Joined, KindKept;
      var group := SharedGroup(key);
      WaveBelow(phases.graph, slots, groups.contents, key);
      if group.None? {
        r := OpenShared(key, ticket, ticket.delay);
      } else if ticket.parents != [] && ticket.parents[|ticket.parents| - 1] >= group.value.pid {
        r := Err("phase dependencies must precede their completion phase");
      } else {
        AscendingBelow(ticket.parents, group.value.pid);
        UpdateWave(key, group.value, ticket);
        r := Ok(group.value.pid);
      }
    }

    method OpenShared(key: Key, ticket: Ticket, delay: nat) returns (r: Result<nat>)
      requires Stores() && Topological(phases.graph) && Tracked(phases.graph, slots, groups.contents)
      requires Latest(slots, groups.contents, phases.sealedPhases)
      requires Ascending(ticket.parents) && Below(ticket.parents, |phases.graph|)
      requires if BatchWide(key) then delay == 0 else delay == ticket.delay && key.parents == ticket.parents
      requires key in groups.contents ==> !BatchWide(key) && IsSealed(S(), groups.contents[key].pid)
      modifies this`nextPhase, this`slots, phases, groups
      ensures r.Ok? <==> FreshId(|old(phases.sealedPhases)|)
      ensures r.Ok? ==>
                Joined(old(S()), r.value, ticket) && KindKept(old(phases.graph), old(slots), phases.graph, slots, true)
      ensures r.Ok? ==> r.value == |old(phases.sealedPhases)|
      ensures r.Ok? ==> var group := Group(r.value, ticket.parents, ticket.delay, ticket.floor);
                groups.contents == old(groups.contents)[key := group]
    {
      hide GroupTable.Valid, FormTable.Valid, PhaseTable.Valid, Pruner.Valid, Tracked;
      ghost var g, slots0, groups0, flags := phases.graph, slots, groups.contents, phases.sealedPhases;
      ghost var rec := Phase(ticket.parents, delay, ticket.floor);
      r := Open(ticket, delay, Shared(key));
      if r.Ok? {
        var group := Group(r.value, ticket.parents, ticket.delay, ticket.floor);
        TrackOpen(g, slots0, groups0, Shared(key), rec);
        LatestOpened(slots0, groups0, flags, key, group);
        groups.Store(key, group);
        TrackStore(phases.graph, slots, groups0, key, group);
      }
    }

    method UpdateWave(key: Key, group: Group, ticket: Ticket)
      requires Stores() && Topological(phases.graph) && Tracked(phases.graph, slots, groups.contents)
      requires Latest(slots, groups.contents, phases.sealedPhases)
      requires !BatchWide(key) && key.parents == ticket.parents && Ascending(ticket.parents)
      requires key in groups.contents && groups.contents[key] == group && groups.cache.Has(key)
      requires Below(ticket.parents, group.pid) && !IsSealed(S(), group.pid)
      modifies phases, pruner`cache, groups
      ensures Joined(old(S()), group.pid, ticket) && KindKept(old(phases.graph), old(slots), phases.graph, slots, true)
      ensures groups.contents == old(groups.contents)[key := Widened(group, ticket, ticket.parents)]
    {
      hide GroupTable.Valid, FormTable.Valid, PhaseTable.Valid, Pruner.Valid, Justified, KindKept, Tracked;
      ghost var g, groups0 := phases.graph, groups.contents;
      SharedFacts(g, slots, groups0, key);
      var wider := group.(maxDelay := Max(group.maxDelay, ticket.delay), floor := Max(group.floor, ticket.floor));
      var rec := Phase(group.parents, wider.maxDelay, wider.floor);
      WaveRecord(g, group, ticket, rec);
      TrackRewrite(g, slots, groups0, key, wider, rec);
      if ticket.delay > group.maxDelay || ticket.floor > group.floor {
        Rewrite(group.pid, rec);
        groups.Mutate(key, wider);
      } else {
        assert g[group.pid := rec] == g && groups0[key := wider] == groups0;
      }
    }

    /** The batch-wide group under a key: absent, open, or consumed already, which rejects the DAG. */
    method BatchGroup(key: Key) returns (r: Result<Option<Group>>)
      requires Stores() && Tracked(phases.graph, slots, groups.contents)
      modifies groups
      ensures Stores() && groups.contents == old(groups.contents)
      ensures r.Ok? ==> r.value == if key in groups.contents then Some(groups.contents[key]) else None
      ensures r.Ok? && r.value.Some? ==> !IsSealed(S(), r.value.value.pid)
      ensures r.Err? <==> key in groups.contents && IsSealed(S(), groups.contents[key].pid)
    {
      hide GroupTable.Valid, FormTable.Valid, PhaseTable.Valid, Pruner.Valid;
      var group := SharedGroup(key);
      if group.None? && groups.Contains(key) {
        assert SharedOk(phases.graph, slots, key, groups.contents[key]);
        return Err("shared phase group received another member after it was consumed");
      }
      return Ok(group);
    }

    /** One phase for a whole batch (and layer): members add their parents to it, under record delay 0. */
    method JoinBatch(key: Key, ticket: Ticket) returns (r: Result<nat>)
      requires Stores() && Topological(phases.graph) && Tracked(phases.graph, slots, groups.contents)
      requires Latest(slots, groups.contents, phases.sealedPhases)
      requires Ascending(ticket.parents) && Below(ticket.parents, |phases.graph|) && BatchWide(key)
      modifies this`nextPhase, this`slots, phases, pruner`cache, groups
      ensures r.Ok? ==>
                Joined(old(S()), r.value, ticket) && KindKept(old(phases.graph), old(slots), phases.graph, slots, true)
      ensures r.Ok? ==> var group := BatchMember(old(groups.contents), old(phases.sealedPhases), key, ticket);
                        r.value == group.pid && groups.contents == old(groups.contents)[key := group]
      ensures r.Ok? <==> MayJoinBatch(key, ticket.parents, old(groups.contents), old(phases.sealedPhases))
    {
      hide GroupTable.Valid, FormTable.Valid, PhaseTable.Valid, Pruner.Valid, Tracked, Joined, KindKept;
      var found := BatchGroup(key);
      if found.Err? {
        return Err(found.reason);
      }
      if found.value.None? {
        r := OpenShared(key, ticket, 0);
        return;
      }
      var group := found.value.value;
      if ticket.parents != [] && ticket.parents[|ticket.parents| - 1] >= group.pid {
        return Err("phase dependencies must precede their completion phase");
      }
      AscendingBelow(ticket.parents, group.pid);
      UpdateBatch(key, group, ticket);
      return Ok(group.pid);
    }

    method UpdateBatch(key: Key, group: Group, ticket: Ticket)
      requires Stores() && Topological(phases.graph) && Tracked(phases.graph, slots, groups.contents)
      requires Latest(slots, groups.contents, phases.sealedPhases)
      requires BatchWide(key) && Ascending(ticket.parents)
      requires key in groups.contents && groups.contents[key] == group
      requires Below(ticket.parents, group.pid) && !IsSealed(S(), group.pid)
      modifies phases, pruner`cache, groups
      ensures Joined(old(S()), group.pid, ticket) && KindKept(old(phases.graph), old(slots), phases.graph, slots, true)
      ensures groups.contents
           == old(groups.contents)[key := Widened(group, ticket, Union(group.parents, ticket.parents))]
    {
      hide GroupTable.Valid, FormTable.Valid, PhaseTable.Valid, Pruner.Valid, Justified, KindKept, Tracked;
      ghost var g, groups0 := phases.graph, groups.contents;
      SharedFacts(g, slots, groups0, key);
      var parents := Union(group.parents, ticket.parents);
      var wider := Group(group.pid, parents, Max(group.maxDelay, ticket.delay), Max(group.floor, ticket.floor));
      ghost var rec := Phase(parents, 0, wider.floor);
      BatchRecord(g, group, ticket, rec);
      TrackRewrite(g, slots, groups0, key, wider, rec);
      if wider.parents != group.parents || wider.floor != group.floor {
        Rewrite(group.pid, Phase(parents, 0, wider.floor));
      } else {
        assert g[group.pid := rec] == g;
      }
      groups.Store(key, wider);
    }

    // ------------------------------------------------------- groups local to one request

    /** Without streaming groups: one phase per wave and parent vector of the request being converted. */
    method JoinLocal(wave: string, ticket: Ticket, local: Local) returns (r: Result<(nat, Local)>)
      requires Stores() && Topological(phases.graph) && Tracked(phases.graph, slots, groups.contents)
      requires Latest(slots, groups.contents, phases.sealedPhases)
      requires Ascending(ticket.parents) && Below(ticket.parents, |phases.graph|)
      requires LocalTracked(phases.graph, slots, local.owner, local.groups)
      requires AllOpen(phases.sealedPhases, local.groups)
      modifies this`nextPhase, this`slots, phases, pruner`cache
      ensures r.Ok? <==> MayJoinLocal(wave, ticket.parents, local, old(phases.sealedPhases))
      ensures r.Ok? ==> Joined(old(S()), r.value.0, ticket)
      ensures r.Ok? ==> LocalTracked(phases.graph, slots, local.owner, r.value.1.groups)
      ensures r.Ok? ==> r.value.1.(groups := local.groups) == local
      ensures r.Ok? ==>
                var sig := (wave, ticket.parents);
                var group := GroupFor(local.groups, old(phases.sealedPhases), sig, ticket, ticket.parents);
                r.value.0 == group.pid && r.value.1.groups == local.groups[sig := group]
    {
      hide GroupTable.Valid, FormTable.Valid, PhaseTable.Valid, Pruner.Valid, Tracked, Joined, LocalTracked;
      if exists p | p in ticket.parents :: p in local.wavePhases && local.wavePhases[p] == wave {
        return Err("a wave cannot depend on its own completion barrier");
      }
      var signature := (wave, ticket.parents);
      if signature !in local.groups {
        var pid, groups' := OpenLocal(signature, ticket, local.owner, local.groups);
        if pid.Err? {
          return Err(pid.reason);
        }
        return Ok((pid.value, local.(groups := groups')));
      }
      var group := local.groups[signature];
      LocalBelow(phases.graph, slots, local.owner, local.groups, signature);
      if ticket.parents != [] && ticket.parents[|ticket.parents| - 1] >= group.pid {
        return Err("phase dependencies must precede their completion phase");
      }
      AscendingBelow(ticket.parents, group.pid);
      var groups' := UpdateLocal(signature, group, ticket, local.owner, local.groups);
      return Ok((group.pid, local.(groups := groups')));
    }

    method OpenLocal(signature: Signature, ticket: Ticket, ghost owner: Owner, groups': map<Signature, Group>)
      returns (r: Result<nat>, grown: map<Signature, Group>)
      requires Stores() && Topological(phases.graph) && Tracked(phases.graph, slots, groups.contents)
      requires Latest(slots, groups.contents, phases.sealedPhases)
      requires Ascending(ticket.parents) && Below(ticket.parents, |phases.graph|) && signature.1 == ticket.parents
      requires LocalTracked(phases.graph, slots, owner, groups')
      modifies this`nextPhase, this`slots, phases
      ensures r.Ok? <==> FreshId(|old(phases.sealedPhases)|)
      ensures r.Ok? ==> Joined(old(S()), r.value, ticket) && LocalTracked(phases.graph, slots, owner, grown)
      ensures r.Ok? ==> r.value == |old(phases.sealedPhases)|
      ensures r.Ok? ==> grown == groups'[signature := Group(r.value, ticket.parents, ticket.delay, ticket.floor)]
    {
      hide GroupTable.Valid, FormTable.Valid, PhaseTable.Valid, Pruner.Valid, Tracked;
      ghost var g, slots0 := phases.graph, slots;
      ghost var rec := Phase(ticket.parents, ticket.delay, ticket.floor);
      TrackOpen(g, slots0, groups.contents, Private(owner, signature), rec);
      LatestOther(slots0, groups.contents, phases.sealedPhases, Private(owner, signature));
      r := Open(ticket, ticket.delay, Private(owner, signature));
      grown := groups';
      if r.Ok? {
        grown := grown[signature := Group(r.value, ticket.parents, ticket.delay, ticket.floor)];
      }
    }

    method UpdateLocal(signature: Signature, group: Group, ticket: Ticket, ghost owner: Owner,
                       groups': map<Signature, Group>)
      returns (updated: map<Signature, Group>)
      requires Stores() && Topological(phases.graph) && Tracked(phases.graph, slots, groups.contents)
      requires Latest(slots, groups.contents, phases.sealedPhases)
      requires signature.1 == ticket.parents && signature in groups' && groups'[signature] == group
      requires LocalTracked(phases.graph, slots, owner, groups') && Ascending(ticket.parents)
      requires Below(ticket.parents, group.pid) && !IsSealed(S(), group.pid)
      modifies phases, pruner`cache
      ensures Joined(old(S()), group.pid, ticket) && LocalTracked(phases.graph, slots, owner, updated)
      ensures updated == groups'[signature := Widened(group, ticket, ticket.parents)]
    {
      hide GroupTable.Valid, FormTable.Valid, PhaseTable.Valid, Pruner.Valid;
      ghost var g := phases.graph;
      assert GroupRecord(g, slots, Private(owner, signature), group);
      updated := groups';
      if ticket.delay > group.maxDelay || ticket.floor > group.floor {
        var wider := group.(maxDelay := Max(group.maxDelay, ticket.delay), floor := Max(group.floor, ticket.floor));
        Rewrite(group.pid, Phase(group.parents, wider.maxDelay, wider.floor));
        SharedKept(g, slots, phases.graph, slots, groups.contents);
        updated := updated[signature := wider];
      } else {
        assert Recorded(g, group.pid, g[group.pid]) == g;
      }
    }

    // ---------------------------------------------------------------------- emitting rows

    /** Writes one native row per uint32 chunk of the payload. */
    method EmitChunks(t: Task, pid: nat, ticket: Ticket, deps: seq<nat>) returns (ok: bool)
      requires deps == ticket.parents
      modifies `rows, `nextTask
      ensures ok ==>
                rows == old(rows) + MemberRows(t.id, pid, ticket, ScaledAll(Chunks(t.bytes), divisor), old(nextTask))
      ensures ok ==> nextTask == old(nextTask) + |Chunks(t.bytes)|
      ensures ok <==> t.bytes == 0 || old(nextTask) + |Chunks(t.bytes)| - 1 <= UINT32_MAX
    {
      hide Chunks, ScaledAll, MemberRows, Scaled;
      var size: nat := t.bytes;
      ghost var all := old(rows) + MemberRows(t.id, pid, ticket, ScaledAll(Chunks(t.bytes), divisor), old(nextTask));
      while size > 0
        invariant rows + MemberRows(t.id, pid, ticket, ScaledAll(Chunks(size), divisor), nextTask) == all
        invariant nextTask + |Chunks(size)| == old(nextTask) + |Chunks(t.bytes)| && size <= t.bytes
        invariant size < t.bytes ==> nextTask - 1 <= UINT32_MAX
      {
        if nextTask > UINT32_MAX {
          return false;
        }
        ChunkStep(size, divisor);
        var chunk := Min(size, UINT32_MAX);
        var row := Row(nextTask, t.id, pid, deps, ticket.delay, Scaled(chunk, divisor));
        MemberRowsStep(t.id, pid, ticket, Scaled(chunk, divisor), ScaledAll(Chunks(size - chunk), divisor), nextTask,
                       rows);
        rows := rows + [row];
        nextTask := nextTask + 1;
        size := size - chunk;
      }
      ChunkStep(0, divisor);
      ok := true;
    }

    /** Writes the one zero-byte row of a control phase. */
    method EmitTimer(t: Task, pid: nat, ticket: Ticket) returns (ok: bool)
      modifies `rows, `nextTask
      ensures ok ==> rows == old(rows) + MemberRows(t.id, pid, ticket, [0], old(nextTask))
      ensures ok ==> nextTask == old(nextTask) + 1
      ensures ok <==> old(nextTask) <= UINT32_MAX
    {
      if nextTask > UINT32_MAX {
        return false;
      }
      rows := rows + [Row(nextTask, t.id, pid, ticket.parents, ticket.delay, 0)];
      MemberRowsStep(t.id, pid, ticket, 0, [], nextTask, old(rows));
      nextTask := nextTask + 1;
      ok := true;
    }

    // ------------------------------------------------------------------- one row of the DAG

    predicate PrefillTimer(t: Task) {
      t.batch.PREFILL? && ((t.class_.COMPUTE? && t.stage.PREFILL_LAYER?) || (t.class_.TIMER? && t.stage.P_BATCH_BEGIN?))
    }

    predicate DecodeTimer(t: Task) {
      t.batch.DECODE? && t.class_.COMPUTE? && (t.stage.DECODE_LAYER? || t.stage.DECODE_STEP_COMPUTE?)
    }

    /** Network rows gated like Decode rather than by the timing policy. */
    predicate DecodeGated(t: Task) {
      !t.batch.PREFILL? && (t.batch.DECODE? || (v14 && t.stage.STORAGE_TO_D?))
    }

    /** A local task whose form is deliberately thinned out. */
    predicate Thinned(t: Task) {
      t.stage.D_BATCH_BEGIN? || (Eager() && t.batch.NEITHER?)
    }

    predicate HasRows(t: Task) {
      t.class_.NETWORK? || PrefillTimer(t) || DecodeTimer(t)
    }

    function RuleOf(t: Task): Rule {
      if t.batch.PREFILL? then AfterAll
      else if DecodeGated(t) then (if t.stage.STORAGE_TO_D? then AtFrontier else JustAfterAll)
      else NativeRule()
    }

    function LocalOf(t: Task): nat {
      if !t.class_.NETWORK? then t.duration
      else if !Reads(t.stage) || (DecodeGated(t) && !(v14 && t.stage.STORAGE_TO_D?)) then 0
      else ReadLatency(t)
    }

    /** The DAG node of a row, up to what its rows or form turn out to be. */
    function NodeOf(t: Task, kind: Kind): Node {
      Node(t.deps, t.release, LocalOf(t), RuleOf(t), kind)
    }

    /** The recorded DAG is the input: same dependencies, times and rule; rows are barriers, the rest is folded. */
    ghost predicate Matches(t: Task, n: Node) {
      && n == NodeOf(t, n.kind)
      && (HasRows(t) <==> n.kind.Barrier?)
      && (!HasRows(t) ==> n.kind.Begin? == t.stage.D_BATCH_BEGIN?)
      && (!HasRows(t) ==> n.kind.Compact? == (Thinned(t) && !t.stage.D_BATCH_BEGIN?))
    }

    /** Local groups exist only in the schema that seals nothing. */
    ghost predicate LocalOk(local: Local)
      reads this`slots, phases`graph, phases`sealedPhases
    {
      if v14 then local.groups == map[]
      else LocalTracked(phases.graph, slots, local.owner, local.groups) && AllOpen(phases.sealedPhases, local.groups)
    }

    /** The batch-wide group of a row, if it belongs to one. */
    function BatchKey(t: Task): (key: Option<Key>)
      ensures key.Some? ==> BatchWide(key.value)
    {
      if v14 && t.stage.STORAGE_TO_D? then Some(Key(DecodeOwner, InputRead(t.batchId), []))
      else if t.batch.PREFILL? && t.stage.PREFIX_READ? then Some(Key(PrefillOwner, BatchRead(t.batchId, t.layer), []))
      else if t.batch.PREFILL? && t.stage.PREFIX_STORE_WRITE? then
        Some(Key(PrefillOwner, BatchWrite(t.batchId, t.layer), []))
      else None
    }

    function OwnerOf(t: Task): Owner {
      if t.request.Some? then RequestOwner(t.request.value)
      else if t.logical.Some? then LogicalOwner(t.logical.value)
      else TaskOwner(t.id)
    }

    function WaveKey(t: Task, parents: seq<nat>): (key: Key)
      ensures !BatchWide(key) && key.parents == parents
    {
      Key(OwnerOf(t), Named(t.wave), parents)
    }

    /** Whose groups a row joins where groups are not shared: its request's, or, streamed, nobody else's. */
    function HomeOwner(t: Task): Owner {
      if v14 then TaskOwner(t.id) else RequestOwner(if t.request.Some? then t.request.value else 0)
    }

    /** Under what the phase of a row of this task is kept. */
    ghost function SlotOf(t: Task, deps: seq<nat>): Slot {
      if !t.class_.NETWORK? then Own(t.id)
      else if v14 && t.stage.STORAGE_TO_D? then Shared(Key(DecodeOwner, InputRead(t.batchId), []))
      else if t.batch.PREFILL? && t.stage.PREFIX_READ? then
        Shared(Key(PrefillOwner, BatchRead(t.batchId, t.layer), []))
      else if t.batch.PREFILL? && t.stage.PREFIX_STORE_WRITE? then
        Shared(Key(PrefillOwner, BatchWrite(t.batchId, t.layer), []))
      else if v14 && share then Shared(WaveKey(t, deps))
      else Private(HomeOwner(t), (t.wave, deps))
    }

    /** Every row of the task is in a phase kept under its slot. */
    ghost predicate Seated(s: State, t: Task) {
      forall r | r in s.rows && r.dag == t.id :: r.pid in s.slots && s.slots[r.pid] == SlotOf(t, r.deps)
    }

    lemma SeatedStays(s: State, s': State, t: Task)
      requires Seated(s, t) && Frozen(s, s') && t.id in s.dag
      ensures Seated(s', t)
    {
      forall r | r in s'.rows && r.dag == t.id ensures r.pid in s'.slots && s'.slots[r.pid] == SlotOf(t, r.deps) {
        var i :| 0 <= i < |s'.rows| && s'.rows[i] == r;
        assert i < |s.rows| && s.rows[i] == r;
      }
    }

    /** The group a network row becomes a member of. */
    function MemberGroup(t: Task, ticket: Ticket, local: Local, shared: map<Key, Group>, flags: seq<bool>): Group {
      if BatchKey(t).Some? then BatchMember(shared, flags, BatchKey(t).value, ticket)
      else if v14 && share then GroupFor(shared, flags, WaveKey(t, ticket.parents), ticket, ticket.parents)
      else GroupFor(local.groups, flags, (t.wave, ticket.parents), ticket, ticket.parents)
    }

    lemma JoinedTracked(s: State, pid: nat, ticket: Ticket)
      requires Joined(s, pid, ticket)
      ensures Tracked(phases.graph, slots, groups.contents)
    {
    }

    /** Finds or opens the phase of a network row. */
    method JoinPhase(t: Task, ticket: Ticket, local: Local) returns (r: Result<(nat, Local)>)
      requires Stores() && Topological(phases.graph) && Tracked(phases.graph, slots, groups.contents) && LocalOk(local)
      requires Latest(slots, groups.contents, phases.sealedPhases)
      requires Ascending(ticket.parents) && Below(ticket.parents, |phases.graph|)
      requires t.class_.NETWORK? && local.owner == HomeOwner(t)
      modifies this`nextPhase, this`slots, phases, pruner`cache, groups
      ensures r.Ok? <==> MayJoin(t, ticket.parents, local, old(groups.contents), old(phases.sealedPhases))
      ensures r.Ok? ==> Joined(old(S()), r.value.0, ticket)
      ensures r.Ok? ==> LocalTracked(phases.graph, slots, local.owner, r.value.1.groups)
      ensures r.Ok? ==> r.value.0 == MemberGroup(t, ticket, local, old(groups.contents), old(phases.sealedPhases)).pid
      ensures r.Ok? ==> r.value.1.waves == local.waves && r.value.1.owner == local.owner
      ensures r.Ok? ==> r.value.0 in slots && slots[r.value.0] == SlotOf(t, ticket.parents)
    {
      hide GroupTable.Valid, FormTable.Valid, PhaseTable.Valid, Pruner.Valid, Tracked, Joined, KindKept;
      ghost var g, slots0, s0 := phases.graph, slots, S();
      var next := nextPhase;
      var key := BatchKey(t);
      var pid;
      var after := local;
      if key.Some? {
        pid := JoinBatch(key.value, ticket);
      } else if v14 && share {
        pid := JoinWave(WaveKey(t, ticket.parents), ticket);
      } else {
        r := JoinLocal(t.wave, ticket, local);
        if r.Ok? {
          LocalSlot(phases.graph, slots, local.owner, r.value.1.groups, (t.wave, ticket.parents));
        }
        if r.Ok? && r.value.0 == next {
          r := Ok((r.value.0, r.value.1.(wavePhases := r.value.1.wavePhases[r.value.0 := t.wave])));
        }
        return;
      }
      if pid.Err? {
        return Err(pid.reason);
      }
      LocalKept(g, slots0, phases.graph, slots, local.owner, local.groups);
      JoinedTracked(s0, pid.value, ticket);
      SharedFacts(phases.graph, slots, groups.contents, if key.Some? then key.value else WaveKey(t, ticket.parents));
      if pid.value == next {
        after := after.(wavePhases := after.wavePhases[pid.value := t.wave]);
      }
      return Ok((pid.value, after));
    }

    /** The bytes of the native rows of a task. */
    function Sizes(t: Task): seq<nat> {
      if t.class_.NETWORK? then ScaledAll(Chunks(t.bytes), divisor) else if HasRows(t) then [0] else []
    }

    /** A row with rows of its own completes with its one phase. */
    ghost predicate OnePhase(form: Form, n: Node) {
      n.kind.Barrier? && |n.kind.pids| == 1 && form == Form(0, map[n.kind.pids[0] := 0])
    }

    /** Streamed Prefill rows, and all streamed rows while groups are shared, seal the phases in the stored forms of
        their dependencies. */
    ghost predicate SealedFor(forms: map<nat, Form>, t: Task, p: nat) {
      v14 && (share || t.batch.PREFILL?) && SealedBy(forms, t.deps, p)
    }

    /** Such a row has sealed them all. */
    ghost predicate ConsumesAll(s: State, t: Task) {
      v14 && (share || t.batch.PREFILL?) ==> Consumed(s, t.deps)
    }

    lemma ConsumesStill(s: State, s': State, t: Task)
      requires ConsumesAll(s, t) && Frozen(s, s')
      ensures ConsumesAll(s', t)
    {
      if v14 && (share || t.batch.PREFILL?) {
        ConsumedForEver(s, s', t.deps);
      }
    }

    /** Only phases that this row seals were sealed. */
    ghost predicate SealsOnly(s: State, s': State, t: Task) {
      forall p | IsSealed(s', p) :: IsSealed(s, p) || SealedFor(s'.forms, t, p)
    }

    /** What one converted row leaves behind: a valid state in which only this row was added. */
    ghost predicate Landed(s: State, t: Task, form: Form, stored: bool)
      reads this`nextPhase, this`nextTask, this`rows, this`dag, this`slots, this`lastDagId, phases, pruner, groups,
            forms
    {
      && Valid() && Frozen(s, S()) && lastDagId == t.id
      && t.id in dag && dag == s.dag[t.id := dag[t.id]] && Matches(t, dag[t.id])
      && (HasRows(t) ==> OnePhase(form, dag[t.id]))
      && FormFits(S(), t.id, form) && DerivedAt(phases.graph, s.forms, dag[t.id], form)
      && (dag[t.id].kind.Compact? ==> TermsSealed(S(), form.terms))
      && forms.table == (if stored then s.forms[t.id := form] else s.forms)
      && Writes(s, S(), Labelled(t.id, Sizes(t))) && PayloadOf(rows, t.id) == Sizes(t)
      && Seated(S(), t) && SealsOnly(s, S(), t) && ConsumesAll(S(), t)
    }

    /** The new rows, record, phase and node together make the next state. */
    lemma EmitLands(s: State, slots0: map<nat, Slot>, groups0: map<Key, Group>, last: int, t: Task, pid: nat,
                    ticket: Ticket, sizes: seq<nat>, first: nat)
      requires Good(s) && Kempt(s, slots0, groups0, last, v14, share) && last < t.id && HasRows(t)
      requires Fits(s, t.id, NodeOf(t, Folded), ticket) && Joined(s, pid, ticket)
      requires v14 && t.batch.PREFILL? ==> Padded(s, NodeOf(t, Folded), ticket.parents, ticket.delay)
      requires ConsumesAll(s, t) && (v14 && share ==> forall p | p in ticket.parents :: IsSealed(s, p))
      requires sizes == if t.class_.NETWORK? then ScaledAll(Chunks(t.bytes), divisor) else [0]
      requires sizes != [] && rows == s.rows + MemberRows(t.id, pid, ticket, sizes, first) && forms.table == s.forms
      requires dag == s.dag[t.id := NodeOf(t, Barrier([pid]))] && lastDagId == t.id
      requires Consecutive(s.rows, firstTask) && first == firstTask + |s.rows| && nextTask == first + |sizes|
      requires pid in slots && slots[pid] == SlotOf(t, ticket.parents)
      ensures Landed(s, t, Form(0, map[pid := 0]), false)
      ensures !v14 ==> forall p: nat :: !IsSealed(S(), p)
    {
      hide Good, Kempt, Fits, Frozen, FormFits, MemberRows, Chunks, ScaledAll, PayloadOf, Payload, Traffic, Labelled,
        Landed, Padded, Consecutive, SlotOf, Tracked, Latest, Justified, SlotsKept, Below, Consumed, PhaseTable.Valid,
        Pruner.Valid, GroupTable.Valid, FormTable.Valid, Seated, SealsOnly;
      var n, rec, added := NodeOf(t, Barrier([pid])), phases.graph[pid], MemberRows(t.id, pid, ticket, sizes, first);
      MemberRowsAre(t.id, pid, ticket, sizes, first);
      FitsKind(s, t.id, NodeOf(t, Folded), n, ticket);
      TicketShape(s, t.id, n, ticket);
      assert S() == Emitted(s, t.id, n, pid, rec, added, slots);
      PaddedKind(s, NodeOf(t, Folded), n, ticket.parents, ticket.delay);
      FreshTask(s, slots0, groups0, last, v14, share, t.id);
      EmitGood(s, t.id, n, pid, ticket, rec, added, slots);
      EmitFrozen(s, t.id, n, pid, ticket, rec, added, slots);
      EmitKempt(s, slots0, groups0, last, v14, share, slots, groups.contents, t.id, n, pid, ticket, rec, added);
      StillConsecutive(s.rows, t.id, pid, ticket, sizes, firstTask);
      SeatedNow(s, t, pid, ticket, added);
      ConsumesStill(s, S(), t);
      EmitLanded(s, t, pid, added, sizes);
    }

    /** The new rows are seated, and joining seals nothing. */
    lemma SeatedNow(s: State, t: Task, pid: nat, ticket: Ticket, added: seq<Row>)
      requires Shape(s) && t.id !in s.dag && rows == s.rows + added && Members(added, t.id, pid, ticket)
      requires Joined(s, pid, ticket) && pid in slots && slots[pid] == SlotOf(t, ticket.parents)
      ensures Seated(S(), t) && SealsOnly(s, S(), t)
    {
      hide SlotOf, Stores, Justified, Tracked, WellFounded, Topological;
      forall r | r in rows && r.dag == t.id ensures r.pid in slots && slots[r.pid] == SlotOf(t, r.deps) {
        assert r in s.rows ==> r.dag in s.dag;
        assert r in added;
      }
    }

    lemma EmitLanded(s: State, t: Task, pid: nat, added: seq<Row>, sizes: seq<nat>)
      requires Stores() && Numbered() && Good(S()) && Kempt(S(), slots, groups.contents, lastDagId, v14, share)
      requires Frozen(s, S())
      requires Shape(s) && t.id !in s.dag && HasRows(t) && lastDagId == t.id && forms.table == s.forms
      requires dag == s.dag[t.id := NodeOf(t, Barrier([pid]))] && rows == s.rows + added && pid < |phases.graph|
      requires |added| == |sizes| && forall i | 0 <= i < |added| :: added[i].dag == t.id && added[i].bytes == sizes[i]
      requires sizes == Sizes(t) && Seated(S(), t) && SealsOnly(s, S(), t) && ConsumesAll(S(), t)
      ensures Landed(s, t, Form(0, map[pid := 0]), false)
    {
      hide Consecutive, GroupTable.Valid, FormTable.Valid, PhaseTable.Valid, Pruner.Valid, Good, Kempt, Frozen,
        FormFits, PayloadOf, Payload, Traffic, Labelled, Sizes, Shape, Seated, SealsOnly;
      AliasFits(S(), t.id, Form(0, map[pid := 0]));
      RowsPayload(s, rows, added, t.id, sizes);
    }

    /** A network row: joins its phase and writes its chunks. */
    method NetworkRow(t: Task, ticket: Ticket, deps: seq<nat>, local: Local) returns (r: Result<(Form, Local)>)
      requires Valid() && LocalOk(local) && lastDagId < t.id && t.class_.NETWORK? && t.bytes > 0
      requires local.owner == HomeOwner(t)
      requires Fits(S(), t.id, NodeOf(t, Folded), ticket) && deps == ticket.parents
      requires v14 && t.batch.PREFILL? ==> Padded(S(), NodeOf(t, Folded), ticket.parents, ticket.delay)
      requires ConsumesAll(S(), t) && (v14 && share ==> forall p | p in ticket.parents :: IsSealed(S(), p))
      modifies `rows, `nextTask, `nextPhase, `slots, `dag, `lastDagId, phases, pruner, groups
      ensures r.Ok? <==> MayJoin(t, ticket.parents, local, old(groups.contents), old(phases.sealedPhases))
                         && old(nextTask) + |Chunks(t.bytes)| - 1 <= UINT32_MAX
      ensures r.Ok? ==> Landed(old(S()), t, r.value.0, false)
      ensures r.Ok? ==> (!v14 ==> LocalOk(r.value.1)) && r.value.1.waves == local.waves
      ensures r.Ok? ==> r.value.1.owner == local.owner
    {
      hide GroupTable.Valid, FormTable.Valid, PhaseTable.Valid, Pruner.Valid, Joined, Landed, Good, KindKept,
        LocalTracked, SlotOf;
      hide MemberGroup, Chunks, MemberRows, Padded, Consecutive;
      ghost var s, slots0, groups0, last := S(), slots, groups.contents, lastDagId;
      TicketShape(s, t.id, NodeOf(t, Folded), ticket);
      var joined := JoinPhase(t, ticket, local);
      if joined.Err? {
        return Err(joined.reason);
      }
      var (pid, after) := joined.value;
      ghost var first := nextTask;
      var ok := EmitChunks(t, pid, ticket, deps);
      if !ok {
        return Err("traffic task ID exceeds uint32");
      }
      dag := dag[t.id := NodeOf(t, Barrier([pid]))];
      lastDagId := t.id;
      EmitLands(s, slots0, groups0, last, t, pid, ticket, ScaledAll(Chunks(t.bytes), divisor), first);
      if !v14 {
        OpenAll(S(), after.groups);
      }
      return Ok((Form(0, map[pid := 0]), after));
    }

    /** A control phase of its own, with one TIMER row. */
    method TimerRow(t: Task, ticket: Ticket, phaseDelay: nat) returns (r: Result<Form>)
      requires Valid() && lastDagId < t.id && HasRows(t) && !t.class_.NETWORK? && phaseDelay <= ticket.delay
      requires Fits(S(), t.id, NodeOf(t, Folded), ticket)
      requires v14 && t.batch.PREFILL? ==> Padded(S(), NodeOf(t, Folded), ticket.parents, ticket.delay)
      requires ConsumesAll(S(), t) && (v14 && share ==> forall p | p in ticket.parents :: IsSealed(S(), p))
      modifies `rows, `nextTask, `nextPhase, `slots, `dag, `lastDagId, phases
      ensures r.Ok? <==> FreshId(|old(phases.sealedPhases)|) && old(nextTask) <= UINT32_MAX
      ensures r.Ok? ==> Landed(old(S()), t, r.value, false) && (!v14 ==> forall p: nat :: !IsSealed(S(), p))
      ensures r.Ok? ==> KindKept(old(phases.graph), old(slots), phases.graph, slots, true)
    {
      hide GroupTable.Valid, FormTable.Valid, PhaseTable.Valid, Pruner.Valid, Landed, Good, Tracked, Padded,
        Consecutive;
      ghost var s, slots0, groups0, last := S(), slots, groups.contents, lastDagId;
      TicketShape(s, t.id, NodeOf(t, Folded), ticket);
      TrackOpen(s.g, slots, groups.contents, Own(t.id), Phase(ticket.parents, phaseDelay, ticket.floor));
      LatestOther(slots, groups.contents, phases.sealedPhases, Own(t.id));
      var pid := Open(ticket, phaseDelay, Own(t.id));
      if pid.Err? {
        return Err(pid.reason);
      }
      assert Joined(s, pid.value, ticket);
      ghost var first := nextTask;
      var ok := EmitTimer(t, pid.value, ticket);
      if !ok {
        return Err("traffic task ID exceeds uint32");
      }
      dag := dag[t.id := NodeOf(t, Barrier([pid.value]))];
      lastDagId := t.id;
      EmitLands(s, slots0, groups0, last, t, pid.value, ticket, [0], first);
      return Ok(Form(0, map[pid.value := 0]));
    }

    // ------------------------------------------------------------------------- local tasks

    /** What a thinned row makes of its gathered form. */
    ghost function ThinForm(t: Task, form: Form): Form
      reads phases`graph
    {
      var shifted := Shift(form, t.duration);
      if t.stage.D_BATCH_BEGIN? then shifted else RootlessMax(phases.graph, Compacted(shifted))
    }

    function FoldKind(t: Task, out: Form): Kind {
      if t.stage.D_BATCH_BEGIN? then Begin else if Thinned(t) then Compact(out.root) else Folded
    }

    /** Local work is folded into lags; Decode prunes, legacy rows are normalised, batch begins were thinned. */
    method FoldedForm(t: Task, form: Form, pruned: bool) returns (out: Form)
      requires Stores() && Good(S()) && Gathered(S(), t, t.deps, form, Seals(t)) && !HasRows(t)
      modifies phases`vectors, pruner`cache
      ensures Stores() && Good(S()) && InRange(phases.graph, out.terms)
      ensures Thinned(t) ==> out == ThinForm(t, form)
      ensures !Thinned(t) ==> GateForm(S(), t.id, Stub(t), out, t.duration)
      ensures !Thinned(t) ==>
                GateIdle(S(), t.id, Stub(t), form) && Normal(phases.graph, Shift(form, t.duration), out, false)
    {
      hide GroupTable.Valid, FormTable.Valid, PhaseTable.Valid, Pruner.Valid, Good, GateForm, GateIdle, SameValue;
      assert Stub(t).(deps := t.deps) == Stub(t);
      var shifted := Shift(form, t.duration);
      if !t.stage.D_BATCH_BEGIN? {
        ShiftGate(S(), t.id, Stub(t), form, 0, t.duration);
      }
      NormalSelf(phases.graph, shifted);
      if t.stage.D_BATCH_BEGIN? || t.batch.PREFILL? {
        return shifted;
      }
      if t.batch.DECODE? {
        var kept := PruneOf(shifted, t.id, Stub(t), t.duration);
        out := Form(shifted.root, kept);
        FoldPruned(S(), t.id, Stub(t), shifted, t.duration);
      } else {
        out := Normalize(shifted, pruned);
        if !Eager() {
          NormalGate(S(), t.id, Stub(t), shifted, out, t.duration);
        }
      }
    }

    method PruneOf(form: Form, ghost t: nat, ghost n: Node, ghost extra: nat) returns (kept: map<nat, nat>)
      requires Stores() && GateForm(S(), t, n, form, extra)
      modifies phases`vectors, pruner`cache
      ensures Stores() && kept == Kept(phases.graph, form.terms)
    {
      kept := pruner.Prune(form.terms);
    }

    lemma FoldPruned(s: State, t: nat, n: Node, f: Form, extra: nat)
      requires Good(s) && GateForm(s, t, n, f, extra)
      ensures Normal(s.g, f, Form(f.root, Kept(s.g, f.terms)), false)
      ensures GateForm(s, t, n, Form(f.root, Kept(s.g, f.terms)), extra)
      ensures InRange(s.g, Kept(s.g, f.terms))
    {
      NormalPruned(s.g, f);
      NormalGate(s, t, n, f, Form(f.root, Kept(s.g, f.terms)), extra);
    }

    /** A folded task adds a node and no rows. */
    method FoldRow(t: Task, form: Form, pruned: bool) returns (out: Form)
      requires Valid() && lastDagId < t.id && Gathered(S(), t, t.deps, form, Seals(t)) && !HasRows(t)
      requires !t.class_.NETWORK?
      modifies phases`vectors, pruner`cache, `dag, `lastDagId
      ensures Landed(old(S()), t, out, false) && phases.sealedPhases == old(phases.sealedPhases)
    {
      hide GroupTable.Valid, FormTable.Valid, PhaseTable.Valid, Pruner.Valid, Good, Kempt, GateForm, GateIdle,
        SameValue, FormFits, ThinForm, DerivedAt, TermsSealed, Normal, Landed;
      ghost var s := S();
      ghost var last := lastDagId;
      out := FoldedForm(t, form, pruned);
      ghost var n := NodeOf(t, FoldKind(t, out));
      FoldLands(s, slots, groups.contents, last, t, form, out, n);
      FreshTask(s, slots, groups.contents, last, v14, share, t.id);
      dag := dag[t.id := n];
      lastDagId := t.id;
      FoldLanded(s, t, out, n);
    }

    lemma NoRowsSeated(s: State, t: Task)
      requires Shape(s) && t.id !in s.dag && rows == s.rows
      ensures Seated(S(), t)
    {
      hide SlotOf, WellFounded, Topological;
    }

    lemma FoldLanded(s: State, t: Task, out: Form, n: Node)
      requires Stores() && Numbered() && S() == WithNode(s, t.id, n) && lastDagId == t.id && Shape(s) && t.id !in s.dag
      requires Good(S()) && Frozen(s, S()) && Kempt(S(), slots, groups.contents, t.id, v14, share)
      requires FormFits(S(), t.id, out) && ConsumesAll(s, t)
      requires DerivedAt(s.g, s.forms, n, out) && (n.kind.Compact? ==> TermsSealed(S(), out.terms))
      requires n == NodeOf(t, FoldKind(t, out)) && !HasRows(t) && !t.class_.NETWORK?
      ensures Landed(s, t, out, false)
    {
      hide GroupTable.Valid, FormTable.Valid, PhaseTable.Valid, Pruner.Valid, Good, Kempt, FormFits, DerivedAt,
        TermsSealed, PayloadOf, Payload, Traffic, Labelled, Frozen, Shape;
      NoRowsSeated(s, t);
      ConsumesStill(s, S(), t);
      assert rows == s.rows + [];
      RowsPayload(s, rows, [], t.id, []);
    }

    lemma FoldLands(s: State, slots0: map<nat, Slot>, groups0: map<Key, Group>, last: int, t: Task, form: Form,
                    out: Form, n: Node)
      requires Good(s) && Kempt(s, slots0, groups0, last, v14, share) && last < t.id && Known(s.dag, t.id, t.deps)
      requires !HasRows(t) && !t.class_.NETWORK? && InRange(s.g, out.terms) && ConsumesAll(s, t)
      requires n == NodeOf(t, FoldKind(t, out)) && s == S() && Gathered(s, t, t.deps, form, Seals(t))
      requires Thinned(t) ==> out == ThinForm(t, form)
      requires !Thinned(t) ==> GateForm(s, t.id, Stub(t), out, t.duration)
      requires !Thinned(t) ==> GateIdle(s, t.id, Stub(t), form) && Normal(s.g, Shift(form, t.duration), out, false)
      ensures var s' := WithNode(s, t.id, n);
        Good(s') && Frozen(s, s') && Kempt(s', slots0, groups0, t.id, v14, share) && FormFits(s', t.id, out)
        && DerivedAt(s.g, s.forms, n, out) && (n.kind.Compact? ==> TermsSealed(s', out.terms))
    {
      hide Good, Kempt, FormFits, Frozen, GateForm, GateIdle, Normal, Consumed, TermsSealed, DerivedAt, Gathered,
        ThinForm;
      FreshTask(s, slots0, groups0, last, v14, share, t.id);
      WithNodeGood(s, t.id, n);
      NodeKempt(s, slots0, groups0, last, v14, share, t.id, n);
      if t.stage.D_BATCH_BEGIN? {
        BeginLands(s, t, form, out, n);
      } else if Thinned(t) {
        CompactLands(s, t, form, out, n);
      } else {
        PlainLands(s, t, form, out, n);
      }
    }

    lemma BeginLands(s: State, t: Task, form: Form, out: Form, n: Node)
      requires Good(WithNode(s, t.id, n)) && Gathered(s, t, t.deps, form, Seals(t)) && t.stage.D_BATCH_BEGIN?
      requires n == NodeOf(t, Begin) && s == S() && out == ThinForm(t, form) && !t.class_.NETWORK?
      ensures FormFits(WithNode(s, t.id, n), t.id, out) && DerivedAt(s.g, s.forms, n, out)
    {
      hide Good, GateForm, GateIdle, FormFits;
      BeginFits(WithNode(s, t.id, n), t.id, out);
    }

    lemma CompactLands(s: State, t: Task, form: Form, out: Form, n: Node)
      requires Good(s) && Good(WithNode(s, t.id, n)) && t.id !in s.dag && Gathered(s, t, t.deps, form, Seals(t))
      requires n == NodeOf(t, Compact(out.root)) && s == S() && out == ThinForm(t, form) && !t.class_.NETWORK?
      requires Thinned(t) && !t.stage.D_BATCH_BEGIN?
      ensures FormFits(WithNode(s, t.id, n), t.id, out) && DerivedAt(s.g, s.forms, n, out)
      ensures TermsSealed(WithNode(s, t.id, n), out.terms)
    {
      ThinSealed(s, t, form, out);
      CompactTop(s, t, form, n);
      hide Good, GateForm, GateIdle, FormFits, TermsSealed, RootlessMax;
      CompactFits(WithNode(s, t.id, n), t.id, form, out);
    }

    /** A compacted form keeps consumed phases only. */
    lemma ThinSealed(s: State, t: Task, form: Form, out: Form)
      requires Gathered(s, t, t.deps, form, Seals(t)) && s == S() && out == ThinForm(t, form)
      requires Thinned(t) && !t.stage.D_BATCH_BEGIN?
      ensures TermsSealed(s, out.terms)
    {
      hide GateForm, GateIdle, Consumed, Merged;
      assert forall p | p in out.terms :: p in Shift(form, t.duration).terms;
    }

    lemma CompactTop(s: State, t: Task, form: Form, n: Node)
      requires Good(s) && t.id !in s.dag && Gathered(s, t, t.deps, form, Seals(t)) && !t.stage.D_BATCH_BEGIN?
      requires n == NodeOf(t, n.kind) && Good(WithNode(s, t.id, n))
      ensures InRange(WithNode(s, t.id, n).g, form.terms)
      ensures TopOf(form.terms) == GateTop(WithNode(s, t.id, n).dag, t.id, t.deps)
    {
      hide Sound, Meaning, TopForms, IdleForms, Promises, Merged, Eval, Gate;
      assert Stub(t).(deps := t.deps) == Stub(t);
      ClosedWith(s.dag, t.id, n);
      GateTopExtends(s.dag, WithNode(s, t.id, n).dag, t.id, t.deps);
    }

    lemma PlainLands(s: State, t: Task, form: Form, out: Form, n: Node)
      requires Good(s) && Good(WithNode(s, t.id, n)) && t.id !in s.dag && InRange(s.g, out.terms)
      requires n == NodeOf(t, Folded) && !t.class_.NETWORK?
      requires GateForm(s, t.id, Stub(t), out, t.duration)
      requires GateIdle(s, t.id, Stub(t), form) && Normal(s.g, Shift(form, t.duration), out, false)
      ensures FormFits(WithNode(s, t.id, n), t.id, out) && DerivedAt(s.g, s.forms, n, out)
    {
      FoldFits(s, t.id, n, out);
      FoldIdle(s, t.id, n, form, out);
      hide Sound, Meaning, TopForms, IdleForms, Promises, GateForm, GateIdle, Normal;
    }

    // ------------------------------------------------------------------------- gated rows

    /** The ticket of a network row that gathered its own gate. */
    method NetworkTicket(t: Task, form: Form, pruned: bool) returns (r: Result<Ticket>)
      requires Valid() && t.class_.NETWORK? && Transfers(t.stage) && Gathered(S(), t, t.deps, form, Seals(t))
      modifies phases`vectors, pruner`cache
      ensures Valid() && S() == old(S())
      ensures r.Ok? ==>
                Fits(S(), t.id, NodeOf(t, Folded), r.value) && forall p | p in r.value.parents :: p in form.terms
      ensures r.Ok? && v14 && t.batch.PREFILL? ==> Padded(S(), NodeOf(t, Folded), r.value.parents, r.value.delay)
      ensures Granted(r) == GateParents(phases.graph, t, form, pruned, false)
    {
      hide GroupTable.Valid, FormTable.Valid, PhaseTable.Valid, Pruner.Valid, Good, Kempt, Fits, GateForm, GateIdle,
        Normal, Tight, PadsOnlyRoot, LargestFloor, Merged, Consumed, TermsSealed, Padded;
      assert Stub(t).(deps := t.deps) == Stub(t);
      var n := NodeOf(t, Folded);
      StubGate(S(), t.id, Stub(t), n, form, 0);
      if t.batch.PREFILL? {
        var ticket := PrefillGate(form, LocalOf(t), t.id, n);
        if v14 {
          GatheredPads(S(), t, form, NodeOf(t, Folded), ticket);
        }
        r := Ok(ticket);
      } else if DecodeGated(t) {
        r := DecodeGate(t.stage, form, LocalOf(t), t.id, n);
      } else {
        r := LegacyTicket(t, form, pruned);
      }
    }

    method LegacyTicket(t: Task, form: Form, pruned: bool) returns (r: Result<Ticket>)
      requires Valid() && t.class_.NETWORK? && !t.batch.PREFILL? && !DecodeGated(t)
      requires GateForm(S(), t.id, NodeOf(t, Folded), form, 0) && t.release <= form.root
      modifies phases`vectors, pruner`cache
      ensures Valid() && S() == old(S())
      ensures r.Ok? ==>
                Fits(S(), t.id, NodeOf(t, Folded), r.value) && forall p | p in r.value.parents :: p in form.terms
      ensures Granted(r) == NativeParents(NormalOf(phases.graph, Delayed(t, form), pruned))
    {
      hide GroupTable.Valid, FormTable.Valid, PhaseTable.Valid, Pruner.Valid, Good, Kempt, Fits, GateForm, SameValue;
      var n := NodeOf(t, Folded);
      var shifted, out := ShiftedNormal(t, form, pruned);
      var ticket := NativeGate(out, None, t.id, n);
      r := ticket;
    }

    /** Adds a read latency to the gate and normalises it, once. */
    method ShiftedNormal(t: Task, form: Form, pruned: bool) returns (ghost shifted: Form, out: Form)
      requires Stores() && Good(S()) && t.class_.NETWORK? && !t.batch.PREFILL? && !DecodeGated(t)
      requires GateForm(S(), t.id, NodeOf(t, Folded), form, 0) && t.release <= form.root
      modifies phases`vectors, pruner`cache
      ensures Stores() && NativeForm(t.id, NodeOf(t, Folded), out)
      ensures out == NormalOf(phases.graph, Delayed(t, form), pruned)
      ensures forall p | p in out.terms :: p in form.terms
    {
      hide GroupTable.Valid, FormTable.Valid, PhaseTable.Valid, Pruner.Valid, Good, SameValue, Eval;
      var n := NodeOf(t, Folded);
      var moved := if Reads(t.stage) then Shift(form, ReadLatency(t)) else form;
      if Reads(t.stage) {
        ShiftGate(S(), t.id, n, form, 0, ReadLatency(t));
      }
      shifted := moved;
      out := Normalize(moved, pruned);
      if !policy.MaxPhase? {
        NormalGate(S(), t.id, n, moved, out, n.local);
      }
    }

    /** A gate worked out once for all ranks of a logical network task. */
    ghost predicate PreparedOk(t: Task, prepared: Prepared)
      reads this`rows, this`dag, this`slots, forms`table, phases`graph, phases`sealedPhases
    {
      && Known(dag, t.id, t.deps)
      && (Seals(t) ==> TermsSealed(S(), prepared.form.terms) && Consumed(S(), t.deps))
      && (if t.batch.NEITHER? then
            && NativeForm(t.id, NodeOf(t, Folded), prepared.form)
            && prepared.native.Some? && NativeOk(prepared.form, prepared.native.value)
            && prepared.text == NativeText(prepared.native.value.parents)
          else
            && Gathered(S(), t, t.deps, prepared.form, Seals(t))
            && prepared.native.None? && prepared.text == Sorted(prepared.form.terms.Keys))
    }

    /** The ticket of a rank row from its prepared gate. */
    method PreparedTicket(t: Task, prepared: Prepared) returns (r: Result<Ticket>)
      requires Valid() && t.class_.NETWORK? && Transfers(t.stage) && PreparedOk(t, prepared) && (v14 ==> Validated(t))
      modifies phases`vectors, pruner`cache
      ensures Valid() && S() == old(S())
      ensures r.Ok? ==> Fits(S(), t.id, NodeOf(t, Folded), r.value)
      ensures r.Ok? ==> forall p | p in r.value.parents :: p in prepared.form.terms
      ensures r.Ok? && !t.batch.DECODE? ==> prepared.text == r.value.parents
      ensures r.Ok? && v14 && t.batch.PREFILL? ==> Padded(S(), NodeOf(t, Folded), r.value.parents, r.value.delay)
      ensures Granted(r) == GateParents(phases.graph, t, prepared.form, false, true)
    {
      hide GroupTable.Valid, FormTable.Valid, PhaseTable.Valid, Pruner.Valid, Good, Kempt, Fits, GateForm, GateIdle,
        NativeOk, Padded;
      if t.batch.NEITHER? {
        r := NativeGate(prepared.form, prepared.native, t.id, NodeOf(t, Folded));
      } else {
        r := BatchTicket(t, prepared);
      }
    }

    /** The ticket of a prepared Prefill or Decode transfer. */
    method BatchTicket(t: Task, prepared: Prepared) returns (r: Result<Ticket>)
      requires Valid() && t.class_.NETWORK? && Transfers(t.stage) && PreparedOk(t, prepared) && (v14 ==> Validated(t))
      requires !t.batch.NEITHER?
      modifies phases`vectors, pruner`cache
      ensures Valid() && S() == old(S())
      ensures r.Ok? ==> Fits(S(), t.id, NodeOf(t, Folded), r.value)
      ensures r.Ok? ==> forall p | p in r.value.parents :: p in prepared.form.terms
      ensures r.Ok? && t.batch.PREFILL? ==> prepared.text == r.value.parents
      ensures r.Ok? && v14 && t.batch.PREFILL? ==> Padded(S(), NodeOf(t, Folded), r.value.parents, r.value.delay)
      ensures Granted(r) == GateParents(phases.graph, t, prepared.form, false, true)
    {
      hide GroupTable.Valid, FormTable.Valid, PhaseTable.Valid, Pruner.Valid, Good, Kempt, Fits, GateForm, GateIdle,
        NativeOk, Tight, PadsOnlyRoot, LargestFloor, Merged, Consumed, TermsSealed, Padded;
      assert Stub(t).(deps := t.deps) == Stub(t);
      StubGate(S(), t.id, Stub(t), NodeOf(t, Folded), prepared.form, 0);
      if t.batch.PREFILL? {
        var ticket := PrefillGate(prepared.form, LocalOf(t), t.id, NodeOf(t, Folded));
        if v14 {
          GatheredPads(S(), t, prepared.form, NodeOf(t, Folded), ticket);
        }
        r := Ok(ticket);
      } else {
        r := DecodeGate(t.stage, prepared.form, LocalOf(t), t.id, NodeOf(t, Folded));
      }
    }

    /** The ticket of a control row. */
    method TimerTicket(t: Task, form: Form) returns (r: Result<Ticket>)
      requires Valid() && !t.class_.NETWORK? && HasRows(t) && Gathered(S(), t, t.deps, form, Seals(t))
      modifies phases`vectors, pruner`cache
      ensures Valid() && S() == old(S())
      ensures r.Ok? ==> Fits(S(), t.id, NodeOf(t, Folded), r.value) && r.value.delay >= t.duration
      ensures r.Ok? ==> forall p | p in r.value.parents :: p in form.terms
      ensures r.Ok? && v14 && t.batch.PREFILL? ==> Padded(S(), NodeOf(t, Folded), r.value.parents, r.value.delay)
      ensures Granted(r) == GateParents(phases.graph, t, form, false, false)
    {
      hide GroupTable.Valid, FormTable.Valid, PhaseTable.Valid, Pruner.Valid, Good, Kempt, Fits, GateForm, GateIdle,
        Tight, PadsOnlyRoot, LargestFloor, Merged, Consumed, TermsSealed, Padded;
      assert Stub(t).(deps := t.deps) == Stub(t);
      StubGate(S(), t.id, Stub(t), NodeOf(t, Folded), form, 0);
      if DecodeTimer(t) {
        r := DecodeGate(t.stage, form, LocalOf(t), t.id, NodeOf(t, Folded));
      } else {
        var ticket := PrefillGate(form, LocalOf(t), t.id, NodeOf(t, Folded));
        if v14 {
          GatheredPads(S(), t, form, NodeOf(t, Folded), ticket);
        }
        r := Ok(ticket);
      }
    }

    // ------------------------------------------------------------------------ whole rows

    lemma LandedSealed(s0: State, s: State, t: Task, form: Form, stored: bool)
      requires Good(s0) && Closes(s0, s) && SealsOnly(s0, s, t) && Landed(s, t, form, stored)
      ensures Landed(s0, t, form, stored)
    {
      SealGood(s0, s);
      FrozenTransitive(s0, s, S());
      SealsBoth(s0, s, S(), t);
    }

    lemma SealsBoth(a: State, b: State, c: State, t: Task)
      requires SealsOnly(a, b, t) && SealsOnly(b, c, t) && Frozen(b, c)
      ensures SealsOnly(a, c, t)
    {
      forall p | IsSealed(c, p) ensures IsSealed(a, p) || SealedFor(c.forms, t, p) {
        if SealedFor(b.forms, t, p) {
          SealedLater(b, c, t, p);
        }
      }
    }

    lemma SealedLater(s: State, s': State, t: Task, p: nat)
      requires SealedFor(s.forms, t, p) && Frozen(s, s')
      ensures SealedFor(s'.forms, t, p)
    {
      var d :| d in t.deps && d in s.forms && p in s.forms[d].terms;
      assert d in s'.forms && s'.forms[d] == s.forms[d];
    }

    /** Keeps the form for later rows. */
    method StoreForm(ghost s: State, t: Task, form: Form)
      requires Landed(s, t, form, false) && t.id !in s.forms
      modifies forms
      ensures Landed(s, t, form, true)
    {
      hide GroupTable.Valid, FormTable.Valid, PhaseTable.Valid, Pruner.Valid, FormFits, Good, Kempt, Frozen, Matches,
        OnePhase, DerivedAt, PayloadOf, Labelled, Sizes, Traffic, Consecutive, SlotOf, HasRows;
      ghost var s1 := S();
      WithFormGood(s1, t.id, form);
      assert DerivedAt(s1.g, s1.forms, s1.dag[t.id], form);
      StoredFits(s1, t.id, form);
      StoredKempt(s1, slots, groups.contents, lastDagId, v14, share, t.id, form);
      FrozenForms(s, s1, t.id, form);
      forms.Insert(t.id, form);
      assert S() == WithForm(s1, t.id, form);
    }

    /** A network row enters its wave, any other row none. */
    predicate Onward(t: Task, before: Waves, after: Waves) {
      Some(after) == if t.class_.NETWORK? then Entered(before, t.wave) else Some(before)
    }

    // ------------------------------------------------------------------ when a row is accepted

    /** A network row is accepted: a transfer with a payload, in a wave that may go on, with an expressible gate, a
        group that can take it, and traffic IDs left for all its chunks. */
    ghost predicate AcceptsNetwork(g: Graph, t: Task, form: Form, pruned: bool, ready: bool, local: Local,
                                   shared: map<Key, Group>, flags: seq<bool>, next: nat) {
      && Transfers(t.stage) && t.bytes > 0 && t.duration == 0 && Entered(local.waves, t.wave).Some?
      && GateParents(g, t, form, pruned, ready).Some?
      && MayJoin(t, GateParents(g, t, form, pruned, ready).value, local, shared, flags)
      && next + |Chunks(t.bytes)| - 1 <= UINT32_MAX
    }

    /** Any other row carries no payload; a control row needs an expressible gate, a phase and a traffic ID. */
    ghost predicate AcceptsLocal(g: Graph, t: Task, form: Form, pruned: bool, flags: seq<bool>, next: nat) {
      t.bytes == 0 &&
      (HasRows(t) ==> GateParents(g, t, form, pruned, false).Some? && FreshId(|flags|) && next <= UINT32_MAX)
    }

    /** The gate a row starts from, and whether it need not be pruned. */
    ghost function RowGate(t: Task, prepared: Option<Prepared>, table: map<nat, Form>): (Form, bool) {
      if prepared.Some? then (prepared.value.form, false)
      else (Merged(table, t.deps, RootOf(t), t.stage.D_BATCH_BEGIN?), TakenOver(t))
    }

    /** The seals once it has gathered that gate. */
    ghost function RowFlags(t: Task, prepared: Option<Prepared>, table: map<nat, Form>, flags: seq<bool>): seq<bool> {
      if prepared.Some? then flags else SealsAfter(t, t.deps, table, flags)
    }

    /** Exactly when a row is accepted: its ID is the largest so far, its dependencies are stored, an input Read names
        its own P_DONE, and it is acceptable as what it is. A prepared gate was gathered before. */
    ghost predicate Acceptable(s: State, t: Task, prepared: Option<Prepared>, local: Local, shared: map<Key, Group>,
                               last: int, ready: map<nat, nat>, next: nat) {
      && t.id > last && (prepared.None? ==> MayConsume(t, ready) && AllIn(t.deps, s.forms))
      && var (form, pruned) := RowGate(t, prepared, s.forms);
         var flags := RowFlags(t, prepared, s.forms, s.sealedPhases);
         AcceptsGated(s.g, t, form, pruned, prepared.Some?, local, shared, flags, next)
    }

    ghost predicate AcceptsGated(g: Graph, t: Task, form: Form, pruned: bool, ready: bool, local: Local,
                                 shared: map<Key, Group>, flags: seq<bool>, next: nat) {
      if t.class_.NETWORK? then AcceptsNetwork(g, t, form, pruned, ready, local, shared, flags, next)
      else AcceptsLocal(g, t, form, pruned, flags, next)
    }

    /** Network rows: check the payload and the wave, then join and emit. */
    method ConvertNetwork(t: Task, gate: Form, pruned: bool, prepared: Option<Prepared>, local: Local)
      returns (r: Result<(Form, Local)>)
      requires Valid() && LocalOk(local) && lastDagId < t.id && t.class_.NETWORK? && (v14 ==> Validated(t))
      requires local.owner == HomeOwner(t)
      requires if prepared.Some? then PreparedOk(t, prepared.value) && prepared.value.form == gate && !pruned
               else Gathered(S(), t, t.deps, gate, Seals(t))
      modifies `rows, `nextTask, `nextPhase, `slots, `dag, `lastDagId, phases, pruner, groups
      ensures r.Ok? <==> AcceptsNetwork(old(phases.graph), t, gate, pruned, prepared.Some?, local, old(groups.contents),
                                        old(phases.sealedPhases), old(nextTask))
      ensures r.Ok? ==> Landed(old(S()), t, r.value.0, false) && (!v14 ==> LocalOk(r.value.1))
      ensures r.Ok? ==> Onward(t, local.waves, r.value.1.waves) && r.value.1.owner == local.owner
    {
      hide GroupTable.Valid, FormTable.Valid, PhaseTable.Valid, Pruner.Valid, Good, Kempt, Landed, Fits, GateForm,
        GateIdle, NativeForm, GateParents, MayJoin, Chunks;
      if !Transfers(t.stage) {
        return Err("unsupported network task type");
      }
      if t.bytes == 0 || t.duration != 0 {
        return Err("NETWORK needs positive bytes and duration_us=0");
      }
      var entered := EnterWave(t.wave, local);
      if entered.Err? {
        return Err(entered.reason);
      }
      var ticket;
      if prepared.Some? { ticket := PreparedTicket(t, prepared.value); }
      else { ticket := NetworkTicket(t, gate, pruned); }
      if ticket.Err? {
        return Err(ticket.reason);
      }
      var deps := if prepared.Some? && !t.batch.DECODE? then prepared.value.text else ticket.value.parents;
      WavesApart(t, ticket.value.parents, local, entered.value, groups.contents, phases.sealedPhases);
      r := NetworkRow(t, ticket.value, deps, entered.value);
    }

    /** Entering a wave does not change which groups there are. */
    lemma WavesApart(t: Task, parents: seq<nat>, local: Local, local': Local, shared: map<Key, Group>, flags: seq<bool>)
      requires local'.(waves := local.waves) == local
      ensures MayJoin(t, parents, local', shared, flags) == MayJoin(t, parents, local, shared, flags)
    {
    }

    /** Waves are contiguous within a request. */
    method EnterWave(wave: string, local: Local) returns (r: Result<Local>)
      ensures r.Ok? <==> Entered(local.waves, wave).Some?
      ensures r.Ok? ==> Some(r.value.waves) == Entered(local.waves, wave) && r.value.(waves := local.waves) == local
    {
      if wave == "" {
        return Err("network_wave is required for network tasks");
      }
      if local.waves.current == Some(wave) {
        return Ok(local);
      }
      if wave in local.waves.closed {
        return Err("network waves must be contiguous within a request");
      }
      var closed := local.waves.closed;
      if local.waves.current.Some? {
        closed := closed + {local.waves.current.value};
      }
      return Ok(local.(waves := Waves(Some(wave), closed)));
    }

    /** Control and local rows carry no payload. */
    method ConvertLocal(t: Task, gate: Form, pruned: bool) returns (r: Result<Form>)
      requires Valid() && lastDagId < t.id && !t.class_.NETWORK? && Gathered(S(), t, t.deps, gate, Seals(t))
      modifies `rows, `nextTask, `nextPhase, `slots, `dag, `lastDagId, phases, pruner
      ensures r.Ok? <==> AcceptsLocal(old(phases.graph), t, gate, pruned, old(phases.sealedPhases), old(nextTask))
      ensures r.Ok? ==> Landed(old(S()), t, r.value, false)
      ensures r.Ok? && !v14 ==> forall p: nat :: !IsSealed(S(), p)
      ensures r.Ok? ==> KindKept(old(phases.graph), old(slots), phases.graph, slots, true)
    {
      hide GroupTable.Valid, FormTable.Valid, PhaseTable.Valid, Pruner.Valid, Good, Landed, Fits, GateForm, GateIdle;
      if t.bytes != 0 {
        return Err("non-network task must have bytes=0");
      }
      if HasRows(t) {
        var ticket := TimerTicket(t, gate);
        if ticket.Err? {
          return Err(ticket.reason);
        }
        r := TimerRow(t, ticket.value, if t.class_.COMPUTE? then t.duration else 0);
      } else {
        ghost var s := S();
        var form := FoldRow(t, gate, pruned);
        assert forall p: nat :: IsSealed(S(), p) ==> IsSealed(s, p);
        r := Ok(form);
      }
    }

    method ConvertFolding(t: Task, gate: Form, pruned: bool, local: Local) returns (r: Result<(Form, Local)>)
      requires Valid() && LocalOk(local) && lastDagId < t.id && !t.class_.NETWORK?
      requires Gathered(S(), t, t.deps, gate, Seals(t))
      modifies `rows, `nextTask, `nextPhase, `slots, `dag, `lastDagId, phases, pruner
      ensures r.Ok? <==> AcceptsLocal(old(phases.graph), t, gate, pruned, old(phases.sealedPhases), old(nextTask))
      ensures r.Ok? ==> Landed(old(S()), t, r.value.0, false) && (!v14 ==> LocalOk(r.value.1)) && r.value.1 == local
    {
      hide GroupTable.Valid, FormTable.Valid, PhaseTable.Valid, Pruner.Valid, Good, Kempt, Landed, Gathered, KindKept,
        LocalTracked, AcceptsLocal;
      ghost var g, slots0 := phases.graph, slots;
      var form := ConvertLocal(t, gate, pruned);
      if form.Err? {
        return Err(form.reason);
      }
      if !v14 {
        LocalKept(g, slots0, phases.graph, slots, local.owner, local.groups);
        OpenAll(S(), local.groups);
      }
      return Ok((form.value, local));
    }

    /** Gathering seals the phases of the dependencies only. */
    lemma FlagsSealOnly(s: State, s': State, t: Task)
      requires s'.sealedPhases == SealsAfter(t, t.deps, s.forms, s.sealedPhases) && s'.forms == s.forms
      ensures SealsOnly(s, s', t)
    {
    }

    /** The gate a row starts from: the one prepared for its logical task, or the forms of its dependencies. */
    method GateOf(t: Task, prepared: Option<Prepared>, local: Local) returns (r: Result<(Form, bool)>)
      requires Valid() && LocalOk(local) && lastDagId < t.id
      requires prepared.Some? ==> PreparedOk(t, prepared.value)
      modifies phases`sealedPhases, forms`cache
      ensures Valid() && Closes(old(S()), S()) && LocalOk(local)
      ensures r.Ok? <==> prepared.Some? || (MayConsume(t, prefillReady) && AllIn(t.deps, forms.table))
      ensures r.Ok? ==> r.value == RowGate(t, prepared, forms.table) && (prepared.Some? ==> !r.value.1)
      ensures r.Ok? ==> phases.sealedPhases == RowFlags(t, prepared, forms.table, old(phases.sealedPhases))
      ensures r.Ok? ==> SealsOnly(old(S()), S(), t)
      ensures r.Ok? ==> if prepared.Some? then r.value.0 == prepared.value.form && PreparedOk(t, prepared.value)
                        else Gathered(S(), t, t.deps, r.value.0, Seals(t))
    {
      hide GroupTable.Valid, FormTable.Valid, PhaseTable.Valid, Pruner.Valid, Good, Kempt, Closes, Gathered, PreparedOk;
      ghost var s := S();
      if prepared.Some? {
        ClosesNothing(s);
        return Ok((prepared.value.form, false));
      }
      NoLaterTask(s, slots, groups.contents, lastDagId, v14, share, t.id);
      r := Incoming(t);
      ClosesKeeps(s, S());
      if r.Ok? {
        FlagsSealOnly(s, S(), t);
        GatheredIs(S(), t, t.deps, r.value.0, Seals(t));
      }
      if !v14 {
        NothingSealed(S(), slots, groups.contents, lastDagId, share);
        OpenAll(S(), local.groups);
      }
    }

    lemma AcceptedPays(g: Graph, t: Task, form: Form, pruned: bool, ready: bool, local: Local,
                       shared: map<Key, Group>, flags: seq<bool>, next: nat)
      requires AcceptsGated(g, t, form, pruned, ready, local, shared, flags, next)
      ensures Payable(t)
    {
    }

    /** A row whose gate is known. */
    method ConvertGated(t: Task, gate: Form, pruned: bool, prepared: Option<Prepared>, local: Local)
      returns (r: Result<(Form, Local)>)
      requires Valid() && LocalOk(local) && lastDagId < t.id && (v14 ==> Validated(t))
      requires if prepared.Some? then PreparedOk(t, prepared.value) && prepared.value.form == gate && !pruned
               else Gathered(S(), t, t.deps, gate, Seals(t))
      requires (prepared.Some? ==> t.class_.NETWORK?) && local.owner == HomeOwner(t)
      modifies `rows, `nextTask, `nextPhase, `slots, `dag, `lastDagId, phases, pruner, groups
      ensures r.Ok? <==> AcceptsGated(old(phases.graph), t, gate, pruned, prepared.Some?, local, old(groups.contents),
                                      old(phases.sealedPhases), old(nextTask))
      ensures r.Ok? ==> Landed(old(S()), t, r.value.0, false) && (!v14 ==> LocalOk(r.value.1))
      ensures r.Ok? ==> Payable(t) && Onward(t, local.waves, r.value.1.waves) && r.value.1.owner == local.owner
    {
      hide GroupTable.Valid, FormTable.Valid, PhaseTable.Valid, Pruner.Valid, Good, Kempt, Landed, Gathered, PreparedOk,
        LocalOk, AcceptsNetwork, AcceptsLocal, Payable;
      ghost var g, shared, flags, next := phases.graph, groups.contents, phases.sealedPhases, nextTask;
      if t.class_.NETWORK? {
        r := ConvertNetwork(t, gate, pruned, prepared, local);
      } else {
        r := ConvertFolding(t, gate, pruned, local);
      }
      if r.Ok? {
        AcceptedPays(g, t, gate, pruned, prepared.Some?, local, shared, flags, next);
      }
    }

    /** Acceptance in its parts: the ID, the dependencies, the gate. */
    lemma AcceptableWhen(s: State, t: Task, prepared: Option<Prepared>, local: Local, shared: map<Key, Group>,
                         last: int, ready: map<nat, nat>, next: nat)
      ensures Acceptable(s, t, prepared, local, shared, last, ready, next) <==>
              t.id > last && (prepared.Some? || (MayConsume(t, ready) && AllIn(t.deps, s.forms)))
              && AcceptsGated(s.g, t, RowGate(t, prepared, s.forms).0, RowGate(t, prepared, s.forms).1, prepared.Some?,
                              local, shared, RowFlags(t, prepared, s.forms, s.sealedPhases), next)
    {
      hide RowGate, RowFlags, AcceptsGated, MayConsume;
    }

    lemma Parts()
      ensures S() == State(phases.graph, phases.sealedPhases, rows, forms.table, dag, slots)
      ensures Now() == Moment(S(), groups.contents, lastDagId, prefillReady)
    {
    }

    lemma NextIsNew(id: nat)
      requires Valid() && lastDagId < id
      ensures id !in S().dag && id !in S().forms
    {
    }

    /** One DAG row. Task IDs increase strictly, so every dependency is an earlier task. A prepared row reuses the
        gate of its logical task; an ephemeral one is never referenced and its form is not kept. */
    method ConvertRow(t: Task, prepared: Option<Prepared>, local: Local, ephemeral: bool)
      returns (r: Result<(Form, Local)>)
      requires Valid() && LocalOk(local) && local.owner == HomeOwner(t) && (v14 ==> Validated(t))
      requires prepared.Some? ==> ephemeral && t.class_.NETWORK? && PreparedOk(t, prepared.value)
      modifies `rows, `nextTask, `nextPhase, `slots, `dag, `lastDagId, `prefillReady, phases, pruner, groups, forms
      ensures r.Ok? <==> old(Acceptable(S(), t, prepared, local, groups.contents, lastDagId, prefillReady, nextTask))
      ensures r.Ok? ==> Landed(old(S()), t, r.value.0, !ephemeral) && (!v14 ==> LocalOk(r.value.1))
      ensures r.Ok? ==> Valid() && (!ephemeral ==> Converts(old(Now()), Now(), [t]))
      ensures r.Ok? ==> Onward(t, local.waves, r.value.1.waves) && r.value.1.owner == local.owner
    {
      hide *;
      ghost var s := S();
      Parts();
      ValidIsGood();
      AcceptableWhen(s, t, prepared, local, groups.contents, lastDagId, prefillReady, nextTask);
      if t.id <= lastDagId {
        return Err("task IDs must be strictly increasing (topological order)");
      }
      NextIsNew(t.id);
      var gate := GateOf(t, prepared, local);
      if gate.Err? {
        return Err(gate.reason);
      }
      ghost var s1 := S();
      r := ConvertGated(t, gate.value.0, gate.value.1, prepared, local);
      if r.Err? {
        return;
      }
      LandedSealed(s, s1, t, r.value.0, false);
      FinishRow(old(Now()), t, r.value.0, ephemeral);
    }

    /** Notes a request's Prefill completion and keeps the form, unless nobody can ask for it. */
    method FinishRow(ghost m: Moment, t: Task, form: Form, ephemeral: bool)
      requires Landed(m.s, t, form, false) && t.id !in m.s.forms
      requires Payable(t) && t.id > m.last && prefillReady == m.ready && (!ephemeral ==> MayConsume(t, m.ready))
      modifies `prefillReady, forms
      ensures Landed(m.s, t, form, !ephemeral) && Valid() && (!ephemeral ==> Converts(m, Now(), [t]))
    {
      hide Landed, Compiler.Valid, Converts, Payable;
      if t.stage.P_DONE? && t.batch.PREFILL? && t.request.Some? {
        prefillReady := prefillReady[t.request.value := t.id];
      }
      if !ephemeral {
        StoreForm(m.s, t, form);
      }
      LandedValid(m.s, t, form, !ephemeral);
      if !ephemeral {
        ConvertsOne(m, t, form);
      }
    }

    /** An addressable task that is complete when all the given phases are; it has no rows of its own. */
    method AddAlias(alias: nat, deps: seq<nat>, release: nat, pids: set<nat>) returns (ghost n: Node)
      requires Valid() && lastDagId < alias && Known(dag, alias, deps) && forall p | p in pids :: p < |phases.graph|
      requires v14 && share ==> Consumed(S(), deps)
      modifies forms, `dag, `lastDagId
      ensures Valid() && Frozen(old(S()), S()) && lastDagId == alias
      ensures dag == old(dag)[alias := n] && n.deps == deps && n.release == release && n.kind == Barrier(Sorted(pids))
      ensures forms.table == old(forms.table)[alias := AllOf(pids)] && rows == old(rows)
    {
      hide GroupTable.Valid, FormTable.Valid, PhaseTable.Valid, Pruner.Valid, Good, Kempt, Frozen, Known, Consumed;
      var form := AllOf(pids);
      n := Node(deps, release, 0, AfterAll, Barrier(Sorted(pids)));
      ghost var s := S();
      FreshTask(s, slots, groups.contents, lastDagId, v14, share, alias);
      AliasGood(s, slots, groups.contents, lastDagId, v14, share, alias, n, form);
      dag := dag[alias := n];
      lastDagId := alias;
      forms.Insert(alias, form);
      assert S() == WithForm(WithNode(s, alias, n), alias, form);
    }

    // -------------------------------------------------------------------- whole requests, runs

    /** The task is part of the recorded DAG as it was given, its rows carry its payload and joined one phase. */
    ghost predicate Converted(s: State, t: Task) {
      && t.id in s.dag && Matches(t, s.dag[t.id]) && PayloadOf(s.rows, t.id) == Sizes(t)
      && (HasRows(t) ==> |s.dag[t.id].kind.pids| == 1) && Seated(s, t) && ConsumesAll(s, t)
    }

    lemma ConvertedStays(s: State, s': State, t: Task)
      requires Converted(s, t) && Frozen(s, s')
      ensures Converted(s', t)
    {
      PayloadKept(s, s', t.id);
      SeatedStays(s, s', t);
      ConsumesStill(s, s', t);
    }

    /** These input rows all were converted. */
    ghost predicate AllConverted(s: State, tasks: seq<Task>) {
      forall i | 0 <= i < |tasks| :: Converted(s, tasks[i])
    }

    lemma AllConvertedStay(s: State, s': State, tasks: seq<Task>)
      requires AllConverted(s, tasks) && Frozen(s, s')
      ensures AllConverted(s', tasks)
    {
      forall i | 0 <= i < |tasks| ensures Converted(s', tasks[i]) {
        ConvertedStays(s, s', tasks[i]);
      }
    }

    lemma AllConvertedBoth(s: State, x: seq<Task>, y: seq<Task>)
      requires AllConverted(s, x) && AllConverted(s, y)
      ensures AllConverted(s, x + y)
    {
      hide Converted;
    }

    lemma NowConverted(s: State, t: Task, form: Form, stored: bool)
      requires Landed(s, t, form, stored)
      ensures Converted(S(), t)
    {
      hide GroupTable.Valid, FormTable.Valid, PhaseTable.Valid, Pruner.Valid, Good, Kempt, FormFits, Frozen, Matches;
    }

    /** The traffic of these input rows, in order: of which task, and how many bytes. */
    function Expected(tasks: seq<Task>): seq<(nat, nat)> {
      if tasks == [] then []
      else
        var last := |tasks| - 1;
        Expected(tasks[..last]) + Labelled(tasks[last].id, Sizes(tasks[last]))
    }

    lemma ExpectedNothing()
      ensures Expected([]) == []
    {
    }

    lemma ExpectedStep(x: seq<Task>, t: Task)
      ensures Expected(x + [t]) == Expected(x) + Labelled(t.id, Sizes(t))
    {
      assert (x + [t])[..|x|] == x;
    }

    lemma {:induction false} ExpectedThen(x: seq<Task>, y: seq<Task>)
      ensures Expected(x + y) == Expected(x) + Expected(y)
    {
      hide Expected, Labelled, Sizes;
      if y == [] {
        assert x + y == x;
        ExpectedNothing();
      } else {
        var rest, t := y[..|y| - 1], y[|y| - 1];
        assert y == rest + [t] && x + y == (x + rest) + [t];
        ExpectedStep(rest, t);
        ExpectedStep(x + rest, t);
        ExpectedThen(x, rest);
      }
    }

    /** From m to m' exactly these input rows were converted: they are in the DAG as given and can be depended on,
        nothing else is new there, and exactly their traffic was written, in order. */
    ghost predicate Converts(m: Moment, m': Moment, tasks: seq<Task>) {
      && Frozen(m.s, m'.s) && AllConverted(m'.s, tasks)
      && m'.s.dag.Keys == m.s.dag.Keys + IdsOf(tasks) && m'.s.forms.Keys == m.s.forms.Keys + IdsOf(tasks)
      && Writes(m.s, m'.s, Expected(tasks)) && SealsFrom(m.s, m'.s, tasks)
      && Rising(m.last, tasks, m'.last) && m'.ready == ReadyAfter(m.ready, tasks) && AllEntitled(m.ready, tasks)
      && forall i | 0 <= i < |tasks| :: Payable(tasks[i])
    }

    /** Every newly sealed phase is in a stored form that one of these rows depends on, and that row seals. */
    ghost predicate SealsFrom(s: State, s': State, tasks: seq<Task>) {
      forall p | IsSealed(s', p) && !IsSealed(s, p) :: ConsumedBy(s', tasks, p)
    }

    ghost predicate ConsumedBy(s: State, tasks: seq<Task>, p: nat) {
      exists i :: 0 <= i < |tasks| && SealedFor(s.forms, tasks[i], p)
    }

    lemma SealsFromThen(a: State, b: State, c: State, x: seq<Task>, y: seq<Task>)
      requires SealsFrom(a, b, x) && SealsFrom(b, c, y) && Frozen(b, c)
      ensures SealsFrom(a, c, x + y)
    {
      hide SealedFor, Frozen;
      forall p | IsSealed(c, p) && !IsSealed(a, p) ensures ConsumedBy(c, x + y, p) {
        if IsSealed(b, p) {
          var i :| 0 <= i < |x| && SealedFor(b.forms, x[i], p);
          SealedLater(b, c, x[i], p);
          assert (x + y)[i] == x[i];
        } else {
          var i :| 0 <= i < |y| && SealedFor(c.forms, y[i], p);
          assert (x + y)[|x| + i] == y[i];
        }
      }
    }

    lemma ConvertsNothing(m: Moment)
      ensures Converts(m, m, [])
    {
      FrozenSelf(m.s);
      WritesNothing(m.s, m.s);
    }

    lemma ConvertsThen(a: Moment, b: Moment, c: Moment, x: seq<Task>, y: seq<Task>)
      requires Good(a.s) && Good(b.s) && Converts(a, b, x) && Converts(b, c, y)
      ensures Converts(a, c, x + y)
    {
      hide Good, Frozen, AllConverted, Expected, ReadyAfter, Writes, Rising, IdsOf, Payable, SealsFrom, AllEntitled;
      FrozenChain(a.s, b.s, c.s);
      AllConvertedStay(b.s, c.s, x);
      AllConvertedBoth(c.s, x, y);
      ExpectedThen(x, y);
      WritesThen(a.s, b.s, c.s, Expected(x), Expected(y));
      ReadyThen(a.ready, x, y);
      RisingThen(a.last, x, b.last, y, c.last);
      SealsFromThen(a.s, b.s, c.s, x, y);
      EntitledThen(a.ready, x, y);
      IdsThen(x, y);
    }

    lemma LandedValid(s: State, t: Task, form: Form, stored: bool)
      requires Landed(s, t, form, stored)
      ensures Valid() && Frozen(s, S()) && lastDagId == t.id && t.id in dag && dag == s.dag[t.id := dag[t.id]]
      ensures Writes(s, S(), Labelled(t.id, Sizes(t))) && dag[t.id].deps == t.deps && SealsOnly(s, S(), t)
      ensures forms.table == (if stored then s.forms[t.id := form] else s.forms)
    {
    }

    lemma ConvertsOne(m: Moment, t: Task, form: Form)
      requires Landed(m.s, t, form, true) && Payable(t) && t.id > m.last && prefillReady == ReadyWith(m.ready, t)
      requires MayConsume(t, m.ready)
      ensures Converts(m, Now(), [t])
    {
      hide Landed, Converted, Payable, Sizes, Writes, Frozen, Compiler.Valid, SealedFor;
      NowConverted(m.s, t, form, true);
      LandedValid(m.s, t, form, true);
      assert forall p | IsSealed(S(), p) && !IsSealed(m.s, p) :: SealedFor(forms.table, [t][0], p);
      assert [t][..0] == [];
      assert Expected([t]) == Labelled(t.id, Sizes(t));
      assert ReadyAfter(m.ready, [t]) == ReadyWith(m.ready, t);
      assert IdsOf([t]) == {t.id} by { assert [t][0].id in IdsOf([t]); }
    }

    /** The row at this position is not acceptable: in the wave of its request, or, streamed, in a wave of its own. */
    ghost predicate Refused(m: Moment, tasks: seq<Task>, at: nat)
      requires at < |tasks|
    {
      exists from: nat, local: Local :: RefusedIn(m, tasks, at, from, local)
    }

    ghost predicate RefusedIn(m: Moment, tasks: seq<Task>, at: nat, from: nat, local: Local)
      requires at < |tasks|
    {
      && from <= at && Followed(WaveNames(tasks[from..at])) == Some(local.waves)
      && (v14 ==> from == at && local == Fresh(local.owner))
      && (!v14 ==> forall k | from <= k < at :: tasks[k].request == tasks[at].request)
      && !Acceptable(m.s, tasks[at], None, local, m.shared, m.last, m.ready, firstTask + |m.s.rows|)
    }

    /** All rows before this position were converted, and in the state they left, it is not acceptable. */
    ghost predicate StoppedAt(m: Moment, tasks: seq<Task>, at: nat, m': Moment) {
      && at < |tasks| && Good(m'.s) && Converts(m, m', tasks[..at]) && Refused(m', tasks, at)
      && (at == 0 ==> m' == m) && Tracked(m'.s.g, m'.s.slots, m'.shared)
    }

    /** A later part of the input stopped. */
    lemma StoppedLater(a: Moment, b: Moment, tasks: seq<Task>, i: nat, j: nat, at: nat, m: Moment)
      requires i <= j <= |tasks| && Good(a.s) && Good(b.s) && Converts(a, b, tasks[..i])
      requires (i == 0 ==> b == a) && StoppedAt(b, tasks[i..j], at, m)
      ensures StoppedAt(a, tasks, i + at, m)
    {
      hide Good, Converts, Acceptable;
      var part := tasks[i..j];
      assert tasks[..i + at] == tasks[..i] + part[..at];
      ConvertsThen(a, b, m, tasks[..i], part[..at]);
      var from: nat, local: Local :| RefusedIn(m, part, at, from, local);
      assert tasks[i + from..i + at] == part[from..at];
      assert forall k | i + from <= k < i + at :: tasks[k] == part[k - i];
      assert RefusedIn(m, tasks, i + at, i + from, local);
    }

    lemma OneMore(tasks: seq<Task>, i: nat)
      requires i < |tasks|
      ensures tasks[..i + 1] == tasks[..i] + [tasks[i]]
    {
    }

    /** What the rows of one request start from: no groups and no wave yet. */
    function StartOf(tasks: seq<Task>): Local {
      Fresh(if tasks == [] then TaskOwner(0) else HomeOwner(tasks[0]))
    }

    lemma StartIsFresh(tasks: seq<Task>)
      requires v14 ==> |tasks| <= 1
      requires !v14 ==> forall i | 0 <= i < |tasks| :: tasks[i].request.Some? && tasks[i].request == tasks[0].request
      ensures StartOf(tasks) == Fresh(StartOf(tasks).owner) && Followed(WaveNames([])) == Some(StartOf(tasks).waves)
      ensures forall j | 0 <= j < |tasks| :: StartOf(tasks).owner == HomeOwner(tasks[j])
    {
    }

    lemma WavesStep(tasks: seq<Task>, i: nat, before: Waves, after: Waves)
      requires i < |tasks| && Followed(WaveNames(tasks[..i])) == Some(before) && Onward(tasks[i], before, after)
      ensures Followed(WaveNames(tasks[..i + 1])) == Some(after)
    {
      assert tasks[..i + 1][..i] == tasks[..i];
      var names := WaveNames(tasks[..i]);
      if tasks[i].class_.NETWORK? {
        assert (names + [tasks[i].wave])[..|names|] == names;
      } else {
        assert names + [] == names;
      }
    }

    lemma ValidIsGood()
      requires Valid()
      ensures Good(S()) && Good(Now().s) && Tracked(Now().s.g, Now().s.slots, Now().shared)
      ensures nextTask == firstTask + |Now().s.rows|
      ensures forall owner :: LocalOk(Fresh(owner))
    {
    }

    /** Converts the rows of one request, or a single streamed row. The schema that groups per request accepts
        each request in one region of the input only. */
    method ConvertRequest(request: nat, tasks: seq<Task>) returns (r: Result<()>, ghost at: nat, ghost stop: Moment)
      requires Valid() && (v14 ==> |tasks| <= 1 && forall i | 0 <= i < |tasks| :: Validated(tasks[i]))
      requires !v14 ==> forall i | 0 <= i < |tasks| :: tasks[i].request == Some(request)
      modifies this, phases, pruner, groups, forms
      ensures r.Ok? ==> Valid() && Converts(old(Now()), Now(), tasks) && Contiguous(WaveNames(tasks))
      ensures r.Ok? ==> requests == old(requests) + {request}
      ensures r.Ok? && !v14 ==> request !in old(requests)
      ensures r.Err? ==> (!v14 && request in old(requests)) || StoppedAt(old(Now()), tasks, at, stop)
    {
      hide *;
      at, stop := 0, Now();
      ValidIsGood();
      if !v14 && request in requests {
        return Err("request appears in multiple file regions"), at, stop;
      }
      requests := requests + {request};
      var local := StartOf(tasks);
      StartIsFresh(tasks);
      ConvertsNothing(Now());
      for i := 0 to |tasks|
        invariant Valid() && Converts(old(Now()), Now(), tasks[..i]) && (LocalOk(local) || (v14 && i > 0))
        invariant Followed(WaveNames(tasks[..i])) == Some(local.waves)
        invariant requests == old(requests) + {request} && (i == 0 ==> Now() == old(Now()))
        invariant forall j | 0 <= j < |tasks| :: local.owner == HomeOwner(tasks[j])
        invariant i == 0 ==> local == Fresh(local.owner)
      {
        stop, at := Now(), i;
        Parts();
        ValidIsGood();
        var row := ConvertRow(tasks[i], None, local, false);
        if row.Err? {
          StoppedHere(old(Now()), tasks, i, stop, local);
          return Err(row.reason), at, stop;
        }
        WavesStep(tasks, i, local.waves, row.value.1.waves);
        local := row.value.1;
        ValidIsGood();
        OneMore(tasks, i);
        ConvertsThen(old(Now()), stop, Now(), tasks[..i], [tasks[i]]);
      }
      assert tasks[..|tasks|] == tasks;
      ContiguousAccepted(WaveNames(tasks));
      return Ok(()), at, stop;
    }

    lemma StoppedHere(a: Moment, tasks: seq<Task>, at: nat, m: Moment, local: Local)
      requires at < |tasks| && (v14 ==> |tasks| <= 1) && Good(m.s) && Converts(a, m, tasks[..at])
      requires !v14 ==> forall k | 0 <= k < at :: tasks[k].request == tasks[at].request
      requires (at == 0 ==> m == a && local == Fresh(local.owner)) && Tracked(m.s.g, m.s.slots, m.shared)
      requires Followed(WaveNames(tasks[..at])) == Some(local.waves)
      requires !Acceptable(m.s, tasks[at], None, local, m.shared, m.last, m.ready, firstTask + |m.s.rows|)
      ensures StoppedAt(a, tasks, at, m)
    {
      hide Good, Converts, Acceptable, Tracked;
      assert tasks[0..at] == tasks[..at];
      assert RefusedIn(m, tasks, at, 0, local);
    }

    /** Some row's request was seen before its own stretch of rows. */
    ghost predicate SplitRequest(known: set<nat>, tasks: seq<Task>) {
      exists i: nat :: i < |tasks| && tasks[i].request.Some? &&
        (tasks[i].request.value in known ||
         exists k, j | 0 <= k < j < i :: tasks[k].request == tasks[i].request && tasks[j].request != tasks[i].request)
    }

    method FlushGroups()
      requires Valid()
      modifies groups
      ensures Valid() && Now() == old(Now())
    {
      hide GroupTable.Valid, FormTable.Valid, PhaseTable.Valid, Pruner.Valid, Good, Kempt, Numbered;
      groups.Flush();
    }

    /** The whole input: streamed rows one by one, or grouped by consecutive equal requests. Refused exactly where a row
        is malformed for its schema, a request comes back, or a row is not acceptable in the state the rows before it
        left. */
    method Run(tasks: seq<Task>) returns (r: Result<()>, ghost at: nat, ghost stop: Moment)
      requires Valid()
      modifies this, phases, pruner, groups, forms
      ensures r.Ok? ==> Valid() && Converts(old(Now()), Now(), tasks)
      ensures r.Ok? ==> forall t | t in tasks :: if v14 then Validated(t) else t.request.Some?
      ensures r.Err? ==> (exists t | t in tasks :: if v14 then !Validated(t) else t.request.None?)
                         || (!v14 && SplitRequest(old(requests), tasks)) || StoppedAt(old(Now()), tasks, at, stop)
    {
      hide *;
      at, stop := 0, Now();
      var i := 0;
      ConvertsNothing(Now());
      ValidIsGood();
      NothingKnown(old(requests), tasks);
      while i < |tasks|
        invariant i <= |tasks| && Valid() && Converts(old(Now()), Now(), tasks[..i]) && (i == 0 ==> Now() == old(Now()))
        invariant !v14 ==> KnownRequests(old(requests), requests, tasks, i)
        invariant forall k | 0 <= k < i :: if v14 then Validated(tasks[k]) else tasks[k].request.Some?
      {
        ghost var m := Now();
        var j := i + 1;
        ValidIsGood();
        if v14 {
          if !Validated(tasks[i]) {
            return Err("row lacks its batch type"), at, stop;
          }
        } else {
          if tasks[i].request.None? {
            return Err("request_id: invalid integer"), at, stop;
          }
          while j < |tasks| && tasks[j].request == tasks[i].request
            invariant i < j <= |tasks| && forall l | i <= l < j :: tasks[l].request == tasks[i].request
          {
            j := j + 1;
          }
        }
        var request := if tasks[i].request.Some? then tasks[i].request.value else 0;
        ghost var known := requests;
        var done;
        done, at, stop := ConvertRequest(request, tasks[i..j]);
        if done.Err? {
          if !v14 && request in known {
            ComesBack(old(requests), known, tasks, i);
          } else {
            StoppedLater(old(Now()), m, tasks, i, j, at, stop);
            at := i + at;
          }
          return Err(done.reason), at, stop;
        }
        ValidIsGood();
        ConvertsThen(old(Now()), m, Now(), tasks[..i], tasks[i..j]);
        assert tasks[..j] == tasks[..i] + tasks[i..j];
        if !v14 {
          RequestKnown(old(requests), known, requests, tasks, i, j);
        }
        i := j;
      }
      assert tasks[..|tasks|] == tasks;
      FlushGroups();
      return Ok(()), at, stop;
    }

    /** The requests of the rows before position i are known, and the stretch of the last one ends there. */
    ghost predicate KnownRequests(before: set<nat>, known: set<nat>, tasks: seq<Task>, i: nat) {
      && i <= |tasks|
      && (forall q | q in known :: q in before || exists k :: 0 <= k < i && tasks[k].request == Some(q))
      && (0 < i < |tasks| ==> tasks[i].request != tasks[i - 1].request)
    }

    lemma NothingKnown(before: set<nat>, tasks: seq<Task>)
      ensures KnownRequests(before, before, tasks, 0)
    {
    }

    lemma ComesBack(before: set<nat>, known: set<nat>, tasks: seq<Task>, i: nat)
      requires KnownRequests(before, known, tasks, i) && i < |tasks| && tasks[i].request.Some?
      requires tasks[i].request.value in known
      ensures SplitRequest(before, tasks)
    {
      var q := tasks[i].request.value;
      if q !in before {
        var k :| 0 <= k < i && tasks[k].request == Some(q);
        assert k != i - 1 && tasks[i - 1].request != tasks[i].request;
      }
    }

    lemma RequestKnown(before: set<nat>, known: set<nat>, after: set<nat>, tasks: seq<Task>, i: nat, j: nat)
      requires KnownRequests(before, known, tasks, i) && i < j <= |tasks| && tasks[i].request.Some?
      requires after == known + {tasks[i].request.value}
      requires forall l | i <= l < j :: tasks[l].request == tasks[i].request
      requires j < |tasks| ==> tasks[j].request != tasks[i].request
      ensures KnownRequests(before, after, tasks, j)
    {
      forall q | q in after ensures q in before || exists k :: 0 <= k < j && tasks[k].request == Some(q) {
        if q in known && q !in before {
          var k :| 0 <= k < i && tasks[k].request == Some(q);
        }
      }
    }
  }

  /** The form that is due when all these phases are complete. */
  function AllOf(pids: set<nat>): Form {
    Form(0, map p | p in pids :: 0)
  }

  lemma AliasGood(s: State, slots: map<nat, Slot>, groups: map<Key, Group>, last: int, v14: bool, share: bool,
                  alias: nat, n: Node, form: Form)
    requires Good(s) && Kempt(s, slots, groups, last, v14, share) && last < alias && Known(s.dag, alias, n.deps)
    requires v14 && share ==> Consumed(s, n.deps)
    requires n.kind.Barrier? && form.root == 0 && forall p :: p in n.kind.pids <==> p in form.terms
    requires forall p | p in form.terms :: form.terms[p] == 0 && p < |s.g|
    ensures var s' := WithForm(WithNode(s, alias, n), alias, form);
      Good(s') && Frozen(s, s') && Kempt(s', slots, groups, alias, v14, share)
  {
    hide Good, Kempt, Frozen, Consumed, FormFits;
    FreshTask(s, slots, groups, last, v14, share, alias);
    WithNodeGood(s, alias, n);
    NodeKempt(s, slots, groups, last, v14, share, alias, n);
    AliasFits(WithNode(s, alias, n), alias, form);
    WithFormGood(WithNode(s, alias, n), alias, form);
    StoredKempt(WithNode(s, alias, n), slots, groups, alias, v14, share, alias, form);
    FrozenChain(s, WithNode(s, alias, n), WithForm(WithNode(s, alias, n), alias, form));
  }

  lemma AliasFits(s: State, alias: nat, form: Form)
    requires Good(s) && alias in s.dag && s.dag[alias].kind.Barrier? && form.root == 0
    requires forall p :: p in s.dag[alias].kind.pids <==> p in form.terms
    requires forall p | p in form.terms :: form.terms[p] == 0 && p < |s.g|
    ensures FormFits(s, alias, form)
  {
    BarrierForm(s, alias, form);
  }

  lemma FrozenSelf(s: State)
    ensures Frozen(s, s)
  {
  }

  lemma FrozenChain(a: State, b: State, c: State)
    requires Good(a) && Good(b) && Frozen(a, b) && Frozen(b, c)
    ensures Frozen(a, c)
  {
    FrozenTransitive(a, b, c);
  }

  lemma OpenAll(s: State, groups: map<Signature, Group>)
    requires forall p: nat :: !IsSealed(s, p)
    ensures AllOpen(s.sealedPhases, groups)
  {
    assert forall sig | sig in groups :: !IsSealed(s, groups[sig].pid);
  }

  lemma NoLaterTask(s: State, slots: map<nat, Slot>, groups: map<Key, Group>, last: int, v14: bool, share: bool, t: nat)
    requires Kempt(s, slots, groups, last, v14, share) && last < t
    ensures forall u | u in s.dag :: u < t
  {
  }

  lemma NothingSealed(s: State, slots: map<nat, Slot>, groups: map<Key, Group>, last: int, share: bool)
    requires Kempt(s, slots, groups, last, false, share)
    ensures forall p: nat :: !IsSealed(s, p)
  {
  }

  lemma ClosesNothing(s: State)
    ensures Closes(s, s)
  {
  }

  lemma ClosesKeeps(s: State, s': State)
    requires Closes(s, s')
    ensures s'.g == s.g && s'.dag == s.dag
  {
  }

  lemma StoredFits(s: State, t: nat, f: Form)
    requires FormFits(s, t, f)
    ensures FormFits(WithForm(s, t, f), t, f)
  {
  }

  lemma NodeKempt(s: State, slots: map<nat, Slot>, groups: map<Key, Group>, last: int, v14: bool, share: bool, t: nat,
                  n: Node)
    requires Kempt(s, slots, groups, last, v14, share) && last < t && (v14 && share ==> Consumed(s, n.deps))
    requires Frozen(s, WithNode(s, t, n)) && (ParentsSealed(s) ==> ParentsSealed(WithNode(s, t, n)))
    requires Good(s)
    ensures Kempt(WithNode(s, t, n), slots, groups, t, v14, share)
  {
    DerivedKept(s, WithNode(s, t, n));
    if v14 {
      PaddedRowsKept(s, WithNode(s, t, n));
    }
    var s' := WithNode(s, t, n);
    assert forall p: nat :: IsSealed(s', p) ==> IsSealed(s, p);
    forall u | v14 && share && u in s'.dag ensures Consumed(s', s'.dag[u].deps) {
      ConsumedForEver(s, s', s'.dag[u].deps);
    }
  }

  lemma StoredKempt(s: State, slots: map<nat, Slot>, groups: map<Key, Group>, last: int, v14: bool, share: bool, t: nat,
                    f: Form)
    requires Good(s) && Kempt(s, slots, groups, last, v14, share) && Frozen(s, WithForm(s, t, f)) && FormFits(s, t, f)
    requires t !in s.forms && t in s.dag && DerivedAt(s.g, s.forms, s.dag[t], f)
    requires s.dag[t].kind.Compact? ==> TermsSealed(s, f.terms)
    ensures Kempt(WithForm(s, t, f), slots, groups, last, v14, share)
  {
    DerivedMore(s, t, f);
    if v14 {
      PaddedRowsKept(s, WithForm(s, t, f));
    }
    var s' := WithForm(s, t, f);
    assert forall p: nat :: IsSealed(s', p) ==> IsSealed(s, p);
    forall u | v14 && share && u in s'.dag ensures Consumed(s', s'.dag[u].deps) {
      ConsumedForEver(s, s', s'.dag[u].deps);
    }
  }

  lemma FrozenForms(s: State, s': State, t: nat, f: Form)
    requires Frozen(s, s') && t !in s.forms
    ensures Frozen(s, WithForm(s', t, f))
  {
  }

  lemma LastIsLargest(parents: seq<nat>, terms: map<nat, nat>)
    requires Lists(parents, terms) && parents != []
    ensures terms.Keys != {} && parents[|parents| - 1] == Largest(terms.Keys)
  {
    var last := parents[|parents| - 1];
    assert last in parents;
    assert Largest(terms.Keys) in parents;
  }

  lemma StubGate(s: State, t: nat, n: Node, m: Node, f: Form, extra: nat)
    requires n.deps == m.deps && n.release == m.release
    ensures GateForm(s, t, n, f, extra) == GateForm(s, t, m, f, extra)
    ensures GateIdle(s, t, n, f) == GateIdle(s, t, m, f)
  {
  }

  /** The form of a folded task has the value of its gate plus its duration. */
  lemma FoldFits(s: State, t: nat, n: Node, out: Form)
    requires Good(s) && t !in s.dag && Good(WithNode(s, t, n)) && n.kind.Folded?
    requires GateForm(s, t, Node(n.deps, n.release, 0, AfterAll, Folded), out, n.local)
    ensures var s' := WithNode(s, t, n);
      TopOf(out.terms) == TopPhase(s'.dag, t) &&
      forall C: Times, timed: bool | Legal(s'.rows, C) :: Eval(View(out, timed), C) == Done(s'.dag, t, C, timed)
  {
    var s' := WithNode(s, t, n);
    GateTopExtends(s.dag, s'.dag, t, n.deps);
    forall C: Times, timed: bool | Legal(s'.rows, C) ensures Eval(View(out, timed), C) == Done(s'.dag, t, C, timed) {
      GateExtends(s.dag, s'.dag, t, n.deps, n.release, C, timed);
    }
  }

  lemma FoldIdle(s: State, t: nat, n: Node, form: Form, out: Form)
    requires Good(s) && t !in s.dag && Good(WithNode(s, t, n)) && n.kind.Folded?
    requires GateIdle(s, t, Node(n.deps, n.release, 0, AfterAll, Folded), form)
    requires Normal(s.g, Shift(form, n.local), out, false)
    requires InRange(s.g, out.terms)
    ensures var s' := WithNode(s, t, n);
      && (Idle(s'.dag, t, false) ==> forall p | p in out.terms :: out.terms[p] == 0)
      && (Idle(s'.dag, t, true) ==> out.root == 0)
  {
    var s' := WithNode(s, t, n);
    forall i, b | 0 <= i < |n.deps| ensures Idle(s.dag, n.deps[i], b) == Idle(s'.dag, n.deps[i], b) {
      IdleExtends(s.dag, s'.dag, n.deps[i], b);
    }
  }

  lemma FitsKind(s: State, t: nat, n: Node, m: Node, ticket: Ticket)
    requires Fits(s, t, n, ticket) && m == n.(kind := m.kind)
    ensures Fits(s, t, m, ticket) && Known(s.dag, t, m.deps)
  {
    forall C: Times | Legal(s.rows, C) ensures Keeps(s.dag, t, m, Ready(ticket.parents, C) + ticket.delay, C) {
      KeepsKind(s.dag, t, n, m, Ready(ticket.parents, C) + ticket.delay, C);
    }
  }

  lemma KeepsKind(dag: Tasks, t: nat, n: Node, m: Node, start: nat, C: Times)
    requires Closed(dag) && Known(dag, t, n.deps) && m == n.(kind := m.kind)
    ensures Keeps(dag, t, n, start, C) == Keeps(dag, t, m, start, C)
  {
  }

  lemma FreshTask(s: State, slots: map<nat, Slot>, groups: map<Key, Group>, last: int, v14: bool, share: bool, t: nat)
    requires Good(s) && Kempt(s, slots, groups, last, v14, share) && last < t
    ensures Shape(s) && t !in s.dag && t !in s.forms
  {
  }

  /** The rows added for a new task are all its rows. */
  lemma RowsPayload(s: State, rows: seq<Row>, added: seq<Row>, t: nat, sizes: seq<nat>)
    requires Shape(s) && t !in s.dag && rows == s.rows + added && |added| == |sizes|
    requires forall i | 0 <= i < |added| :: added[i].dag == t && added[i].bytes == sizes[i]
    ensures Traffic(rows[|s.rows|..]) == Labelled(t, sizes) && PayloadOf(rows, t) == sizes
  {
    assert rows[|s.rows|..] == added;
    assert Payload(added) == sizes;
    forall r | r in s.rows ensures r.dag != t {
    }
    PayloadNew(s.rows, added, t);
  }

  lemma StillConsecutive(rows: seq<Row>, t: nat, pid: nat, ticket: Ticket, sizes: seq<nat>, first: nat)
    requires Consecutive(rows, first)
    ensures Consecutive(rows + MemberRows(t, pid, ticket, sizes, first + |rows|), first)
  {
  }

  lemma EmitKempt(s: State, slots: map<nat, Slot>, groups: map<Key, Group>, last: int, v14: bool, share: bool,
                  slots': map<nat, Slot>, groups': map<Key, Group>,
                  t: nat, n: Node, pid: nat, ticket: Ticket, rec: Phase, added: seq<Row>)
    requires Good(s) && Kempt(s, slots, groups, last, v14, share) && last < t && pid <= |s.g|
    requires Justified(s.g, pid, ticket, rec) && Below(ticket.parents, |s.g|)
    requires v14 && share ==> Consumed(s, n.deps) && forall p | p in ticket.parents :: IsSealed(s, p)
    requires Members(added, t, pid, ticket) && Shape(Emitted(s, t, n, pid, rec, added, slots'))
    requires v14 && n.rule.AfterAll? ==> Padded(s, n, ticket.parents, ticket.delay)
    requires t !in s.dag && Frozen(s, Emitted(s, t, n, pid, rec, added, slots'))
    requires Tracked(Recorded(s.g, pid, rec), slots', groups')
    requires Latest(slots', groups', Emitted(s, t, n, pid, rec, added, slots').sealedPhases)
    ensures Kempt(Emitted(s, t, n, pid, rec, added, slots'), slots', groups', t, v14, share)
    ensures !v14 ==> forall p: nat :: !IsSealed(Emitted(s, t, n, pid, rec, added, slots'), p)
  {
    var s' := Emitted(s, t, n, pid, rec, added, slots');
    DerivedKept(s, s');
    if v14 {
      PaddedRowsMore(s, s', t, n, pid, ticket, added);
    }
    forall p: nat | !v14 ensures !IsSealed(s', p) {
      assert !IsSealed(s, p);
    }
    if v14 && share {
      EmitParentsSealed(s, t, n, pid, ticket, rec, added, slots');
      forall u | u in s'.dag ensures Consumed(s', s'.dag[u].deps) {
        assert Consumed(s, if u == t then n.deps else s.dag[u].deps);
        ConsumedForEver(s, s', s'.dag[u].deps);
      }
    }
  }

  lemma TicketShape(s: State, t: nat, n: Node, ticket: Ticket)
    requires Good(s) && Fits(s, t, n, ticket)
    ensures Topological(s.g) && Ascending(ticket.parents) && Below(ticket.parents, |s.g|)
  {
  }

  /** The rows of one task: same phase, dependencies and delay, consecutive native IDs. */
  function MemberRows(task: nat, pid: nat, ticket: Ticket, sizes: seq<nat>, first: nat): (r: seq<Row>)
    ensures |r| == |sizes|
    ensures forall i | 0 <= i < |r| :: r[i] == Row(first + i, task, pid, ticket.parents, ticket.delay, sizes[i])
  {
    seq(|sizes|, i requires 0 <= i < |sizes| => Row(first + i, task, pid, ticket.parents, ticket.delay, sizes[i]))
  }

  lemma MemberRowsStep(task: nat, pid: nat, ticket: Ticket, size: nat, rest: seq<nat>, first: nat, before: seq<Row>)
    ensures before + MemberRows(task, pid, ticket, [size] + rest, first)
         == (before + [Row(first, task, pid, ticket.parents, ticket.delay, size)])
            + MemberRows(task, pid, ticket, rest, first + 1)
  {
  }

  lemma MemberRowsAre(task: nat, pid: nat, ticket: Ticket, sizes: seq<nat>, first: nat)
    requires sizes != []
    ensures Members(MemberRows(task, pid, ticket, sizes, first), task, pid, ticket)
  {
  }

  /** The sorted union of two parent vectors. */
  function Union(a: seq<nat>, b: seq<nat>): (u: seq<nat>)
    ensures Ascending(u) && forall p :: p in u <==> p in a || p in b
  {
    Sorted((set p | p in a) + (set p | p in b))
  }

  lemma UnionBelow(a: seq<nat>, b: seq<nat>, pid: nat)
    requires Below(a, pid) && Below(b, pid)
    ensures Below(Union(a, b), pid)
  {
    var u := Union(a, b);
    forall i | 0 <= i < |u| ensures u[i] < pid {
      assert u[i] in u;
    }
  }

  /** Widening a batch-wide group by a member claims nothing new: its record has delay 0. */
  lemma BatchRecord(g: Graph, group: Group, ticket: Ticket, rec: Phase)
    requires Topological(g) && group.pid < |g| && g[group.pid] == Phase(group.parents, 0, group.floor)
    requires Below(ticket.parents, group.pid)
    requires rec == Phase(Union(group.parents, ticket.parents), 0, Max(group.floor, ticket.floor))
    ensures Justified(g, group.pid, ticket, rec)
  {
    UnionBelow(group.parents, ticket.parents, group.pid);
  }

  lemma WaveRecord(g: Graph, group: Group, ticket: Ticket, rec: Phase)
    requires Topological(g) && group.pid < |g| && g[group.pid] == Phase(group.parents, group.maxDelay, group.floor)
    requires group.parents == ticket.parents
    requires rec == Phase(group.parents, Max(group.maxDelay, ticket.delay), Max(group.floor, ticket.floor))
    ensures Justified(g, group.pid, ticket, rec)
  {
    assert Ascending(g[group.pid].parents) && Below(g[group.pid].parents, group.pid);
  }

  lemma AppendTopological(g: Graph, rec: Phase)
    requires Topological(g) && Ascending(rec.parents) && Below(rec.parents, |g|)
    ensures Topological(g + [rec])
  {
  }

  lemma RewriteTopological(g: Graph, pid: nat, rec: Phase)
    requires Topological(g) && pid < |g| && Ascending(rec.parents) && Below(rec.parents, pid)
    ensures Topological(g[pid := rec])
  {
  }
}

/** The abstract compiler state, its invariant, and the lemmas that each kind of step keeps it. */
module States {
  import opened Collections
  import opened Timing
  import opened Dominance
  import opened Tops
  import opened Dag
  import opened Grouping

  datatype State = State(g: Graph, sealedPhases: seq<bool>, rows: seq<Row>, forms: map<nat, Form>, dag: Tasks,
                         slots: map<nat, Slot>)

  /** The dependencies, delay and known earliest finish of a row about to be emitted. */
  datatype Ticket = Ticket(parents: seq<nat>, delay: nat, floor: nat)

  /** Native IDs follow each other without a gap. */
  ghost predicate Consecutive(rows: seq<Row>, first: nat) {
    forall i | 0 <= i < |rows| :: rows[i].native == first + i
  }

  // -------------------------------------------------------------------- invariant

  /** The phase is one of those the task is complete with. */
  ghost predicate Home(n: Node, pid: nat) {
    n.kind.Barrier? && pid in n.kind.pids
  }

  ghost predicate Shape(s: State) {
    && Topological(s.g) && |s.sealedPhases| == |s.g| && Closed(s.dag)
    && (forall t | t in s.forms :: t in s.dag && InRange(s.g, s.forms[t].terms))
    && (forall r | r in s.rows :: r.dag in s.dag && Home(s.dag[r.dag], r.pid))
    && WellFounded(s.rows, |s.g|)
  }

  /** Every record under-approximates every legal execution of the rows emitted so far. */
  ghost predicate Sound(s: State) {
    forall C: Times | Legal(s.rows, C) :: Consistent(s.g, C)
  }

  /** Every stored form has the value of its task, with and without times, in every legal execution. */
  ghost predicate Meaning(s: State) {
    Shape(s) &&
    forall C: Times, t: nat, timed: bool | Legal(s.rows, C) && t in s.forms ::
      Eval(View(s.forms[t], timed), C) == Done(s.dag, t, C, timed)
  }

  /** A task without time of its own has a form without lags (and without a root). */
  ghost predicate IdleForms(s: State) {
    && Shape(s)
    && (forall t, p | t in s.forms && p in s.forms[t].terms && Idle(s.dag, t, false) :: s.forms[t].terms[p] == 0)
    && (forall t | t in s.forms && Idle(s.dag, t, true) :: s.forms[t].root == 0)
  }

  /** Every emitted row keeps the promise of its rule in every legal execution. */
  ghost predicate Promises(s: State) {
    Shape(s) &&
    forall C: Times, r: Row | Legal(s.rows, C) && r in s.rows :: Promise(s.dag, r, C)
  }

  /** Every stored form keeps the largest phase its task waits for, and the time after it. */
  ghost predicate TopForms(s: State) {
    Shape(s) && forall t | t in s.forms :: TopOf(s.forms[t].terms) == TopPhase(s.dag, t)
  }

  ghost predicate Good(s: State) {
    Shape(s) && Sound(s) && Meaning(s) && TopForms(s) && IdleForms(s) && Promises(s)
  }

  ghost predicate IsSealed(s: State, p: nat) {
    p < |s.sealedPhases| && s.sealedPhases[p]
  }

  ghost predicate TermsSealed(s: State, terms: map<nat, nat>) {
    forall p | p in terms :: IsSealed(s, p)
  }

  /** Whatever some phase waits for is sealed. */
  ghost predicate ParentsSealed(s: State) {
    forall q, i | 0 <= q < |s.g| && 0 <= i < |s.g[q].parents| ::
      IsSealed(s, s.g[q].parents[i])
  }

  // --------------------------------------------------------------- what steps keep

  /** From s to s' no sealed phase gained a member or changed its record, no earlier task gained a row, and nothing was
      forgotten. */
  ghost predicate Frozen(s: State, s': State) {
    && |s.g| <= |s'.g| && |s.sealedPhases| <= |s'.sealedPhases| && s.rows <= s'.rows
    && (forall p: nat | IsSealed(s, p) :: IsSealed(s', p) && (p < |s.g| ==> s'.g[p] == s.g[p]))
    && (forall i | |s.rows| <= i < |s'.rows| :: !IsSealed(s, s'.rows[i].pid) && s'.rows[i].dag !in s.dag)
    && Extends(s.dag, s'.dag)
    && (forall t | t in s.forms :: t in s'.forms && s'.forms[t] == s.forms[t]) && SlotsKept(s.slots, s'.slots)
  }

  lemma FrozenTransitive(a: State, b: State, c: State)
    requires Frozen(a, b) && Frozen(b, c)
    requires |a.g| == |a.sealedPhases| && |b.g| == |b.sealedPhases|
    ensures Frozen(a, c)
  {
    forall i | |a.rows| <= i < |c.rows|
      ensures !IsSealed(a, c.rows[i].pid) && c.rows[i].dag !in a.dag
    {
      if i < |b.rows| {
        assert c.rows[i] == b.rows[i];
      }
    }
  }

  /** The bytes of the rows of task t, in order. */
  function PayloadOf(rows: seq<Row>, t: nat): seq<nat> {
    if rows == [] then []
    else
      var last := |rows| - 1;
      PayloadOf(rows[..last], t) + if rows[last].dag == t then [rows[last].bytes] else []
  }

  lemma {:induction false} PayloadSame(rows: seq<Row>, more: seq<Row>, t: nat)
    requires forall r | r in more :: r.dag != t
    ensures PayloadOf(rows + more, t) == PayloadOf(rows, t)
  {
    if more == [] {
      assert rows + more == rows;
    } else {
      var last := |more| - 1;
      assert (rows + more)[..|rows + more| - 1] == rows + more[..last];
      PayloadSame(rows, more[..last], t);
    }
  }

  /** An earlier task keeps its rows. */
  lemma PayloadKept(s: State, s': State, t: nat)
    requires Frozen(s, s') && t in s.dag
    ensures PayloadOf(s'.rows, t) == PayloadOf(s.rows, t)
  {
    assert s'.rows == s.rows + s'.rows[|s.rows|..];
    PayloadSame(s.rows, s'.rows[|s.rows|..], t);
  }

  function Payload(rows: seq<Row>): (r: seq<nat>) {
    seq(|rows|, i requires 0 <= i < |rows| => rows[i].bytes)
  }

  /** The task and the bytes of every row, in order. */
  function Traffic(rows: seq<Row>): (r: seq<(nat, nat)>)
    ensures |r| == |rows| && forall i | 0 <= i < |r| :: r[i] == (rows[i].dag, rows[i].bytes)
  {
    seq(|rows|, i requires 0 <= i < |rows| => (rows[i].dag, rows[i].bytes))
  }

  /** Rows of these sizes, all of task t. */
  function Labelled(t: nat, sizes: seq<nat>): (r: seq<(nat, nat)>)
    ensures |r| == |sizes| && forall i | 0 <= i < |r| :: r[i] == (t, sizes[i])
  {
    seq(|sizes|, i requires 0 <= i < |sizes| => (t, sizes[i]))
  }

  /** From s to s' exactly this traffic was written, in this order. */
  ghost predicate Writes(s: State, s': State, traffic: seq<(nat, nat)>) {
    s.rows <= s'.rows && Traffic(s'.rows[|s.rows|..]) == traffic
  }

  lemma WritesThen(a: State, b: State, c: State, x: seq<(nat, nat)>, y: seq<(nat, nat)>)
    requires Writes(a, b, x) && Writes(b, c, y)
    ensures Writes(a, c, x + y)
  {
    assert c.rows[|a.rows|..] == b.rows[|a.rows|..] + c.rows[|b.rows|..];
  }

  lemma WritesNothing(s: State, s': State)
    requires s'.rows == s.rows
    ensures Writes(s, s', [])
  {
  }

  /** A task without rows. */
  lemma {:induction false} NoPayload(rows: seq<Row>, t: nat)
    requires forall r | r in rows :: r.dag != t
    ensures PayloadOf(rows, t) == []
  {
    PayloadSame([], rows, t);
    assert [] + rows == rows;
  }

  lemma {:induction false} PayloadNew(rows: seq<Row>, added: seq<Row>, t: nat)
    requires (forall r | r in rows :: r.dag != t) && forall r | r in added :: r.dag == t
    ensures PayloadOf(rows + added, t) == Payload(added)
  {
    if added == [] {
      PayloadSame([], rows, t);
      assert rows + added == rows == [] + rows;
    } else {
      var last := |added| - 1;
      assert (rows + added)[..|rows + added| - 1] == rows + added[..last];
      PayloadNew(rows, added[..last], t);
      assert added[last] in added;
    }
  }

  /** Sealing a phase seals all it transitively waits for: no ancestor changes either. */
  lemma {:induction false} AncestorsFrozen(s: State, s': State, c: Chain)
    requires Shape(s) && ParentsSealed(s) && Frozen(s, s') && InGraph(s.g, c)
    requires IsSealed(s, Source(c))
    ensures End(c) < |s.g| && IsSealed(s, End(c)) && s'.g[End(c)] == s.g[End(c)]
    ensures forall i | |s.rows| <= i < |s'.rows| :: s'.rows[i].pid != End(c)
  {
    if c.Via? {
      AncestorsFrozen(s, s', c.rest);
    }
  }

  // -------------------------------------------------------------- emitting a member

  /** The known floor of a row is implied by the floors of its dependencies. */
  ghost predicate Covered(g: Graph, ticket: Ticket) {
    ticket.floor <= ticket.delay ||
    exists p | p in ticket.parents :: p < |g| && ticket.floor <= g[p].floor + ticket.delay
  }

  /** The floor of a row is no less than any floor of its dependencies forces. */
  ghost predicate Tight(g: Graph, ticket: Ticket) {
    && ticket.delay <= ticket.floor
    && forall p | p in ticket.parents :: p < |g| && g[p].floor + ticket.delay <= ticket.floor
  }

  ghost predicate Fits(s: State, t: nat, n: Node, ticket: Ticket) {
    && Shape(s) && Known(s.dag, t, n.deps)
    && Ascending(ticket.parents) && Below(ticket.parents, |s.g|) && Covered(s.g, ticket)
    && Selects(s.dag, t, n, ticket.parents)
    && forall C: Times | Legal(s.rows, C) :: Keeps(s.dag, t, n, Ready(ticket.parents, C) + ticket.delay, C)
  }

  /** The new record of a phase claims no more than its old record and its new member justify. */
  ghost predicate Justified(g: Graph, pid: nat, ticket: Ticket, rec: Phase) {
    && Ascending(rec.parents) && Below(rec.parents, pid)
    && (forall p | p in rec.parents ::
          (p in ticket.parents && rec.delay <= ticket.delay) ||
          (pid < |g| && p in g[pid].parents && rec.delay <= g[pid].delay))
    && (rec.floor <= ticket.floor || (pid < |g| && rec.floor <= g[pid].floor))
  }

  function Recorded(g: Graph, pid: nat, rec: Phase): Graph
    requires pid <= |g|
  {
    if pid == |g| then g + [rec] else g[pid := rec]
  }

  ghost predicate Members(added: seq<Row>, t: nat, pid: nat, ticket: Ticket) {
    added != [] &&
    forall r | r in added :: r.dag == t && r.pid == pid && r.deps == ticket.parents && r.delay == ticket.delay
  }

  /** The state after task t joined phase `pid` with the rows `added`. */
  function Emitted(s: State, t: nat, n: Node, pid: nat, rec: Phase, added: seq<Row>, slots: map<nat, Slot>): State
    requires pid <= |s.g|
  {
    State(Recorded(s.g, pid, rec), if pid == |s.g| then s.sealedPhases + [false] else s.sealedPhases,
          s.rows + added, s.forms, s.dag[t := n], slots)
  }

  lemma LegalPrefix(rows: seq<Row>, added: seq<Row>, C: Times)
    requires Legal(rows + added, C)
    ensures Legal(rows, C) && Legal(added, C)
  {
    forall r | r in rows ensures Start(r, C) <= C(r.pid) { assert r in rows + added; }
    forall r | r in added ensures Start(r, C) <= C(r.pid) { assert r in rows + added; }
  }

  /** The rewritten record still holds in every execution that also runs the new member. */
  lemma RecordSound(g: Graph, pid: nat, ticket: Ticket, rec: Phase, C: Times)
    requires Topological(g) && Consistent(g, C) && pid <= |g| && Below(ticket.parents, pid)
    requires Covered(g, ticket) && Justified(g, pid, ticket, rec)
    requires Ready(ticket.parents, C) + ticket.delay <= C(pid)
    ensures Topological(Recorded(g, pid, rec)) && Consistent(Recorded(g, pid, rec), C)
  {
    var g' := Recorded(g, pid, rec);
    forall p | p in rec.parents ensures C(p) + rec.delay <= C(pid) {
      if p in ticket.parents && rec.delay <= ticket.delay {
        assert C(p) <= Ready(ticket.parents, C);
      }
    }
    if rec.floor <= ticket.floor {
      if p :| p in ticket.parents && p < |g| && ticket.floor <= g[p].floor + ticket.delay {
        assert g[p].floor <= C(p) <= Ready(ticket.parents, C);
      }
    }
    assert forall q | 0 <= q < |g'| && q != pid :: g'[q] == g[q];
  }

  lemma RowsWellFounded(s: State, t: nat, n: Node, pid: nat, ticket: Ticket, rec: Phase, added: seq<Row>)
    requires WellFounded(s.rows, |s.g|) && pid <= |s.g| && Below(ticket.parents, pid) && Members(added, t, pid, ticket)
    ensures WellFounded(s.rows + added, |Recorded(s.g, pid, rec)|)
  {
    var rows := s.rows + added;
    forall p: nat | p < |Recorded(s.g, pid, rec)| ensures HasRow(rows, p) {
      if p < |s.g| {
        assert HasRow(s.rows, p);
        var i :| 0 <= i < |s.rows| && s.rows[i].pid == p;
        assert rows[i].pid == p;
      } else {
        assert added[0] in added;
        assert rows[|s.rows|].pid == p;
      }
    }
  }

  lemma ClosedWith(dag: Tasks, t: nat, n: Node)
    requires Closed(dag) && t !in dag && Known(dag, t, n.deps)
    ensures Closed(dag[t := n]) && Extends(dag, dag[t := n]) && Known(dag[t := n], t, n.deps)
  {
  }

  lemma EmitShape(s: State, t: nat, n: Node, pid: nat, ticket: Ticket, rec: Phase, added: seq<Row>,
                  slots: map<nat, Slot>)
    requires Shape(s) && t !in s.dag && Known(s.dag, t, n.deps)
    requires pid <= |s.g| && Below(ticket.parents, pid) && Justified(s.g, pid, ticket, rec)
    requires Members(added, t, pid, ticket) && Home(n, pid)
    ensures Shape(Emitted(s, t, n, pid, rec, added, slots))
  {
    ClosedWith(s.dag, t, n);
    RowsWellFounded(s, t, n, pid, ticket, rec, added);
    var s' := Emitted(s, t, n, pid, rec, added, slots);
    assert forall q | 0 <= q < |s'.g| && q != pid :: s'.g[q] == s.g[q];
  }

  lemma EmitSound(s: State, t: nat, n: Node, pid: nat, ticket: Ticket, rec: Phase, added: seq<Row>,
                  slots: map<nat, Slot>)
    requires Shape(s) && Sound(s) && Covered(s.g, ticket)
    requires pid <= |s.g| && Below(ticket.parents, pid) && Justified(s.g, pid, ticket, rec)
    requires Members(added, t, pid, ticket)
    ensures Sound(Emitted(s, t, n, pid, rec, added, slots))
  {
    var s' := Emitted(s, t, n, pid, rec, added, slots);
    forall C: Times | Legal(s'.rows, C) ensures Consistent(s'.g, C) {
      LegalPrefix(s.rows, added, C);
      assert added[0] in added && Start(added[0], C) <= C(pid);
      RecordSound(s.g, pid, ticket, rec, C);
    }
  }

  lemma EmitMeaning(s: State, t: nat, n: Node, pid: nat, rec: Phase, added: seq<Row>,
                    slots: map<nat, Slot>)
    requires Shape(s) && Meaning(s) && t !in s.dag && Known(s.dag, t, n.deps) && pid <= |s.g|
    requires Shape(Emitted(s, t, n, pid, rec, added, slots))
    ensures Meaning(Emitted(s, t, n, pid, rec, added, slots))
  {
    ClosedWith(s.dag, t, n);
    var s' := Emitted(s, t, n, pid, rec, added, slots);
    forall C: Times, u: nat, timed: bool | Legal(s'.rows, C) && u in s'.forms
      ensures Eval(View(s'.forms[u], timed), C) == Done(s'.dag, u, C, timed)
    {
      LegalPrefix(s.rows, added, C);
      DoneExtends(s.dag, s'.dag, u, C, timed);
    }
  }

  lemma EmitPromises(s: State, t: nat, n: Node, pid: nat, ticket: Ticket, rec: Phase, added: seq<Row>,
                     slots: map<nat, Slot>)
    requires Shape(s) && Promises(s) && t !in s.dag && Known(s.dag, t, n.deps) && Fits(s, t, n, ticket)
    requires pid <= |s.g| && Members(added, t, pid, ticket)
    requires Shape(Emitted(s, t, n, pid, rec, added, slots))
    ensures Promises(Emitted(s, t, n, pid, rec, added, slots))
  {
    var s' := Emitted(s, t, n, pid, rec, added, slots);
    forall C: Times, r: Row | Legal(s'.rows, C) && r in s'.rows ensures Promise(s'.dag, r, C) {
      hide Promise, Promises, Fits, Members, Known;
      EmittedPromise(s, t, n, pid, ticket, rec, added, slots, r, C);
    }
  }

  lemma EmittedPromise(s: State, t: nat, n: Node, pid: nat, ticket: Ticket, rec: Phase, added: seq<Row>,
                       slots: map<nat, Slot>, r: Row, C: Times)
    requires Shape(s) && Promises(s) && t !in s.dag && Known(s.dag, t, n.deps) && Fits(s, t, n, ticket)
    requires pid <= |s.g| && Members(added, t, pid, ticket)
    requires Shape(Emitted(s, t, n, pid, rec, added, slots)) && Legal(s.rows + added, C) && r in s.rows + added
    ensures Promise(s.dag[t := n], r, C)
  {
    hide Promise, Promises, Fits, Members, Known;
    LegalPrefix(s.rows, added, C);
    if r in s.rows {
      PromiseOld(s, t, n, r, C);
    } else {
      assert r in added;
      PromiseFresh(s, t, n, pid, ticket, added, r, C);
    }
  }

  lemma PromiseOld(s: State, t: nat, n: Node, r: Row, C: Times)
    requires Shape(s) && Promises(s) && t !in s.dag && Known(s.dag, t, n.deps) && Legal(s.rows, C) && r in s.rows
    ensures Closed(s.dag[t := n]) && Promise(s.dag[t := n], r, C)
  {
    ClosedWith(s.dag, t, n);
    hide Promise, Legal, WellFounded;
    PromiseExtends(s.dag, s.dag[t := n], r, C);
  }

  lemma PromiseFresh(s: State, t: nat, n: Node, pid: nat, ticket: Ticket, added: seq<Row>, r: Row, C: Times)
    requires Fits(s, t, n, ticket) && t !in s.dag && Members(added, t, pid, ticket) && Legal(s.rows, C) && r in added
    ensures Closed(s.dag[t := n]) && Promise(s.dag[t := n], r, C)
  {
    FitsKeeps(s, t, n, ticket, C);
    hide Fits, Promise, Legal, Shape, Keeps, Selects, Known, Closed, Extends;
    ClosedWith(s.dag, t, n);
    PromiseNew(s.dag, s.dag[t := n], n, ticket, r, C);
  }

  lemma FitsKeeps(s: State, t: nat, n: Node, ticket: Ticket, C: Times)
    requires Fits(s, t, n, ticket) && Legal(s.rows, C)
    ensures Closed(s.dag) && Known(s.dag, t, n.deps) && Selects(s.dag, t, n, ticket.parents)
    ensures Keeps(s.dag, t, n, Ready(ticket.parents, C) + ticket.delay, C)
  {
    hide Keeps, Selects, Legal, WellFounded;
  }

  lemma PromiseNew(dag: Tasks, dag': Tasks, n: Node, ticket: Ticket, r: Row, C: Times)
    requires Closed(dag) && Closed(dag') && Extends(dag, dag') && r.dag in dag' && dag'[r.dag] == n
    requires Known(dag, r.dag, n.deps)
    requires r.deps == ticket.parents && r.delay == ticket.delay
    requires Keeps(dag, r.dag, n, Ready(ticket.parents, C) + ticket.delay, C) && Selects(dag, r.dag, n, ticket.parents)
    ensures Promise(dag', r, C)
  {
    hide Keeps, Selects;
    KeepsExtends(dag, dag', r.dag, n, Start(r, C), C);
    SelectsExtends(dag, dag', r.dag, n, r.deps);
  }

  /** Task t joins a phase, old or new: every part of the invariant survives. */
  lemma EmitGood(s: State, t: nat, n: Node, pid: nat, ticket: Ticket, rec: Phase, added: seq<Row>,
                 slots: map<nat, Slot>)
    requires Good(s) && t !in s.dag && Known(s.dag, t, n.deps) && Fits(s, t, n, ticket)
    requires pid <= |s.g| && Below(ticket.parents, pid) && Justified(s.g, pid, ticket, rec)
    requires Members(added, t, pid, ticket) && Home(n, pid)
    ensures Good(Emitted(s, t, n, pid, rec, added, slots))
  {
    EmitShape(s, t, n, pid, ticket, rec, added, slots);
    EmitSound(s, t, n, pid, ticket, rec, added, slots);
    EmitMeaning(s, t, n, pid, rec, added, slots);
    EmitPromises(s, t, n, pid, ticket, rec, added, slots);
    ClosedWith(s.dag, t, n);
    IdleKept(s, Emitted(s, t, n, pid, rec, added, slots));
    TopsKept(s, Emitted(s, t, n, pid, rec, added, slots));
  }

  lemma TopsKept(s: State, s': State)
    requires Shape(s) && Shape(s') && TopForms(s) && Extends(s.dag, s'.dag) && s'.forms == s.forms
    ensures TopForms(s')
  {
    forall t | t in s.forms ensures TopPhase(s.dag, t) == TopPhase(s'.dag, t) {
      TopExtends(s.dag, s'.dag, t);
    }
  }

  lemma IdleKept(s: State, s': State)
    requires Shape(s) && Shape(s') && IdleForms(s) && Extends(s.dag, s'.dag) && s'.forms == s.forms
    ensures IdleForms(s')
  {
    forall t, b | t in s.forms ensures Idle(s.dag, t, b) == Idle(s'.dag, t, b) {
      IdleExtends(s.dag, s'.dag, t, b);
    }
  }

  /** Joining an open phase freezes nothing that was sealed; new parents must be sealed already. */
  lemma EmitFrozen(s: State, t: nat, n: Node, pid: nat, ticket: Ticket, rec: Phase, added: seq<Row>,
                   slots: map<nat, Slot>)
    requires Shape(s) && t !in s.dag && pid <= |s.g| && Members(added, t, pid, ticket)
    requires !IsSealed(s, pid)
    requires SlotsKept(s.slots, slots)
    ensures Frozen(s, Emitted(s, t, n, pid, rec, added, slots))
  {
    var s' := Emitted(s, t, n, pid, rec, added, slots);
    forall i | |s.rows| <= i < |s'.rows| ensures s'.rows[i].pid == pid && s'.rows[i].dag == t {
      assert s'.rows[i] in added;
    }
  }

  lemma EmitParentsSealed(s: State, t: nat, n: Node, pid: nat, ticket: Ticket, rec: Phase, added: seq<Row>,
                          slots: map<nat, Slot>)
    requires Shape(s) && ParentsSealed(s) && pid <= |s.g| && Justified(s.g, pid, ticket, rec)
    requires Below(ticket.parents, |s.g|) && forall p | p in ticket.parents :: IsSealed(s, p)
    ensures ParentsSealed(Emitted(s, t, n, pid, rec, added, slots))
  {
    var s' := Emitted(s, t, n, pid, rec, added, slots);
    forall q, i | 0 <= q < |s'.g| && 0 <= i < |s'.g[q].parents|
      ensures IsSealed(s', s'.g[q].parents[i])
    {
      var p := s'.g[q].parents[i];
      if q == pid {
        assert p in rec.parents;
        if p !in ticket.parents {
          var j :| 0 <= j < |s.g[pid].parents| && s.g[pid].parents[j] == p;
        }
      } else {
        assert s'.g[q] == s.g[q];
      }
    }
  }

  // ---------------------------------------------------------- local tasks and forms

  function WithNode(s: State, t: nat, n: Node): State {
    s.(dag := s.dag[t := n])
  }

  lemma WithNodeGood(s: State, t: nat, n: Node)
    requires Good(s) && t !in s.dag && Known(s.dag, t, n.deps)
    ensures Good(WithNode(s, t, n)) && Frozen(s, WithNode(s, t, n))
    ensures ParentsSealed(s) ==> ParentsSealed(WithNode(s, t, n))
  {
    ClosedWith(s.dag, t, n);
    var s' := WithNode(s, t, n);
    forall C: Times, u: nat, timed: bool | Legal(s'.rows, C) && u in s'.forms
      ensures Eval(View(s'.forms[u], timed), C) == Done(s'.dag, u, C, timed)
    {
      DoneExtends(s.dag, s'.dag, u, C, timed);
    }
    forall C: Times, r: Row | Legal(s'.rows, C) && r in s'.rows ensures Promise(s'.dag, r, C) {
      PromiseExtends(s.dag, s'.dag, r, C);
    }
    IdleKept(s, s');
    TopsKept(s, s');
  }

  function WithForm(s: State, t: nat, f: Form): State {
    s.(forms := s.forms[t := f])
  }

  ghost predicate FormFits(s: State, t: nat, f: Form) {
    && Shape(s) && t in s.dag
    && InRange(s.g, f.terms) && TopOf(f.terms) == TopPhase(s.dag, t)
    && (forall C: Times, timed: bool | Legal(s.rows, C) :: Eval(View(f, timed), C) == Done(s.dag, t, C, timed))
    && (Idle(s.dag, t, false) ==> forall p | p in f.terms :: f.terms[p] == 0)
    && (Idle(s.dag, t, true) ==> f.root == 0)
  }

  lemma WithFormGood(s: State, t: nat, f: Form)
    requires Good(s) && t in s.dag && t !in s.forms && FormFits(s, t, f)
    ensures Good(WithForm(s, t, f)) && Frozen(s, WithForm(s, t, f))
    ensures ParentsSealed(s) ==> ParentsSealed(WithForm(s, t, f))
  {
  }

  /** A task with rows of its own is complete exactly when its phases are. */
  lemma BarrierForm(s: State, t: nat, f: Form)
    requires Shape(s) && t in s.dag && s.dag[t].kind.Barrier? && f.root == 0
    requires forall p :: p in s.dag[t].kind.pids <==> p in f.terms
    requires forall p | p in f.terms :: f.terms[p] == 0 && p < |s.g|
    ensures FormFits(s, t, f)
  {
    forall C: Times, timed: bool | Legal(s.rows, C) ensures Eval(View(f, timed), C) == Done(s.dag, t, C, timed) {
      ReadyIsEval(s.dag[t].kind.pids, f, C);
      assert View(f, false) == f;
    }
    assert f.terms.Keys == Phases(s.dag[t].kind.pids);
    if f.terms.Keys != {} {
      assert Largest(f.terms.Keys) in f.terms;
    }
  }

  // -------------------------------------------------------------------------- sealing

  function Sealed(s: State, flags: seq<bool>): State {
    s.(sealedPhases := flags)
  }

  /** Only seals were added. */
  ghost predicate Closes(s: State, s': State) {
    && s' == Sealed(s, s'.sealedPhases) && |s'.sealedPhases| == |s.sealedPhases|
    && forall p: nat | IsSealed(s, p) :: IsSealed(s', p)
  }

  lemma SealGood(s: State, s': State)
    requires Good(s) && Closes(s, s')
    ensures Good(s') && Frozen(s, s')
    ensures ParentsSealed(s) ==> ParentsSealed(s')
  {
  }
}

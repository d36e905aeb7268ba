/** Dominance in the emitted rows themselves, with their real delays: which terms of a gate matter in legal executions,
    and when a Prefill row's ticket, which looks at no lag, starts exactly at its weighted gate. */
module RowDominance {
  import opened Collections
  import opened Timing
  import opened Dominance
  import opened States
  import opened Tickets

  /** From a phase to one that some row of it depends on, and so on. */
  datatype Path = Stop(phase: nat) | Hop(source: nat, row: nat, rest: Path)

  function First(c: Path): nat {
    match c
    case Stop(p) => p
    case Hop(q, _, _) => q
  }

  function Last(c: Path): nat {
    match c
    case Stop(p) => p
    case Hop(_, _, rest) => Last(rest)
  }

  ghost predicate Follows(rows: seq<Row>, c: Path) {
    match c
    case Stop(_) => true
    case Hop(q, i, rest) => i < |rows| && rows[i].pid == q && First(rest) in rows[i].deps && Follows(rows, rest)
  }

  /** Total delay of the rows along the path. */
  function Length(rows: seq<Row>, c: Path): nat {
    match c
    case Stop(_) => 0
    case Hop(_, i, rest) => (if i < |rows| then rows[i].delay else 0) + Length(rows, rest)
  }

  /** The path starts at another term, ends at p, and takes at least as long as p's own lag lasts beyond the other's. */
  ghost predicate RowBeats(rows: seq<Row>, terms: map<nat, nat>, p: nat, c: Path) {
    c.Hop? && Follows(rows, c) && Last(c) == p && First(c) in terms && p in terms &&
    terms[First(c)] + Length(rows, c) >= terms[p]
  }

  ghost predicate RowDominated(rows: seq<Row>, terms: map<nat, nat>, p: nat) {
    exists c :: RowBeats(rows, terms, p, c)
  }

  /** The terms that no other term dominates in the rows. */
  ghost function RowKept(rows: seq<Row>, terms: map<nat, nat>): map<nat, nat> {
    map p | p in terms && !RowDominated(rows, terms, p) :: terms[p]
  }

  ghost predicate TermsBelow(terms: map<nat, nat>, n: nat) {
    forall p | p in terms :: p < n
  }

  lemma {:induction false} PathDescends(rows: seq<Row>, n: nat, c: Path)
    requires WellFounded(rows, n) && Follows(rows, c)
    ensures Last(c) <= First(c) && (c.Hop? ==> Last(c) < First(c) < n)
  {
    if c.Hop? {
      PathDescends(rows, n, c.rest);
      assert rows[c.row] in rows;
    }
  }

  lemma {:induction false} PathDelays(rows: seq<Row>, c: Path, C: Times)
    requires Follows(rows, c) && Legal(rows, C)
    ensures C(Last(c)) + Length(rows, c) <= C(First(c))
  {
    if c.Hop? {
      PathDelays(rows, c.rest, C);
      assert rows[c.row] in rows;
      assert C(First(c.rest)) <= Ready(rows[c.row].deps, C);
    }
  }

  /** In a legal execution every term is covered by an undominated one, with and without its lag. */
  lemma {:induction false} RowKeptCovers(rows: seq<Row>, n: nat, terms: map<nat, nat>, C: Times, p: nat)
    returns (k: nat)
    requires WellFounded(rows, n) && Legal(rows, C) && TermsBelow(terms, n) && p in terms
    ensures k in RowKept(rows, terms)
    ensures C(p) + terms[p] <= C(k) + terms[k] && C(p) <= C(k)
    decreases n - p
  {
    k := p;
    if RowDominated(rows, terms, p) {
      var c :| RowBeats(rows, terms, p, c);
      PathDescends(rows, n, c);
      PathDelays(rows, c, C);
      k := RowKeptCovers(rows, n, terms, C, First(c));
    }
  }

  // ---------------------------------------------------------------------- minimality

  function MostDelay(rows: seq<Row>): (m: nat)
    ensures forall i | 0 <= i < |rows| :: rows[i].delay <= m
  {
    if rows == [] then 0 else Max(MostDelay(rows[..|rows| - 1]), rows[|rows| - 1].delay)
  }

  /** How late phase q can be by delays alone, none of them above `m`. */
  function Ceiling(m: nat, q: nat): nat {
    if q == 0 then m else Ceiling(m, q - 1) + m
  }

  lemma {:induction false} CeilingGrows(m: nat, p: nat, q: nat)
    requires p < q
    ensures Ceiling(m, p) + m <= Ceiling(m, q)
  {
    if p < q - 1 {
      CeilingGrows(m, p, q - 1);
    }
  }

  /** Phase q waits for phase `late` along some path, and for nothing else. */
  ghost predicate HeldBack(rows: seq<Row>, C: Times, late: nat, q: nat) {
    exists c :: Follows(rows, c) && First(c) == q && Last(c) == late && C(q) == C(late) + Length(rows, c)
  }

  /** Only the rows of phase `late` take time on the network. */
  function LateNet(rows: seq<Row>, late: nat, until: nat): nat -> nat {
    (i: nat) => if i < |rows| && rows[i].pid == late then until else 0
  }

  /** Phase q is late by delays alone, or behind phase `late`. */
  ghost predicate Explained(rows: seq<Row>, C: Times, late: nat, q: nat) {
    C(q) <= Ceiling(MostDelay(rows), q) || HeldBack(rows, C, late, q)
  }

  lemma BehindRow(rows: seq<Row>, C: Times, late: nat, q: nat, i: nat, d: nat)
    requires i < |rows| && rows[i].pid == q && d in rows[i].deps && d < q && C(q) == C(d) + rows[i].delay
    requires Explained(rows, C, late, d)
    ensures Explained(rows, C, late, q)
  {
    CeilingGrows(MostDelay(rows), d, q);
    if HeldBack(rows, C, late, d) {
      var c :| Follows(rows, c) && First(c) == d && Last(c) == late && C(d) == C(late) + Length(rows, c);
      assert Follows(rows, Hop(q, i, c));
    }
  }

  lemma CeilingCovers(m: nat, q: nat)
    ensures m <= Ceiling(m, q)
  {
    if q > 0 {
      CeilingGrows(m, 0, q);
    }
  }

  /** A phase other than `late` ends with some row of it that takes no network time. */
  lemma LastRow(rows: seq<Row>, C: Times, late: nat, until: nat, q: nat) returns (i: nat)
    requires q != late && Attained(rows, C, LateNet(rows, late, until), q, C(q))
    ensures i < |rows| && rows[i].pid == q && C(q) == Ready(rows[i].deps, C) + rows[i].delay
  {
    i :| EndsAt(rows, C, LateNet(rows, late, until), q, i, C(q));
  }

  /** If only phase `late` takes network time, any other is late only behind it. */
  lemma {:induction false} OnlyLate(rows: seq<Row>, n: nat, C: Times, late: nat, until: nat, q: nat)
    requires WellFounded(rows, n) && q < n
    requires forall p: nat | p < n :: Attained(rows, C, LateNet(rows, late, until), p, C(p))
    ensures Explained(rows, C, late, q)
    decreases q
  {
    hide Attained, LateNet, MostDelay, Ceiling;
    if q == late {
      assert Follows(rows, Stop(q)) && Length(rows, Stop(q)) == 0 && HeldBack(rows, C, late, q);
    } else {
      var i := LastRow(rows, C, late, until, q);
      assert rows[i] in rows;
      if Ready(rows[i].deps, C) == 0 {
        CeilingCovers(MostDelay(rows), q);
      } else {
        var d :| d in rows[i].deps && C(d) == Ready(rows[i].deps, C);
        OnlyLate(rows, n, C, late, until, d);
        BehindRow(rows, C, late, q, i, d);
      }
    }
  }

  /** Any other term stays behind an undominated one that is late enough. */
  lemma StaysBehind(rows: seq<Row>, n: nat, terms: map<nat, nat>, C: Times, p: nat, q: nat)
    requires p in RowKept(rows, terms) && q in terms && q < n && Explained(rows, C, p, q)
    requires Ceiling(MostDelay(rows), n) + terms[q] < C(p)
    ensures C(q) + terms[q] < C(p) + terms[p] || q == p
  {
    CeilingGrows(MostDelay(rows), q, n);
    if q != p && HeldBack(rows, C, p, q) {
      var c :| Follows(rows, c) && First(c) == q && Last(c) == p && C(q) == C(p) + Length(rows, c);
      assert !RowBeats(rows, terms, p, c);
    }
  }

  /** Minimality: each undominated term is the strict maximum in some legal execution, and as late as one likes. */
  lemma RowKeptIsNeeded(rows: seq<Row>, n: nat, terms: map<nat, nat>, p: nat, beyond: nat) returns (C: Times)
    requires WellFounded(rows, n) && TermsBelow(terms, n) && p in RowKept(rows, terms)
    ensures Legal(rows, C) && beyond < C(p)
    ensures forall q | q in terms && q != p :: C(q) + terms[q] < C(p) + terms[p]
  {
    hide Attained, Legal, Ceiling, MostDelay, Explained, RowKept;
    var slack := 1 + Eval(Form(0, terms), (q: nat) => 0);
    assert Bounds(Form(0, terms), (q: nat) => 0, slack - 1);
    var until := beyond + Ceiling(MostDelay(rows), n) + slack;
    C := EveryPhaseCompletes(rows, n, LateNet(rows, p, until));
    RowKeptTerms(rows, terms, p);
    assert HasRow(rows, p);
    var i :| 0 <= i < |rows| && rows[i].pid == p;
    assert until <= Start(rows[i], C) + LateNet(rows, p, until)(i) <= C(p);
    forall q | q in terms && q != p ensures C(q) + terms[q] < C(p) + terms[p] {
      OnlyLate(rows, n, C, p, until, q);
      StaysBehind(rows, n, terms, C, p, q);
    }
  }

  lemma RowKeptTerms(rows: seq<Row>, terms: map<nat, nat>, p: nat)
    requires p in RowKept(rows, terms)
    ensures p in terms
  {
  }

  /** Pruning by the phase records never drops a phase that some legal execution needs. */
  lemma RecordsKeepNeeded(s: State, terms: map<nat, nat>)
    requires Shape(s) && Sound(s) && InRange(s.g, terms)
    ensures RowKept(s.rows, terms).Keys <= Kept(s.g, terms).Keys
  {
    forall p | p in RowKept(s.rows, terms) ensures p in Kept(s.g, terms) {
      var C := RowKeptIsNeeded(s.rows, |s.g|, terms, p, 0);
      var k := KeptCovers(s.g, terms, C, p);
    }
  }

  // ------------------------------------------------------------------- Prefill exactness

  /** The start of a Prefill row is the weighted gate in every legal execution. */
  ghost predicate PrefillExact(rows: seq<Row>, f: Form, parents: seq<nat>, pad: nat) {
    forall C: Times | Legal(rows, C) :: Ready(parents, C) + pad == Eval(f, C)
  }

  /** All lags that matter equal the padding of the root. */
  ghost predicate LagsArePad(rows: seq<Row>, terms: map<nat, nat>, pad: nat) {
    forall p | p in RowKept(rows, terms) :: terms[p] == pad
  }

  /** The gate of a row and what Prefill makes of it: all its phases, and the largest of their known floors. */
  ghost predicate PrefillGated(s: State, f: Form, parents: seq<nat>, floor: nat) {
    Good(s) && LargestFloor(s.g, f.terms, floor) && Lists(parents, f.terms)
  }

  /** `prefill_gate` leaves lags out. Its row starts at the weighted gate in all legal executions exactly when every
      undominated lag equals the padding: with a covered root, when no undominated predecessor carries a lag. */
  lemma PrefillExactWhen(s: State, f: Form, parents: seq<nat>, floor: nat)
    requires PrefillGated(s, f, parents, floor)
    ensures PrefillExact(s.rows, f, parents, Max(0, f.root - floor)) <==>
              LagsArePad(s.rows, f.terms, Max(0, f.root - floor))
  {
    var pad := Max(0, f.root - floor);
    if LagsArePad(s.rows, f.terms, pad) {
      forall C: Times | Legal(s.rows, C) ensures Ready(parents, C) + pad == Eval(f, C) {
        PaddedIsGate(s, f, parents, floor, C);
      }
    } else {
      var C := PaddedDiffers(s, f, parents, floor);
      NotExact(s.rows, f, parents, pad, C);
    }
  }

  lemma NotExact(rows: seq<Row>, f: Form, parents: seq<nat>, pad: nat, C: Times)
    requires Legal(rows, C) && Ready(parents, C) + pad != Eval(f, C)
    ensures !PrefillExact(rows, f, parents, pad)
  {
  }

  /** The known floor is reached by the time all phases are complete. */
  lemma FloorReached(s: State, f: Form, parents: seq<nat>, floor: nat, C: Times)
    requires PrefillGated(s, f, parents, floor) && Legal(s.rows, C)
    ensures floor <= Ready(parents, C)
  {
    var low :| low in f.terms && s.g[low].floor == floor;
    assert Consistent(s.g, C) && low in parents;
  }

  lemma PaddedIsGate(s: State, f: Form, parents: seq<nat>, floor: nat, C: Times)
    requires PrefillGated(s, f, parents, floor) && Legal(s.rows, C)
    requires LagsArePad(s.rows, f.terms, Max(0, f.root - floor))
    ensures Ready(parents, C) + Max(0, f.root - floor) == Eval(f, C)
  {
    var pad, v := Max(0, f.root - floor), Ready(parents, C);
    FloorReached(s, f, parents, floor, C);
    forall p | p in f.terms ensures C(p) + f.terms[p] <= v + pad {
      var k := RowKeptCovers(s.rows, |s.g|, f.terms, C, p);
      assert k in parents;
    }
    assert Bounds(f, C, v + pad);
    var top := LatestKept(s, f, parents, floor, C);
    assert Bounds(f, C, Eval(f, C)) && C(top) + f.terms[top] <= Eval(f, C);
  }

  /** The last phase to complete is an undominated one (or ties with one). */
  lemma LatestKept(s: State, f: Form, parents: seq<nat>, floor: nat, C: Times) returns (k: nat)
    requires PrefillGated(s, f, parents, floor) && Legal(s.rows, C)
    ensures k in RowKept(s.rows, f.terms) && C(k) == Ready(parents, C)
  {
    var p: nat :| p in f.terms;
    if Ready(parents, C) != 0 {
      p :| p in parents && C(p) == Ready(parents, C);
    }
    assert p in parents && C(p) == Ready(parents, C);
    k := RowKeptCovers(s.rows, |s.g|, f.terms, C, p);
    assert k in parents;
  }

  /** An undominated lag below the padding: some legal execution starts the row later than the gate. */
  lemma ShortLagDiffers(s: State, f: Form, parents: seq<nat>, floor: nat, p: nat) returns (C: Times)
    requires PrefillGated(s, f, parents, floor) && p in RowKept(s.rows, f.terms) && f.terms[p] < Max(0, f.root - floor)
    ensures Legal(s.rows, C) && Ready(parents, C) + Max(0, f.root - floor) > Eval(f, C)
  {
    C := RowKeptIsNeeded(s.rows, |s.g|, f.terms, p, floor);
    assert p in parents && C(p) <= Ready(parents, C);
    BelowPad(f, C, Ready(parents, C), Max(0, f.root - floor), floor, p);
  }

  lemma BelowPad(f: Form, C: Times, ready: nat, pad: nat, floor: nat, p: nat)
    requires p in f.terms && f.terms[p] < pad == f.root - floor && floor < C(p) <= ready
    requires forall q | q in f.terms && q != p :: C(q) + f.terms[q] < C(p) + f.terms[p]
    ensures Eval(f, C) < ready + pad
  {
    assert Bounds(f, C, ready + pad - 1);
  }

  /** No undominated lag below the padding, one above it: some legal execution starts the row before the gate. */
  lemma LongLagDiffers(s: State, f: Form, parents: seq<nat>, floor: nat, p: nat) returns (C: Times)
    requires PrefillGated(s, f, parents, floor) && p in RowKept(s.rows, f.terms) && f.terms[p] > Max(0, f.root - floor)
    requires forall q | q in RowKept(s.rows, f.terms) :: f.terms[q] >= Max(0, f.root - floor)
    ensures Legal(s.rows, C) && Ready(parents, C) + Max(0, f.root - floor) < Eval(f, C)
  {
    C := RowKeptIsNeeded(s.rows, |s.g|, f.terms, p, 0);
    var k := LatestKept(s, f, parents, floor, C);
    hide PrefillGated, RowKept;
    assert C(k) + f.terms[k] <= C(p) + f.terms[p];
    assert Bounds(f, C, Eval(f, C)) && C(p) + f.terms[p] <= Eval(f, C);
  }

  /** A lag other than the padding shows in some legal execution. */
  lemma PaddedDiffers(s: State, f: Form, parents: seq<nat>, floor: nat) returns (C: Times)
    requires PrefillGated(s, f, parents, floor) && !LagsArePad(s.rows, f.terms, Max(0, f.root - floor))
    ensures Legal(s.rows, C) && Ready(parents, C) + Max(0, f.root - floor) != Eval(f, C)
  {
    hide PrefillGated, RowDominated, Legal, Eval, Ready;
    var pad := Max(0, f.root - floor);
    if p: nat :| p in RowKept(s.rows, f.terms) && f.terms[p] < pad {
      C := ShortLagDiffers(s, f, parents, floor, p);
    } else {
      var p: nat :| p in RowKept(s.rows, f.terms) && f.terms[p] != pad;
      C := LongLagDiffers(s, f, parents, floor, p);
    }
  }
}

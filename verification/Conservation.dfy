/** Byte conservation over whole runs: the finished output carries the payload of the input, and nothing else. */
module Conservation {
  import opened Collections
  import opened States
  import opened TaskTables
  import opened Chunking
  import opened Compilers
  import opened Expanders

  /** The bytes alone. */
  function BytesOf(traffic: seq<(nat, nat)>): (r: seq<nat>)
    ensures |r| == |traffic|
  {
    seq(|traffic|, i requires 0 <= i < |traffic| => traffic[i].1)
  }

  lemma BytesThen(x: seq<(nat, nat)>, y: seq<(nat, nat)>)
    ensures BytesOf(x + y) == BytesOf(x) + BytesOf(y)
  {
  }

  /** This traffic carries a payload of `bytes`. */
  ghost predicate Carried(bytes: nat, traffic: seq<(nat, nat)>, divisor: positive) {
    Carries(bytes, Sum(BytesOf(traffic)), |traffic|, divisor)
  }

  lemma NothingCarried(divisor: positive)
    ensures Carried(0, [], divisor)
  {
  }

  lemma CarriedThen(a: nat, x: seq<(nat, nat)>, b: nat, y: seq<(nat, nat)>, divisor: positive)
    requires Carried(a, x, divisor) && Carried(b, y, divisor)
    ensures Carried(a + b, x + y, divisor)
  {
    hide Carries, Sum, BytesOf;
    BytesThen(x, y);
    SumAppend(BytesOf(x), BytesOf(y));
    CarriesBoth(a, Sum(BytesOf(x)), |x|, b, Sum(BytesOf(y)), |y|, divisor);
  }

  lemma LabelledCarried(t: nat, bytes: nat, divisor: positive)
    ensures Carried(bytes, Labelled(t, ScaledAll(Chunks(bytes), divisor)), divisor)
  {
    hide Carries, Sum, Chunks, ScaledAll;
    RankCarries(bytes, divisor);
    var sizes := ScaledAll(Chunks(bytes), divisor);
    assert BytesOf(Labelled(t, sizes)) == sizes;
  }

  /** The rows of one input task carry its payload; the row of a control task carries none. */
  lemma TaskCarried(x: Compiler, id: nat, t: Task)
    requires t.class_.NETWORK? || t.bytes == 0
    ensures Carried(t.bytes, Labelled(id, x.Sizes(t)), x.divisor)
  {
    if t.class_.NETWORK? {
      LabelledCarried(id, t.bytes, x.divisor);
    } else if x.HasRows(t) {
      assert BytesOf(Labelled(id, [0])) == [0];
    }
  }

  /** What the rows of a state that started empty are. */
  lemma AllWritten(s: State, s': State, traffic: seq<(nat, nat)>)
    requires Writes(s, s', traffic) && s.rows == []
    ensures Traffic(s'.rows) == traffic && BytesOf(traffic) == Payload(s'.rows)
  {
    assert s'.rows[0..] == s'.rows;
  }

  // ------------------------------------------------------------------ rows as they are given

  function InputBytes(tasks: seq<Task>): nat {
    if tasks == [] then 0 else InputBytes(tasks[..|tasks| - 1]) + tasks[|tasks| - 1].bytes
  }

  lemma {:induction false} InputCarried(x: Compiler, tasks: seq<Task>)
    requires forall i | 0 <= i < |tasks| :: Payable(tasks[i])
    ensures Carried(InputBytes(tasks), x.Expected(tasks), x.divisor)
  {
    hide Carried, Labelled, Compiler.Sizes, Compiler.HasRows;
    if tasks == [] {
      NothingCarried(x.divisor);
    } else {
      var before, t := tasks[..|tasks| - 1], tasks[|tasks| - 1];
      InputCarried(x, before);
      TaskCarried(x, t.id, t);
      CarriedThen(InputBytes(before), x.Expected(before), t.bytes, Labelled(t.id, x.Sizes(t)), x.divisor);
    }
  }

  /** A run writes the traffic of its input rows and not one row more, so all rows together carry all the bytes. */
  lemma OutputConserves(x: Compiler, m: Moment, m': Moment, tasks: seq<Task>)
    requires x.Converts(m, m', tasks) && m.s.rows == [] && m.s.dag == map[]
    ensures m'.s.dag.Keys == IdsOf(tasks) && Traffic(m'.s.rows) == x.Expected(tasks)
    ensures Carries(InputBytes(tasks), Sum(Payload(m'.s.rows)), |m'.s.rows|, x.divisor)
  {
    hide Carries, Compiler.Expected, Sum, Frozen, Payable;
    InputCarried(x, tasks);
    AllWritten(m.s, m'.s, x.Expected(tasks));
  }

  // -------------------------------------------------------------- rows expanded into ranks

  lemma {:induction false} MembersCarried(members: seq<Member>, first: nat, divisor: positive)
    ensures Carried(MemberBytes(members), MembersTraffic(members, first, divisor), divisor)
  {
    hide Carried, Labelled, Chunks, ScaledAll, MemberBytes;
    if members == [] {
      NothingCarried(divisor);
      assert MemberBytes([]) == 0 by { NoMemberBytes(); }
    } else {
      var last := |members| - 1;
      var before, m := members[..last], members[last];
      MembersCarried(before, first, divisor);
      LabelledCarried(first + last, m.bytes, divisor);
      assert members == before + [m];
      MemberBytesAppend(before, m);
      CarriedThen(MemberBytes(before), MembersTraffic(before, first, divisor),
                  m.bytes, Labelled(first + last, ScaledAll(Chunks(m.bytes), divisor)), divisor);
    }
  }

  lemma NoMemberBytes()
    ensures MemberBytes([]) == 0
  {
  }

  function LogicalBytes(rows: seq<Logical>): nat {
    if rows == [] then 0 else LogicalBytes(rows[..|rows| - 1]) + rows[|rows| - 1].task.bytes
  }

  /** The ranks' bytes are the task's; a task without ranks has no payload. */
  ghost predicate PayloadKnown(row: Logical) {
    row.task.bytes == if row.task.class_.NETWORK? then MemberBytes(row.members) else 0
  }

  lemma RowCarried(x: Expander, row: Logical, first: nat)
    requires PayloadKnown(row)
    ensures Carried(row.task.bytes, x.RowTraffic(row, first), x.compiler.divisor)
  {
    hide Carried, Labelled, Compiler.Sizes, MembersTraffic, MemberBytes;
    if row.task.class_.NETWORK? {
      MembersCarried(row.members, first, x.compiler.divisor);
    } else {
      TaskCarried(x.compiler, first, row.task);
    }
  }

  lemma {:induction false} AllCarried(x: Expander, rows: seq<Logical>, first: nat)
    requires forall i | 0 <= i < |rows| :: PayloadKnown(rows[i])
    ensures Carried(LogicalBytes(rows), x.AllTraffic(rows, first), x.compiler.divisor)
  {
    hide Carried, PayloadKnown, Expander.RowTraffic, Expander.IdsUsed;
    if rows == [] {
      NothingCarried(x.compiler.divisor);
    } else {
      var before, row := rows[..|rows| - 1], rows[|rows| - 1];
      AllCarried(x, before, first);
      RowCarried(x, row, first + x.AllIds(before));
      CarriedThen(LogicalBytes(before), x.AllTraffic(before, first),
                  row.task.bytes, x.RowTraffic(row, first + x.AllIds(before)), x.compiler.divisor);
    }
  }

  lemma CompiledPays(x: Expander, s: State, aliases: map<nat, nat>, row: Logical)
    requires x.RowCompiled(s, aliases, row) && (!row.task.class_.NETWORK? ==> row.task.bytes == 0)
    ensures PayloadKnown(row)
  {
    hide Expander.Compiled;
  }

  /** An expanded run writes the traffic of its input's ranks and not one row more: no alias has a row, and all rows
      together carry all the logical bytes. */
  lemma ExpandedConserves(x: Expander, p: Pause, p': Pause, rows: seq<Logical>, first: nat)
    requires x.Compiles(p, p', rows, first) && p.m.s.rows == [] && p.m.s.dag == map[]
    ensures p'.m.s.dag.Keys == IdRange(first, x.AllIds(rows)) && Traffic(p'.m.s.rows) == x.AllTraffic(rows, first)
    ensures Carries(LogicalBytes(rows), Sum(Payload(p'.m.s.rows)), |p'.m.s.rows|, x.compiler.divisor)
  {
    hide Carries, Sum, Frozen, PayloadKnown, Expander.RowCompiled, Expander.AllTraffic, Expander.AllIds, IdRange;
    forall i | 0 <= i < |rows| ensures PayloadKnown(rows[i]) {
      CompiledPays(x, p'.m.s, p'.aliases, rows[i]);
    }
    AllCarried(x, rows, first);
    AllWritten(p.m.s, p'.m.s, x.AllTraffic(rows, first));
  }
}

/** Phase records: scalar columns in memory, interned parent vectors in a table with two bounded caches. */
module PhaseTables {
  import opened Collections
  import opened Timing

  const CACHE_ENTRIES := 8192
  const CACHE_WEIGHT := 131072

  function VectorKeyWeight(vector: seq<nat>, gid: nat): nat { |vector| }

  function VectorWeight(gid: nat, vector: seq<nat>): nat { |vector| }

  /** The records the columns and the table stand for. */
  function Records(gateIds: seq<nat>, delays: seq<nat>, floors: seq<nat>, gates: map<nat, seq<nat>>): (g: Graph)
    ensures |g| == |gateIds|
  {
    seq(|gateIds|, i requires 0 <= i < |gateIds| =>
      if gateIds[i] in gates && i < |delays| && i < |floors| then Phase(gates[gateIds[i]], delays[i], floors[i])
      else Phase([], 0, 0))
  }

  lemma RecordsAppend(gateIds: seq<nat>, delays: seq<nat>, floors: seq<nat>, gates: map<nat, seq<nat>>,
                      gid: nat, delay: nat, floor: nat)
    requires |gateIds| == |delays| == |floors| && gid in gates
    ensures Records(gateIds + [gid], delays + [delay], floors + [floor], gates)
         == Records(gateIds, delays, floors, gates) + [Phase(gates[gid], delay, floor)]
  {
  }

  lemma RecordsSet(gateIds: seq<nat>, delays: seq<nat>, floors: seq<nat>, gates: map<nat, seq<nat>>,
                   pid: nat, gid: nat, delay: nat, floor: nat)
    requires pid < |gateIds| == |delays| == |floors| && gid in gates
    ensures Records(gateIds[pid := gid], delays[pid := delay], floors[pid := floor], gates)
         == Records(gateIds, delays, floors, gates)[pid := Phase(gates[gid], delay, floor)]
  {
  }

  class PhaseTable {
    ghost var graph: Graph                  // the plain map all of this stands for: the last record of each phase
    var gateIds: seq<nat>
    var delays: seq<nat>
    var floors: seq<nat>
    var sealedPhases: seq<bool>
    var gates: map<nat, seq<nat>>           // the parent_gates table
    var nextGate: nat
    var ids: Cache<seq<nat>, nat>           // vector to gate ID, recent only
    var vectors: Cache<nat, seq<nat>>       // gate ID to vector, recent only
    var last: Option<(seq<nat>, nat)>

    ghost predicate Columns()
      reads `gateIds, `delays, `floors, `sealedPhases, `gates, `nextGate
    {
      && |gateIds| == |delays| == |floors| == |sealedPhases|
      && (forall i | 0 <= i < |gateIds| :: gateIds[i] in gates)
      && (forall gid | gid in gates :: gid < nextGate)
    }

    /** Resident vectors have the right gate ID, and the counter is their total weight. */
    ghost predicate IdsCoherent()
      reads `ids, `gates
    {
      && ids.Valid(VectorKeyWeight)
      && forall v | v in ids.lru.entries :: ids.lru.entries[v] in gates && gates[ids.lru.entries[v]] == v
    }

    ghost predicate VectorsCoherent()
      reads `vectors, `gates
    {
      && vectors.Valid(VectorWeight)
      && forall gid | gid in vectors.lru.entries :: gid in gates && gates[gid] == vectors.lru.entries[gid]
    }

    ghost predicate LastCoherent()
      reads `last, `gates
    {
      last.Some? ==> last.value.1 in gates && gates[last.value.1] == last.value.0
    }

    ghost predicate Valid()
      reads this
    {
      && Columns() && IdsCoherent() && VectorsCoherent() && LastCoherent()
      && graph == Records(gateIds, delays, floors, gates)
    }

    constructor ()
      ensures Valid() && graph == [] && sealedPhases == []
    {
      gateIds, delays, floors, sealedPhases := [], [], [], [];
      gates, nextGate := map[], 1;
      ids, vectors := EmptyCache(), EmptyCache();
      last := None;
      graph := [];
    }

    /** Makes a vector resident, evicting the oldest ones beyond the limits. */
    method Remember(gid: nat, parents: seq<nat>)
      requires Valid() && gid in gates && gates[gid] == parents
      modifies `vectors
      ensures Valid()
    {
      if vectors.Has(gid) {
        vectors := Refresh(vectors, gid, parents, VectorWeight);
      } else {
        var grown := Insert(vectors, gid, parents, VectorWeight);
        var kept, _ := Trim(grown, VectorWeight, CACHE_ENTRIES, CACHE_WEIGHT, true);
        vectors := kept;
      }
    }

    method InsertGate(parents: seq<nat>) returns (gid: nat)
      requires Valid()
      modifies `gates, `nextGate
      ensures Valid() && gates == old(gates)[gid := parents] && gid !in old(gates)
    {
      gid := nextGate;
      nextGate := nextGate + 1;
      gates := gates[gid := parents];
    }

    method RememberId(parents: seq<nat>, gid: nat)
      requires Valid() && !ids.Has(parents) && gid in gates && gates[gid] == parents
      modifies `ids
      ensures Valid()
    {
      var grown := Insert(ids, parents, gid, VectorKeyWeight);
      var kept, _ := Trim(grown, VectorKeyWeight, CACHE_ENTRIES, CACHE_WEIGHT, true);
      ids := kept;
    }

    /** The gate ID of a parent vector, interning it if no cache knows it. An evicted vector gets a second
        ID, so equal IDs mean equal vectors but not conversely. */
    method Intern(parents: seq<nat>) returns (gid: nat)
      requires Valid()
      modifies `gates, `nextGate, `ids, `last
      ensures Valid() && gid in gates && gates[gid] == parents
      ensures old(gates).Keys <= gates.Keys && forall k | k in old(gates) :: gates[k] == old(gates)[k]
    {
      // The source compares object identity, which implies equal contents.
      var identical: bool := *;
      if identical && last.Some? && last.value.0 == parents {
        gid := last.value.1;
      } else if ids.Has(parents) {
        gid := ids.Get(parents);
        ids := Refresh(ids, parents, gid, VectorKeyWeight);
      } else {
        gid := InsertGate(parents);
        RememberId(parents, gid);
      }
      last := Some((parents, gid));
    }

    /** Appends the next phase or overwrites a registered one; any other ID is an error. */
    method Register(pid: nat, parents: seq<nat>, delay: nat, floor: nat) returns (ok: bool)
      requires Valid()
      modifies this
      ensures Valid() && ok == (pid <= |old(graph)|)
      ensures !ok ==> graph == old(graph) && sealedPhases == old(sealedPhases)
      ensures pid == |old(graph)| ==> graph == old(graph) + [Phase(parents, delay, floor)]
                                        && sealedPhases == old(sealedPhases) + [false]
      ensures pid < |old(graph)| ==> graph == old(graph)[pid := Phase(parents, delay, floor)]
                                       && sealedPhases == old(sealedPhases)
    {
      var gid := Intern(parents);
      Remember(gid, parents);
      ok := pid <= |gateIds|;
      if ok {
        SetColumns(pid, gid, delay, floor);
      }
    }

    method SetColumns(pid: nat, gid: nat, delay: nat, floor: nat)
      requires Valid() && pid <= |graph| && gid in gates
      modifies `gateIds, `delays, `floors, `sealedPhases, `graph
      ensures Valid()
      ensures pid == |old(graph)| ==> graph == old(graph) + [Phase(gates[gid], delay, floor)]
                                        && sealedPhases == old(sealedPhases) + [false]
      ensures pid < |old(graph)| ==> graph == old(graph)[pid := Phase(gates[gid], delay, floor)]
                                       && sealedPhases == old(sealedPhases)
    {
      hide Records;
      if pid == |gateIds| {
        RecordsAppend(gateIds, delays, floors, gates, gid, delay, floor);
        gateIds, delays, floors := gateIds + [gid], delays + [delay], floors + [floor];
        sealedPhases := sealedPhases + [false];
      } else {
        RecordsSet(gateIds, delays, floors, gates, pid, gid, delay, floor);
        gateIds, delays, floors := gateIds[pid := gid], delays[pid := delay], floors[pid := floor];
      }
      graph := Records(gateIds, delays, floors, gates);
    }

    function Floor(pid: nat): (floor: nat)
      requires Valid() && pid < |graph|
      reads this
      ensures floor == graph[pid].floor
    {
      floors[pid]
    }

    /** The last registered record, whatever the caches evicted meanwhile. */
    method Lookup(pid: nat) returns (phase: Phase)
      requires Valid() && pid < |graph|
      modifies `vectors
      ensures Valid() && phase == graph[pid]
    {
      var gid := gateIds[pid];
      var parents := if vectors.Has(gid) then vectors.Get(gid) else gates[gid];
      Remember(gid, parents);
      phase := Phase(parents, delays[pid], floors[pid]);
    }

    method SealAll(pids: seq<nat>)
      requires Valid() && Below(pids, |graph|)
      modifies `sealedPhases
      ensures Valid() && |sealedPhases| == |old(sealedPhases)|
      ensures forall p | 0 <= p < |sealedPhases| :: sealedPhases[p] == (old(sealedPhases)[p] || p in pids)
    {
      for i := 0 to |pids|
        invariant Columns() && |sealedPhases| == |old(sealedPhases)|
        invariant forall p | 0 <= p < |sealedPhases| :: sealedPhases[p] == (old(sealedPhases)[p] || p in pids[..i])
      {
        sealedPhases := sealedPhases[pids[i] := true];
        assert pids[..i + 1] == pids[..i] + [pids[i]];
      }
      assert pids[..|pids|] == pids;
    }
  }
}

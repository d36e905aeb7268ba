/** Shared phase groups: a bounded cache of mutable records that spills to a table when it evicts. */
module GroupTables {
  import opened Collections
  import opened PhaseTables
  import opened Grouping

  datatype Group = Group(pid: nat, parents: seq<nat>, maxDelay: nat, floor: nat)

  function KeyWeight(key: Key, group: Group): nat {
    |key.parents| + 1
  }

  function Grow(cache: Cache<Key, Group>, key: Key, group: Group): (c: Cache<Key, Group>)
    requires cache.Valid(KeyWeight)
    ensures c.Valid(KeyWeight) && c.lru.entries == cache.lru.entries[key := group]
    ensures c.lru.order != [] && c.lru.order[|c.lru.order| - 1] == key
  {
    if cache.Has(key) then Refresh(cache, key, group, KeyWeight) else Insert(cache, key, group, KeyWeight)
  }

  /** Saving the evicted records loses none of them, and the new record overrides any saved one. */
  lemma SpillKeeps(table: map<Key, Group>, before: map<Key, Group>, key: Key, group: Group,
                   resident: map<Key, Group>, evicted: map<Key, Group>)
    requires Splits(before[key := group], resident, evicted)
    ensures (table + evicted) + resident == (table + before)[key := group]
  {
    var a, b := (table + evicted) + resident, (table + before)[key := group];
    assert forall k :: k in a <==> k in b;
    assert forall k | k in a :: a[k] == b[k];
  }

  class GroupTable {
    ghost var contents: map<Key, Group>   // the plain map both stand for: a resident record is the newer one
    var cache: Cache<Key, Group>
    var table: map<Key, Group>

    ghost predicate Valid()
      reads this
    {
      cache.Valid(KeyWeight) && contents == table + cache.lru.entries
    }

    constructor ()
      ensures Valid() && contents == map[]
    {
      cache, table, contents := EmptyCache(), map[], map[];
    }

    /** Stores a record as the newest resident one; whatever is evicted is saved first. */
    method Store(key: Key, group: Group)
      requires Valid()
      modifies this
      ensures Valid() && contents == old(contents)[key := group]
      ensures cache.Has(key)
    {
      var grown := Grow(cache, key, group);
      var kept, evicted := Trim(grown, KeyWeight, CACHE_ENTRIES, CACHE_WEIGHT, true);
      SpillKeeps(table, cache.lru.entries, key, group, kept.lru.entries, evicted);
      table := table + evicted;
      cache := kept;
      contents := contents[key := group];
    }

    /** The last stored or mutated record, reloaded if it was evicted. */
    method Load(key: Key) returns (group: Option<Group>)
      requires Valid()
      modifies this
      ensures Valid() && contents == old(contents)
      ensures group == if key in contents then Some(contents[key]) else None
      ensures group.Some? ==> cache.Has(key)
    {
      if cache.Has(key) {
        group := Some(cache.Get(key));
        Touch(key);
      } else if key in table {
        group := Some(table[key]);
        Reload(key);
      } else {
        group := None;
      }
    }

    method Touch(key: Key)
      requires Valid() && cache.Has(key)
      modifies `cache
      ensures Valid() && cache.lru.entries == old(cache.lru.entries)
    {
      cache := Refresh(cache, key, cache.Get(key), KeyWeight);
    }

    method Reload(key: Key)
      requires Valid() && !cache.Has(key) && key in table
      modifies this
      ensures Valid() && contents == old(contents) && cache.Has(key)
    {
      assert contents[key := table[key]] == contents;
      Store(key, table[key]);
    }

    function Contains(key: Key): (known: bool)
      requires Valid()
      reads this
      ensures known <==> key in contents
    {
      cache.Has(key) || key in table
    }

    /** Update of a resident record in place; it will be saved when it is evicted. */
    method Mutate(key: Key, group: Group)
      requires Valid() && cache.Has(key)
      modifies this
      ensures Valid() && contents == old(contents)[key := group]
      ensures cache.Has(key)
    {
      var entries := cache.lru.entries[key := group];
      TotalAgrees(cache.lru.order, cache.lru.entries, entries, KeyWeight);
      cache := Cache(Lru(cache.lru.order, entries), cache.weight);
      contents := contents[key := group];
    }

    /** Saves every resident record; afterwards the table alone is the whole map. */
    method Flush()
      requires Valid()
      modifies `table
      ensures Valid() && contents == old(contents) && table == contents
    {
      table := table + cache.lru.entries;
    }
  }
}

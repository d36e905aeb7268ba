/** Dictionaries of lists that default to the empty list. */
module Listings {

  function At<K, V>(groups: map<K, seq<V>>, key: K): seq<V> {
    if key in groups then groups[key] else []
  }

  /** Appends to the list kept under a key. */
  function Append<K(!new), V>(groups: map<K, seq<V>>, key: K, v: V): (r: map<K, seq<V>>)
    ensures r.Keys == groups.Keys + {key}
    ensures forall k :: At(r, k) == At(groups, k) + if k == key then [v] else []
  {
    groups[key := At(groups, key) + [v]]
  }

  lemma NothingListed<K(!new), V>()
    ensures forall k: K :: At<K, V>(map[], k) == []
  {
  }
}

/** The two `HashMap` updates the builders and the request object use. */
module Maps {
  import opened Wrappers

  /**
   * `m.putAll(entries)` on a map that is created empty first when it is still null
   * (`if (m == null) m = new HashMap<>(); m.putAll(entries)`): the new entries win on a
   * clash, every other key keeps its old value and no key is invented.
   */
  function PutAll<K(!new), V>(m: Option<map<K, V>>, entries: map<K, V>): (r: map<K, V>)
    ensures forall k :: k in entries ==> k in r && r[k] == entries[k]
    ensures forall k :: k !in entries ==> (k in r <==> (m.Some? && k in m.value))
    ensures forall k :: k in r && k !in entries ==> m.Some? && k in m.value && r[k] == m.value[k]
  {
    m.GetOr(map[]) + entries
  }

  /** `m.put(key, value)` on a map created empty first when it is still null. */
  function Put<K(!new), V>(m: Option<map<K, V>>, key: K, value: V): (r: map<K, V>)
    ensures key in r && r[key] == value
    ensures forall k :: k != key ==> (k in r <==> (m.Some? && k in m.value))
    ensures forall k :: k in r && k != key ==> r[k] == m.value[k]
  {
    m.GetOr(map[])[key := value]
  }

  /** A single `put` is a `putAll` of a one-entry map. */
  lemma PutIsPutAllOfOne<K(!new), V>(m: Option<map<K, V>>, key: K, value: V)
    ensures Put(m, key, value) == PutAll(m, map[key := value])
  {
  }
}

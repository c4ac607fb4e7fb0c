/** Facts about finite maps, stated once for any key and value type. */
module Maps {

  /** Maps with the same keys and the same value at every key are equal. */
  lemma Extensional<K, V>(a: map<K, V>, b: map<K, V>)
    requires a.Keys == b.Keys
    requires forall k :: k in a ==> a[k] == b[k]
    ensures a == b
  {
  }

  /** Overwriting with `b` and then with `c` is overwriting with `b` overwritten by `c`. */
  lemma UnionAssoc<K, V>(a: map<K, V>, b: map<K, V>, c: map<K, V>)
    ensures (a + b) + c == a + (b + c)
  {
  }
}

/** Equality of maps, one key at a time. */
module Maps {

  predicate AlikeAt<K, V(==)>(a: map<K, V>, b: map<K, V>, k: K) {
    (k in a <==> k in b) && (k in a ==> a[k] == b[k])
  }

  lemma AlikeEverywhere<K(!new), V>(a: map<K, V>, b: map<K, V>)
    requires forall k :: AlikeAt(a, b, k)
    ensures a == b
  {
    forall k
      ensures k in a <==> k in b
      ensures k in a ==> a[k] == b[k]
    {
      assert AlikeAt(a, b, k);
    }
  }
}

// A map without some of its keys, as the loops over maps leave it.
module Maps {

  function Except<K, V>(m: map<K, V>, keys: set<K>): map<K, V> {
    map k | k in m && k !in keys :: m[k]
  }

  lemma ExceptAll<K, V>(m: map<K, V>)
    ensures Except(m, m.Keys) == map[]
  {
  }

  lemma ExceptNone<K, V>(m: map<K, V>)
    ensures Except(m, {}) == m
  {
  }

  lemma ExceptLess<K, V>(m: map<K, V>, keys: set<K>, k: K)
    requires k in keys && k in m
    ensures k !in Except(m, keys)
    ensures Except(m, keys - {k}) == Except(m, keys)[k := m[k]]
  {
  }
}

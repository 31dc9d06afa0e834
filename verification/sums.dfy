/** The total of the values of a finite map, with the facts about it that
    the conservation proofs need. */
module Sums {

  /** Some key of a non-empty map (fixed for a given map). */
  ghost function Pick<K>(m: map<K, nat>): (k: K)
    requires m != map[]
    ensures k in m
  {
    var k :| k in m; k
  }

  /** The sum of all values of `m`. */
  ghost function Sum<K>(m: map<K, nat>): nat
    decreases m.Keys
  {
    if m == map[] then 0
    else
      var k := Pick(m);
      m[k] + Sum(m - {k})
  }

  /** The value `m` holds at `k`, zero when `k` is absent. */
  function Get<K>(m: map<K, nat>, k: K): nat
  {
    if k in m then m[k] else 0
  }

  /** The sum can be split at any key, not only at the one `Sum` picks. */
  lemma {:induction false} SumRemove<K>(m: map<K, nat>, k: K)
    requires k in m
    ensures Sum(m) == m[k] + Sum(m - {k})
    decreases m.Keys
  {
    var j := Pick(m);
    if j != k {
      assert (m - {j}) - {k} == (m - {k}) - {j};
      SumRemove(m - {j}, k);
      SumRemove(m - {k}, j);
    }
  }

  /** Overwriting one entry changes the sum by the difference of the values. */
  lemma SumUpdate<K>(m: map<K, nat>, k: K, v: nat)
    ensures Sum(m[k := v]) + Get(m, k) == Sum(m) + v
  {
    SumRemove(m[k := v], k);
    if k in m {
      assert m[k := v] - {k} == m - {k};
      SumRemove(m, k);
    } else {
      assert m[k := v] - {k} == m;
    }
  }

  /** No single entry exceeds the total. */
  lemma EntryAtMostSum<K>(m: map<K, nat>, k: K)
    ensures Get(m, k) <= Sum(m)
  {
    if k in m {
      SumRemove(m, k);
    }
  }
}

/** Helpers shared by the models: an option type and weighted sums over finite maps. */
module Common {

  datatype Option<+T> = None | Some(value: T)

  function Max(a: int, b: int): int { if a >= b then a else b }

  function Min(a: int, b: int): int { if a <= b then a else b }

  lemma ProductSign(a: real, b: real)
    requires a >= 0.0 && b >= 0.0
    ensures a * b >= 0.0 && (a > 0.0 && b > 0.0 ==> a * b > 0.0)
  {
  }

  /** What is left of a distance after `n` steps that each close three tenths of it. */
  function Remaining(distance: real, n: nat): real {
    if n == 0 then distance else 0.7 * Remaining(distance, n - 1)
  }

  /** The total weight of a finite map's bindings. */
  ghost function Sum<K, V>(m: map<K, V>, weight: (K, V) -> nat): nat
    decreases |m|
  {
    if m == map[] then 0
    else
      var k :| k in m;
      weight(k, m[k]) + Sum(m - {k}, weight)
  }

  /** `Sum` does not depend on the order in which bindings are picked. */
  lemma {:induction false} SumRemove<K, V>(m: map<K, V>, weight: (K, V) -> nat, k: K)
    requires k in m
    ensures Sum(m, weight) == weight(k, m[k]) + Sum(m - {k}, weight)
    decreases |m|
  {
    var p :| p in m && Sum(m, weight) == weight(p, m[p]) + Sum(m - {p}, weight);
    if p != k {
      SumRemove(m - {p}, weight, k);
      SumRemove(m - {k}, weight, p);
      assert (m - {p}) - {k} == (m - {k}) - {p};
    }
  }

  /** Replacing or adding one binding changes the sum by that binding's weight only. */
  lemma SumUpdate<K, V>(m: map<K, V>, weight: (K, V) -> nat, k: K, v: V)
    ensures Sum(m[k := v], weight) == weight(k, v) + Sum(m - {k}, weight)
  {
    SumRemove(m[k := v], weight, k);
    assert m[k := v] - {k} == m - {k};
  }

  /** One binding of a sum, whether or not the key is bound. */
  lemma SumSplit<K, V>(m: map<K, V>, weight: (K, V) -> nat, k: K)
    ensures Sum(m, weight) == Sum(m - {k}, weight) + if k in m then weight(k, m[k]) else 0
  {
    if k in m { SumRemove(m, weight, k); } else { assert m - {k} == m; }
  }

  /** The sum depends on the weights of the bindings only. */
  lemma {:induction false} SumSame<K, V>(m: map<K, V>, one: (K, V) -> nat, other: (K, V) -> nat)
    requires forall k :: k in m ==> one(k, m[k]) == other(k, m[k])
    ensures Sum(m, one) == Sum(m, other)
    decreases |m|
  {
    if m != map[] {
      var k :| k in m;
      SumRemove(m, one, k);
      SumRemove(m, other, k);
      SumSame(m - {k}, one, other);
    }
  }

  /** The sum is zero exactly when every weight is. */
  lemma {:induction false} SumZero<K, V>(m: map<K, V>, weight: (K, V) -> nat)
    ensures Sum(m, weight) == 0 <==> forall k :: k in m ==> weight(k, m[k]) == 0
    decreases |m|
  {
    if m != map[] {
      var p :| p in m && Sum(m, weight) == weight(p, m[p]) + Sum(m - {p}, weight);
      SumZero(m - {p}, weight);
      assert forall k :: k in m - {p} ==> (m - {p})[k] == m[k];
      assert forall k :: k in m ==> k == p || k in m - {p};
    }
  }
}

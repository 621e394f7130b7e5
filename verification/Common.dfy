// Shared helpers: an optional value, and totals of integer-valued maps.
module Common {

  datatype Option<+T> = None | Some(value: T)

  function Min(a: int, b: int): int {
    if a <= b then a else b
  }

  function Max(a: int, b: int): int {
    if a >= b then a else b
  }

  /** The sum of all values of a map. */
  ghost function Total<K>(m: map<K, int>): int {
    if m == map[] then 0 else
      var k :| k in m;
      m[k] + Total(m - {k})
  }

  /** Any key may be split off first. */
  lemma {:induction false} TotalSplit<K>(m: map<K, int>, k: K)
    requires k in m
    ensures Total(m) == m[k] + Total(m - {k})
    decreases |m|
  {
    var j :| j in m && Total(m) == m[j] + Total(m - {j});
    if j != k {
      TotalSplit(m - {j}, k);
      TotalSplit(m - {k}, j);
      assert m - {j} - {k} == m - {k} - {j};
    }
  }

  lemma TotalUpdate<K>(m: map<K, int>, k: K, v: int)
    ensures Total(m[k := v]) == Total(m) + v - (if k in m then m[k] else 0)
  {
    TotalSplit(m[k := v], k);
    assert m[k := v] - {k} == m - {k};
    if k in m {
      TotalSplit(m, k);
    } else {
      assert m - {k} == m;
    }
  }

  /** Dropping keys and lowering values never raises the total of non-negative values. */
  lemma {:induction false} TotalMonotone<K>(small: map<K, int>, big: map<K, int>)
    requires small.Keys <= big.Keys
    requires forall k :: k in small ==> small[k] <= big[k]
    requires forall k :: k in big ==> 0 <= big[k]
    ensures Total(small) <= Total(big)
    decreases |big|
  {
    if big != map[] {
      var k :| k in big;
      TotalSplit(big, k);
      if k in small {
        TotalSplit(small, k);
      }
      TotalMonotone(small - {k}, big - {k});
      assert k !in small ==> small - {k} == small;
    }
  }

  /** Keys of value zero do not count. */
  lemma {:induction false} TotalZeroes<K>(m: map<K, int>, n: map<K, int>)
    requires m.Keys <= n.Keys
    requires forall k :: k in n ==> n[k] == (if k in m then m[k] else 0)
    ensures Total(n) == Total(m)
    decreases |n|
  {
    if n == map[] {
      assert m == map[];
    } else {
      var k :| k in n;
      TotalSplit(n, k);
      if k in m {
        TotalSplit(m, k);
      }
      TotalZeroes(m - {k}, n - {k});
      assert k !in m ==> m - {k} == m;
    }
  }
}

/** Sums over the values of a finite map. */
module Totals {

  ghost function Total<K>(m: map<K, int>): int {
    if m == map[] then 0
    else
      var k :| k in m;
      m[k] + Total(m - {k})
  }

  lemma {:induction false} TotalRemove<K>(m: map<K, int>, k: K)
    requires k in m
    ensures Total(m) == m[k] + Total(m - {k})
    decreases |m|
  {
    var j :| j in m && Total(m) == m[j] + Total(m - {j});
    if j != k {
      Shrinks(m, j);
      Shrinks(m, k);
      TotalRemove(m - {j}, k);
      TotalRemove(m - {k}, j);
      assert m - {j} - {k} == m - {k} - {j};
    }
  }

  lemma Shrinks<K, V>(m: map<K, V>, k: K)
    requires k in m
    ensures |m - {k}| == |m| - 1
  {
  }

  lemma TotalAdd<K>(m: map<K, int>, k: K, v: int)
    requires k !in m
    ensures Total(m[k := v]) == Total(m) + v
  {
    TotalRemove(m[k := v], k);
    assert m[k := v] - {k} == m;
  }

  /** Non-negative values: a part is at most the whole. */
  lemma {:induction false} TotalPart<K>(part: map<K, int>, whole: map<K, int>)
    requires forall k :: k in part ==> k in whole && whole[k] == part[k]
    requires forall k :: k in whole ==> 0 <= whole[k]
    ensures 0 <= Total(part) <= Total(whole)
    decreases |whole|
  {
    if whole != map[] {
      var k :| k in whole;
      TotalRemove(whole, k);
      Shrinks(whole, k);
      if k in part {
        TotalRemove(part, k);
        TotalPart(part - {k}, whole - {k});
      } else {
        TotalPart(part, whole - {k});
      }
    } else {
      assert part == map[];
    }
  }

  lemma {:induction false} TotalAtMost<K>(m: map<K, int>, keys: set<K>, bound: nat)
    requires m.Keys <= keys && forall k :: k in m ==> m[k] <= bound
    ensures Total(m) <= |keys| * bound
    decreases |keys|
  {
    if m != map[] {
      var k :| k in m;
      TotalRemove(m, k);
      TotalAtMost(m - {k}, keys - {k}, bound);
      assert |keys - {k}| == |keys| - 1;
      OneMore(|keys|, bound);
    }
  }

  lemma OneMore(n: int, v: int)
    ensures (n - 1) * v + v == n * v
  {
  }

  lemma {:induction false} TotalOfEqual<K>(m: map<K, int>, v: int)
    requires forall k :: k in m ==> m[k] == v
    ensures Total(m) == |m| * v
    decreases |m|
  {
    if m != map[] {
      var k :| k in m;
      TotalRemove(m, k);
      Shrinks(m, k);
      TotalOfEqual(m - {k}, v);
      OneMore(|m|, v);
    }
  }
}

/** Sums over finite maps and multisets. */
module Sums {

  ghost function Sum<K>(m: map<K, nat>): nat
    decreases |m|
  {
    if m == map[] then 0 else
      var k :| k in m;
      m[k] + Sum(m - {k})
  }

  lemma {:induction false} SumRemove<K>(m: map<K, nat>, k: K)
    requires k in m
    ensures Sum(m) == m[k] + Sum(m - {k})
    decreases |m|
  {
    var j :| j in m && Sum(m) == m[j] + Sum(m - {j});
    if j != k {
      SumRemove(m - {j}, k);
      SumRemove(m - {k}, j);
      assert m - {j} - {k} == m - {k} - {j};
    }
  }

  lemma SumSet<K>(m: map<K, nat>, k: K, v: nat)
    ensures Sum(m[k := v]) == v + Sum(m - {k})
  {
    SumRemove(m[k := v], k);
    assert m[k := v] - {k} == m - {k};
  }

  lemma SumAdd<K>(m: map<K, nat>, k: K, v: nat)
    requires k !in m
    ensures Sum(m[k := v]) == v + Sum(m)
  {
    SumSet(m, k, v);
    assert m - {k} == m;
  }

  lemma Subset<T>(a: set<T>, b: set<T>)
    requires a <= b
    ensures |a| <= |b| && (|a| == |b| ==> a == b)
  {
    assert b == a + (b - a);
    assert |b| == |a| + |b - a|;
  }

  ghost function Total<T>(m: multiset<T>, weight: T -> nat): nat
    decreases |m|
  {
    if |m| == 0 then 0 else
      var x :| x in m;
      weight(x) + Total(m - multiset{x}, weight)
  }

  lemma TotalUnfold<T>(m: multiset<T>, weight: T -> nat) returns (y: T)
    requires |m| > 0
    ensures y in m && Total(m, weight) == weight(y) + Total(m - multiset{y}, weight)
  {
    y :| y in m && Total(m, weight) == weight(y) + Total(m - multiset{y}, weight);
  }

  lemma {:induction false} TotalRemove<T>(m: multiset<T>, x: T, weight: T -> nat)
    requires x in m
    ensures Total(m, weight) == weight(x) + Total(m - multiset{x}, weight)
    decreases |m|
  {
    var y := TotalUnfold(m, weight);
    hide Total;
    if y != x {
      var a, b := m - multiset{y}, m - multiset{x};
      assert x in a && y in b && |a| < |m| && |b| < |m|;
      assert a - multiset{x} == b - multiset{y};
      TotalRemove(a, x, weight);
      TotalRemove(b, y, weight);
    }
  }

  lemma TotalAdd<T>(m: multiset<T>, x: T, weight: T -> nat)
    ensures Total(m + multiset{x}, weight) == Total(m, weight) + weight(x)
  {
    TotalRemove(m + multiset{x}, x, weight);
    assert m + multiset{x} - multiset{x} == m;
  }
}

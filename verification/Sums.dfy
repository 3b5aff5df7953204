/** Sums over sequences and over the values of a map. */
module Sums {

  function SumSeq<T>(s: seq<T>, f: T -> nat): nat
  {
    if s == [] then 0 else SumSeq(s[..|s| - 1], f) + f(s[|s| - 1])
  }

  lemma {:induction false} SumSeqMember<T>(s: seq<T>, f: T -> nat, i: nat)
    requires i < |s|
    ensures f(s[i]) <= SumSeq(s, f)
  {
    if i < |s| - 1 {
      SumSeqMember(s[..|s| - 1], f, i);
    }
  }

  ghost function SumMap<K, V>(m: map<K, V>, f: V -> nat): nat
    decreases |m|
  {
    if m == map[] then 0 else
      var k :| k in m;
      assert |m - {k}| < |m| by { SmallerMap(m, k); }
      f(m[k]) + SumMap(m - {k}, f)
  }

  lemma SmallerMap<K, V>(m: map<K, V>, k: K)
    requires k in m
    ensures |m - {k}| == |m| - 1
  {
    assert (m - {k}).Keys == m.Keys - {k};
    assert |m.Keys| == |(m - {k}).Keys| + 1;
  }

  // The sum does not depend on the key the recursion picks.
  lemma {:induction false} SumMapRemove<K, V>(m: map<K, V>, k: K, f: V -> nat)
    requires k in m
    ensures SumMap(m, f) == f(m[k]) + SumMap(m - {k}, f)
    decreases |m|
  {
    var j :| j in m && SumMap(m, f) == f(m[j]) + SumMap(m - {j}, f);
    if j != k {
      SmallerMap(m, j);
      SmallerMap(m, k);
      SumMapRemove(m - {j}, k, f);
      SumMapRemove(m - {k}, j, f);
      assert m - {j} - {k} == m - {k} - {j};
    }
  }

  lemma SumMapInsert<K, V>(m: map<K, V>, k: K, v: V, f: V -> nat)
    requires k !in m
    ensures SumMap(m[k := v], f) == SumMap(m, f) + f(v)
  {
    SumMapRemove(m[k := v], k, f);
    assert m[k := v] - {k} == m;
  }

  // If every value gains k times its weight, the total gains k times the total weight.
  lemma {:induction false} SumMapLinear<K, V>(m: map<K, V>, f: V -> nat, g: V -> nat, weight: V -> nat, k: nat)
    requires forall x :: x in m ==> g(m[x]) == f(m[x]) + k * weight(m[x])
    ensures SumMap(m, g) == SumMap(m, f) + k * SumMap(m, weight)
    decreases |m|
  {
    if m != map[] {
      var x :| x in m;
      var rest := m - {x};
      SmallerMap(m, x);
      SumMapRemove(m, x, f);
      SumMapRemove(m, x, g);
      SumMapRemove(m, x, weight);
      SumMapLinear(rest, f, g, weight, k);
      Distribute(k, weight(m[x]), SumMap(rest, weight));
    }
  }

  lemma Distribute(k: nat, a: nat, b: nat)
    ensures k * (a + b) == k * a + k * b
  {
  }
}

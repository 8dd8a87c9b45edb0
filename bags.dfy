/**
 * Sums of multisets over the entries of a map, taken in no particular
 * order: the shape of anything produced by ranging over a Go map.
 */
module Bags {

  /** The sum of `f` over the values of `m`, entries taken in an unspecified order. */
  ghost function SumOver<K, V, T>(m: map<K, V>, f: V -> multiset<T>): multiset<T>
    decreases m.Keys
  {
    if m == map[] then multiset{}
    else
      var k :| k in m;
      f(m[k]) + SumOver(m - {k}, f)
  }

  /** Any one entry may be taken first: the sum does not depend on the order. */
  lemma {:induction false} SumOverRemove<K, V, T>(m: map<K, V>, f: V -> multiset<T>, k: K)
    requires k in m
    ensures SumOver(m, f) == f(m[k]) + SumOver(m - {k}, f)
    decreases m.Keys
  {
    var j :| j in m && SumOver(m, f) == f(m[j]) + SumOver(m - {j}, f);
    if j != k {
      SumOverRemove(m - {j}, f, k);
      SumOverRemove(m - {k}, f, j);
      assert m - {j} - {k} == m - {k} - {j};
    }
  }

  /** An element of the sum comes from some entry, and every entry's elements are in the sum. */
  lemma {:induction false} SumOverMember<K, V, T>(m: map<K, V>, f: V -> multiset<T>, x: T)
    ensures x in SumOver(m, f) <==> exists k :: k in m && x in f(m[k])
    decreases m.Keys
  {
    if m != map[] {
      var k :| k in m;
      SumOverRemove(m, f, k);
      SumOverMember(m - {k}, f, x);
      if x in SumOver(m - {k}, f) {
        var j :| j in m - {k} && x in f((m - {k})[j]);
        assert j in m && x in f(m[j]);
      }
      if j :| j in m && x in f(m[j]) {
        if j != k {
          assert j in m - {k} && x in f((m - {k})[j]);
        }
      }
    }
  }

  /** If every entry contributes at most `b` elements, the sum has at most `b` per entry. */
  lemma {:induction false} SumOverBound<K, V, T>(m: map<K, V>, f: V -> multiset<T>, b: nat)
    requires forall k :: k in m ==> |f(m[k])| <= b
    ensures |SumOver(m, f)| <= b * |m.Keys|
    decreases m.Keys
  {
    if m != map[] {
      var k :| k in m;
      var rest := m - {k};
      forall j | j in rest ensures |f(rest[j])| <= b {
        assert j in m;
      }
      SumOverRemove(m, f, k);
      SumOverBound(rest, f, b);
      var n := |m.Keys|;
      assert rest.Keys == m.Keys - {k};
      assert |rest.Keys| == n - 1;
      assert |SumOver(m, f)| == |f(m[k])| + |SumOver(rest, f)|;
      MulStep(b, n);
    }
  }

  lemma MulStep(b: nat, n: nat)
    requires n >= 1
    ensures b * n == b * (n - 1) + b
  {
  }
}

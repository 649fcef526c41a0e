/** Sums over the values of a finite map: what a recomputed `SELECT sum(...)` or `sum(... for ... in values())` means. */
module Sums {

  ghost function SumBy<K, V>(m: map<K, V>, f: V -> int): int
  {
    if m.Keys == {} then 0
    else
      var k :| k in m.Keys;
      f(m[k]) + SumBy(m - {k}, f)
  }

  /** The sum does not depend on the order in which the keys are taken. */
  lemma {:induction false} Extract<K, V>(m: map<K, V>, k: K, f: V -> int)
    requires k in m
    ensures SumBy(m, f) == f(m[k]) + SumBy(m - {k}, f)
    decreases |m|
  {
    var j :| j in m.Keys && SumBy(m, f) == f(m[j]) + SumBy(m - {j}, f);
    if j != k {
      Smaller(m, j);
      Extract(m - {j}, k, f);
      Smaller(m, k);
      Extract(m - {k}, j, f);
      assert m - {j} - {k} == m - {k} - {j};
    }
  }

  lemma Smaller<K, V>(m: map<K, V>, k: K)
    requires k in m
    ensures |m - {k}| == |m| - 1
  {
    assert (m - {k}).Keys == m.Keys - {k};
    assert |m.Keys| == |m| && |(m - {k}).Keys| == |m - {k}|;
  }

  lemma Put<K, V>(m: map<K, V>, k: K, v: V, f: V -> int)
    ensures SumBy(m[k := v], f) == SumBy(m, f) - (if k in m then f(m[k]) else 0) + f(v)
  {
    Extract(m[k := v], k, f);
    assert m[k := v] - {k} == m - {k};
    if k in m {
      Extract(m, k, f);
    } else {
      assert m - {k} == m;
    }
  }

  /** Changing values without changing what they contribute keeps the sum. */
  lemma {:induction false} Congruent<K, V>(m: map<K, V>, n: map<K, V>, f: V -> int)
    requires m.Keys == n.Keys && forall k :: k in m ==> f(m[k]) == f(n[k])
    ensures SumBy(m, f) == SumBy(n, f)
    decreases |m|
  {
    if m.Keys == {} {
      assert m == map[] && n == map[];
    } else {
      var k :| k in m.Keys;
      Extract(m, k, f);
      Extract(n, k, f);
      Smaller(m, k);
      Congruent(m - {k}, n - {k}, f);
    }
  }

  /** Two maps whose values contribute alike have the same sum. */
  lemma {:induction false} Carried<K, V, W>(m: map<K, V>, n: map<K, W>, f: V -> int, g: W -> int)
    requires m.Keys == n.Keys && forall k :: k in m ==> f(m[k]) == g(n[k])
    ensures SumBy(m, f) == SumBy(n, g)
    decreases |m|
  {
    if m.Keys != {} {
      var k :| k in m.Keys;
      Extract(m, k, f);
      Extract(n, k, g);
      Smaller(m, k);
      Carried(m - {k}, n - {k}, f, g);
    }
  }

  /** With nonnegative contributions, a part of a map sums to at most the whole. */
  lemma {:induction false} Part<K, V>(m: map<K, V>, n: map<K, V>, f: V -> int)
    requires m.Keys <= n.Keys
    requires forall k :: k in m ==> f(m[k]) <= f(n[k])
    requires forall k :: k in n ==> f(n[k]) >= 0
    ensures SumBy(m, f) <= SumBy(n, f)
    decreases |n|
  {
    if n.Keys == {} {
      assert m == map[] && n == map[];
    } else {
      var k :| k in n.Keys;
      Extract(n, k, f);
      Smaller(n, k);
      if k in m {
        Extract(m, k, f);
        Part(m - {k}, n - {k}, f);
      } else {
        assert m - {k} == m;
        Part(m, n - {k}, f);
      }
    }
  }

  /** The map is divided in two. */
  ghost predicate Halves<K, V>(m: map<K, V>, a: map<K, V>, b: map<K, V>) {
    && m.Keys == a.Keys + b.Keys && (forall k :: k in a ==> k !in b && a[k] == m[k])
    && forall k :: k in b ==> b[k] == m[k]
  }

  lemma LessHalf<K, V>(m: map<K, V>, a: map<K, V>, b: map<K, V>, k: K)
    requires Halves(m, a, b) && k in a
    ensures Halves(m - {k}, a - {k}, b)
  {
  }

  /** Then it sums to the two sums together. */
  lemma {:induction false} Divide<K, V>(m: map<K, V>, a: map<K, V>, b: map<K, V>, f: V -> int)
    requires Halves(m, a, b)
    ensures SumBy(m, f) == SumBy(a, f) + SumBy(b, f)
    decreases |a|
  {
    if a.Keys == {} {
      assert m == b;
    } else {
      var k :| k in a.Keys;
      Smaller(a, k);
      LessHalf(m, a, b, k);
      Divide(m - {k}, a - {k}, b, f);
      Extract(m, k, f);
      Extract(a, k, f);
    }
  }

  lemma NonNegative<K, V>(m: map<K, V>, f: V -> int)
    requires forall k :: k in m ==> f(m[k]) >= 0
    ensures SumBy(m, f) >= 0
  {
    var none: map<K, V> := map[];
    Part(none, m, f);
  }

  lemma Member<K, V>(m: map<K, V>, k: K, f: V -> int)
    requires k in m && forall j :: j in m ==> f(m[j]) >= 0
    ensures f(m[k]) <= SumBy(m, f)
  {
    Extract(m, k, f);
    NonNegative(m - {k}, f);
  }

  /** The executable recomputation, one value at a time in any order. */
  method Total<K(==), V>(m: map<K, V>, f: V -> int) returns (r: int)
    ensures r == SumBy(m, f)
  {
    r := 0;
    var rest := m;
    while rest.Keys != {}
      invariant r + SumBy(rest, f) == SumBy(m, f)
      decreases |rest|
    {
      var k :| k in rest.Keys;
      Extract(rest, k, f);
      Smaller(rest, k);
      r := r + f(rest[k]);
      rest := rest - {k};
    }
  }
}

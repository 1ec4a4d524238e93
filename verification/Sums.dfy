/** The larger of two integers, and sums over the entries of a finite map. */
module Sums {

  function Max(a: int, b: int): int {
    if a < b then b else a
  }

  ghost function Sum<T>(m: map<string, T>, f: (string, T) -> int): int
    decreases |m|
  {
    if m == map[] then 0
    else
      var k :| k in m;
      f(k, m[k]) + Sum(m - {k}, f)
  }

  lemma {:induction false} SumWithout<T>(m: map<string, T>, f: (string, T) -> int, k: string)
    requires k in m
    ensures Sum(m, f) == f(k, m[k]) + Sum(m - {k}, f)
    decreases |m|
  {
    var j :| j in m && Sum(m, f) == f(j, m[j]) + Sum(m - {j}, f);
    if j != k {
      SumWithout(m - {j}, f, k);
      SumWithout(m - {k}, f, j);
      assert m - {j} - {k} == m - {k} - {j};
    }
  }

  lemma SumUpdated<T>(m: map<string, T>, f: (string, T) -> int, k: string, v: T)
    ensures Sum(m[k := v], f) == f(k, v) + Sum(m - {k}, f)
    ensures k !in m ==> Sum(m[k := v], f) == Sum(m, f) + f(k, v)
    ensures k in m ==> Sum(m[k := v], f) == Sum(m, f) - f(k, m[k]) + f(k, v)
  {
    SumWithout(m[k := v], f, k);
    assert m[k := v] - {k} == m - {k};
    if k in m { SumWithout(m, f, k); } else { assert m - {k} == m; }
  }

  lemma SumRemoved<T>(m: map<string, T>, f: (string, T) -> int, k: string)
    ensures Sum(m - {k}, f) == if k in m then Sum(m, f) - f(k, m[k]) else Sum(m, f)
  {
    if k in m { SumWithout(m, f, k); } else { assert m - {k} == m; }
  }

  /** Two maps over the same keys compare entry by entry. */
  lemma {:induction false} SumPointwise<T>(a: map<string, T>, b: map<string, T>, f: (string, T) -> int)
    requires a.Keys == b.Keys
    requires forall k :: k in a ==> f(k, a[k]) <= f(k, b[k])
    ensures Sum(a, f) <= Sum(b, f)
    decreases |a|
  {
    if a == map[] {
      assert b == map[];
    } else {
      var k :| k in a;
      SumWithout(a, f, k);
      SumWithout(b, f, k);
      SumPointwise(a - {k}, b - {k}, f);
    }
  }

  lemma {:induction false} SumNonNegative<T>(m: map<string, T>, f: (string, T) -> int)
    requires forall k :: k in m ==> 0 <= f(k, m[k])
    ensures 0 <= Sum(m, f)
    decreases |m|
  {
    if m != map[] {
      var k :| k in m;
      SumWithout(m, f, k);
      SumNonNegative(m - {k}, f);
    }
  }

  lemma {:induction false} SumZero<T>(m: map<string, T>, f: (string, T) -> int)
    requires forall k :: k in m ==> f(k, m[k]) == 0
    ensures Sum(m, f) == 0
    decreases |m|
  {
    if m != map[] {
      var k :| k in m;
      SumWithout(m, f, k);
      SumZero(m - {k}, f);
    }
  }
}

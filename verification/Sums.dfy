/** Sums of an integer weight over the values of a finite map. */
module Sums {

  ghost function Sum<K, V>(m: map<K, V>, f: V -> int): int
    decreases |m|
  {
    if m == map[] then 0
    else
      var k :| k in m;
      f(m[k]) + Sum(m - {k}, f)
  }

  /** The summand taken out first does not matter. */
  lemma {:induction false} Split<K, V>(m: map<K, V>, f: V -> int, k: K)
    requires k in m
    ensures Sum(m, f) == f(m[k]) + Sum(m - {k}, f)
    decreases |m|
  {
    var j :| j in m && Sum(m, f) == f(m[j]) + Sum(m - {j}, f);
    if j != k {
      Split(m - {j}, f, k);
      Split(m - {k}, f, j);
      assert m - {j} - {k} == m - {k} - {j};
    }
  }

  lemma {:induction false} Update<K, V>(m: map<K, V>, f: V -> int, k: K, v: V)
    ensures Sum(m[k := v], f) == Sum(m, f) + f(v) - (if k in m then f(m[k]) else 0)
  {
    Split(m[k := v], f, k);
    assert m[k := v] - {k} == m - {k};
    if k in m {
      Split(m, f, k);
    } else {
      assert m - {k} == m;
    }
  }

  /** Two maps over the same keys with equal weights have equal sums. */
  lemma {:induction false} Congruent<K, V, W>(m: map<K, V>, f: V -> int, n: map<K, W>, g: W -> int)
    requires m.Keys == n.Keys
    requires forall k | k in m :: f(m[k]) == g(n[k])
    ensures Sum(m, f) == Sum(n, g)
    decreases |m|
  {
    if m != map[] {
      var k :| k in m;
      Split(m, f, k);
      Split(n, g, k);
      Congruent(m - {k}, f, n - {k}, g);
    } else {
      assert n == map[];
    }
  }

  /** A pointwise bound bounds the sums, and equal sums leave no slack at any key. */
  lemma {:induction false} Bound<K, V>(m: map<K, V>, f: V -> int, g: V -> int)
    requires forall k | k in m :: f(m[k]) <= g(m[k])
    ensures Sum(m, f) <= Sum(m, g)
    ensures Sum(m, f) == Sum(m, g) ==> forall k | k in m :: f(m[k]) == g(m[k])
    decreases |m|
  {
    if m != map[] {
      var k :| k in m;
      Split(m, f, k);
      Split(m, g, k);
      Bound(m - {k}, f, g);
      assert forall j | j in m :: j == k || (j in m - {k} && (m - {k})[j] == m[j]);
    }
  }

  lemma {:induction false} Zeros<K, V>(m: map<K, V>, f: V -> int)
    requires forall k | k in m :: f(m[k]) == 0
    ensures Sum(m, f) == 0
    decreases |m|
  {
    if m != map[] {
      var k :| k in m;
      Split(m, f, k);
      Zeros(m - {k}, f);
    }
  }

  /** A sum of ones is the number of keys. */
  lemma {:induction false} Ones<K, V>(m: map<K, V>, f: V -> int)
    requires forall k | k in m :: f(m[k]) == 1
    ensures Sum(m, f) == |m|
    decreases |m|
  {
    if m != map[] {
      var k :| k in m;
      Split(m, f, k);
      Ones(m - {k}, f);
      assert |m - {k}| == |m| - 1 by {
        assert (m - {k}).Keys == m.Keys - {k};
        assert |m.Keys| == |m|;
      }
    }
  }

  /** A sum of zeros and ones is the number of keys that are marked. */
  lemma {:induction false} Marked<K, V>(m: map<K, V>, f: V -> int, marked: set<K>)
    requires marked <= m.Keys && forall k | k in m :: f(m[k]) == if k in marked then 1 else 0
    ensures Sum(m, f) == |marked|
    decreases |m|
  {
    if m != map[] {
      var k :| k in m;
      Split(m, f, k);
      Marked(m - {k}, f, marked - {k});
    }
  }

  lemma {:induction false} Cap<K, V>(m: map<K, V>, f: V -> int, c: int)
    requires forall k | k in m :: f(m[k]) <= c
    ensures Sum(m, f) <= |m| * c
    decreases |m|
  {
    if m != map[] {
      var k :| k in m;
      var n := m - {k};
      Split(m, f, k);
      Cap(n, f, c);
      assert |n| == |m| - 1 by {
        assert n.Keys == m.Keys - {k};
        assert |m.Keys| == |m|;
      }
      Distribute(|n|, c);
    }
  }

  lemma Distribute(n: int, c: int)
    ensures (n + 1) * c == n * c + c
  {
  }
}

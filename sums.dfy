/**
 * Sums over the values of finite maps.
 *
 * Go visits the entries of a map in an unspecified order.  Every loop of the
 * modelled program that runs over a map only adds things up, so its result is
 * a sum over the map that does not depend on that order.  `Sum` fixes one
 * order (an arbitrary one, chosen by `Pick`); `SumRemove` shows that peeling
 * off ANY key first gives the same total, which is what lets a loop that
 * visits the keys in whatever order reach the same value.
 */
module Sums {

  /** Value of `m` at `x`, or 0 when `x` is absent (Go's zero value on a missing key). */
  function Get<K>(m: map<K, int>, x: K): int
  {
    if x in m then m[x] else 0
  }

  /** An arbitrary but fixed element of a non-empty set. */
  ghost function Pick<K>(s: set<K>): (x: K)
    requires s != {}
    ensures x in s
  {
    var x :| x in s; x
  }

  /** Taking one element out of a set shrinks it by one. */
  lemma RemoveOne<K>(s: set<K>, x: K)
    requires x in s
    ensures |s - {x}| == |s| - 1
  {
  }

  /** The sum of all values of `m`. */
  ghost function Sum<K>(m: map<K, int>): int
    decreases |m|
  {
    if m == map[] then 0
    else
      var x := Pick(m.Keys);
      assert |m.Keys - {x}| == |m.Keys| - 1;
      m[x] + Sum(m - {x})
  }

  /** The entries of `m` whose keys lie in `keys`. */
  function Restrict<K, V>(m: map<K, V>, keys: set<K>): (r: map<K, V>)
    ensures r.Keys == m.Keys * keys
    ensures forall x | x in r :: r[x] == m[x]
  {
    map x | x in m && x in keys :: m[x]
  }

  /** Restricting to all keys changes nothing. */
  lemma RestrictAll<K, V>(m: map<K, V>, keys: set<K>)
    requires keys == m.Keys
    ensures Restrict(m, keys) == m
  {
  }

  /** Order independence: any key may be taken out first. */
  lemma {:induction false} SumRemove<K>(m: map<K, int>, y: K)
    requires y in m
    ensures Sum(m) == m[y] + Sum(m - {y})
    decreases |m|
  {
    var x := Pick(m.Keys);
    if x != y {
      assert |m.Keys - {x}| == |m.Keys| - 1;
      assert |m.Keys - {y}| == |m.Keys| - 1;
      SumRemove(m - {x}, y);
      SumRemove(m - {y}, x);
      assert (m - {x}) - {y} == (m - {y}) - {x};
    }
  }

  /** Overwriting or adding one entry changes the sum by the difference. */
  lemma SumUpdate<K>(m: map<K, int>, y: K, v: int)
    ensures Sum(m[y := v]) == Sum(m) - Get(m, y) + v
  {
    SumRemove(m[y := v], y);
    assert m[y := v] - {y} == m - {y};
    if y in m {
      SumRemove(m, y);
    } else {
      assert m - {y} == m;
    }
  }

  /** The sum is linear: summing pointwise sums gives the sum of the sums. */
  lemma {:induction false} SumAdd<K>(a: map<K, int>, b: map<K, int>, c: map<K, int>)
    requires a.Keys == b.Keys == c.Keys
    requires forall x | x in c :: c[x] == a[x] + b[x]
    ensures Sum(c) == Sum(a) + Sum(b)
    decreases |c|
  {
    if c != map[] {
      var x := Pick(c.Keys);
      SumRemove(a, x);
      SumRemove(b, x);
      SumRemove(c, x);
      assert |c.Keys - {x}| == |c.Keys| - 1;
      SumAdd(a - {x}, b - {x}, c - {x});
    }
  }

  /** A map whose values are all the same constant sums to that constant times its size. */
  lemma {:induction false} SumConst<K>(m: map<K, int>, v: int)
    requires forall x | x in m :: m[x] == v
    ensures Sum(m) == v * |m|
    decreases |m|
  {
    if m != map[] {
      var x := Pick(m.Keys);
      SumRemove(m, x);
      assert |m.Keys - {x}| == |m.Keys| - 1;
      SumConst(m - {x}, v);
    }
  }

  /** Splitting the keys by a threshold splits the sum. */
  lemma {:induction false} SumSplit(m: map<int, int>, bound: int)
    ensures Sum(m) == Sum(Restrict(m, set x | x in m && x < bound)) + Sum(Restrict(m, set x | x in m && x >= bound))
    decreases |m|
  {
    if m != map[] {
      var x := Pick(m.Keys);
      SumRemove(m, x);
      assert |m.Keys - {x}| == |m.Keys| - 1;
      var m' := m - {x};
      SumSplit(m', bound);
      var lo, hi := set y | y in m && y < bound, set y | y in m && y >= bound;
      var lo', hi' := set y | y in m' && y < bound, set y | y in m' && y >= bound;
      if x < bound {
        SumRemove(Restrict(m, lo), x);
        assert Restrict(m, lo) - {x} == Restrict(m', lo');
        assert Restrict(m, hi) == Restrict(m', hi');
      } else {
        SumRemove(Restrict(m, hi), x);
        assert Restrict(m, hi) - {x} == Restrict(m', hi');
        assert Restrict(m, lo) == Restrict(m', lo');
      }
    }
  }

  /** Key-wise sum of two maps over the union of their keys (what Go's `AddLenTags` loop builds). */
  function Merge<K>(p: map<K, int>, q: map<K, int>): (r: map<K, int>)
    ensures r.Keys == p.Keys + q.Keys
    ensures forall x | x in r :: r[x] == Get(p, x) + Get(q, x)
  {
    map x | x in p.Keys + q.Keys :: Get(p, x) + Get(q, x)
  }

  /** Looking up a merge adds the lookups of both parts. */
  lemma GetMerge<K>(p: map<K, int>, q: map<K, int>, x: K)
    ensures Get(Merge(p, q), x) == Get(p, x) + Get(q, x)
  {
  }

  /** A map with no key but `x` sums to its value at `x`. */
  lemma SumSingle<K>(m: map<K, int>, x: K)
    requires m.Keys <= {x}
    ensures Sum(m) == Get(m, x)
  {
    if x in m {
      SumRemove(m, x);
      assert m - {x} == map[];
    } else {
      assert m == map[];
    }
  }

  /** A map with two keys sums to its two values. */
  lemma SumPair<K>(m: map<K, int>, a: K, b: K)
    requires m.Keys == {a, b} && a != b
    ensures Sum(m) == m[a] + m[b]
  {
    SumRemove(m, a);
    SumSingle(m - {a}, b);
  }

  /** A map with three keys sums to its three values. */
  lemma SumTriple<K>(m: map<K, int>, a: K, b: K, c: K)
    requires m.Keys == {a, b, c} && a != b && a != c && b != c
    ensures Sum(m) == m[a] + m[b] + m[c]
  {
    SumRemove(m, a);
    assert (m - {a}).Keys == {b, c};
    SumPair(m - {a}, b, c);
  }

  /** A set of integers between `lo` and `hi` has at most `hi - lo + 1` elements. */
  lemma {:induction false} RangeSize(s: set<int>, lo: int, hi: int)
    requires forall x | x in s :: lo <= x <= hi
    ensures |s| <= if hi < lo then 0 else hi - lo + 1
    decreases hi - lo
  {
    if hi < lo {
      if s != {} {
        var x := Pick(s);
        assert false;
      }
    } else {
      RangeSize(s - {hi}, lo, hi - 1);
    }
  }

  /** Merging in one more key of `q` updates a single entry. */
  lemma MergeOneMore<K>(p: map<K, int>, q: map<K, int>, x: K)
    requires x in q
    ensures Merge(p, q) == Merge(p, q - {x})[x := Get(p, x) + q[x]]
  {
    var before, after := Merge(p, q - {x}), Merge(p, q);
    var updated := before[x := Get(p, x) + q[x]];
    assert after.Keys == updated.Keys;
    forall y | y in after ensures after[y] == updated[y] {
      if y != x {
        assert Get(q, y) == Get(q - {x}, y);
      }
    }
  }

  /** One induction step of `SumMerge`. */
  lemma SumMergeStep<K>(p: map<K, int>, q: map<K, int>, x: K)
    requires x in q
    requires Sum(Merge(p, q - {x})) == Sum(p) + Sum(q - {x})
    ensures Sum(Merge(p, q)) == Sum(p) + Sum(q)
  {
    MergeOneMore(p, q, x);
    SumRemove(q, x);
    SumUpdate(Merge(p, q - {x}), x, Get(p, x) + q[x]);
  }

  /** Merging maps adds their sums. */
  lemma {:induction false} SumMerge<K>(p: map<K, int>, q: map<K, int>)
    ensures Sum(Merge(p, q)) == Sum(p) + Sum(q)
    decreases |q|
  {
    if q == map[] {
      assert Merge(p, q) == p;
    } else {
      var x := Pick(q.Keys);
      assert |q.Keys - {x}| == |q.Keys| - 1;
      SumMerge(p, q - {x});
      SumMergeStep(p, q, x);
    }
  }
}

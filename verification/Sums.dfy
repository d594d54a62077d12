/** Weighted sums over finite maps, the arithmetic every ledger of the scheduler rests on. */
module Sums {

  /** Sum of the weights of all entries of a finite map. */
  ghost function SumBy<K(!new), V(!new)>(m: map<K, V>, w: (K, V) -> int): int {
    if m.Keys == {} then 0
    else
      var k :| k in m.Keys;
      w(k, m[k]) + SumBy(m - {k}, w)
  }

  /** Any key may be taken out first: the sum does not depend on the order of summation. */
  lemma {:induction false} SumRemove<K(!new), V(!new)>(m: map<K, V>, w: (K, V) -> int, k: K)
    requires k in m
    ensures SumBy(m, w) == w(k, m[k]) + SumBy(m - {k}, w)
    decreases |m|
  {
    var c :| c in m.Keys && SumBy(m, w) == w(c, m[c]) + SumBy(m - {c}, w);
    if c != k {
      SumRemove(m - {c}, w, k);
      SumRemove(m - {k}, w, c);
      assert m - {c} - {k} == m - {k} - {c};
    }
  }

  lemma SumInsert<K(!new), V(!new)>(m: map<K, V>, w: (K, V) -> int, k: K, v: V)
    ensures SumBy(m[k := v], w) == SumBy(m, w) + w(k, v) - (if k in m then w(k, m[k]) else 0)
  {
    var m' := m[k := v];
    SumRemove(m', w, k);
    assert m' - {k} == m - {k};
    if k in m {
      SumRemove(m, w, k);
    } else {
      assert m - {k} == m;
    }
  }

  lemma {:induction false} SumNonNegative<K(!new), V(!new)>(m: map<K, V>, w: (K, V) -> int)
    requires forall k :: k in m ==> 0 <= w(k, m[k])
    ensures 0 <= SumBy(m, w)
    decreases |m|
  {
    if m.Keys != {} {
      var k :| k in m.Keys;
      SumRemove(m, w, k);
      SumNonNegative(m - {k}, w);
    }
  }

  /** With non-negative weights, one entry weighs at most the sum. */
  lemma SumAtLeast<K(!new), V(!new)>(m: map<K, V>, w: (K, V) -> int, k: K)
    requires k in m
    requires forall k :: k in m ==> 0 <= w(k, m[k])
    ensures w(k, m[k]) <= SumBy(m, w)
  {
    SumRemove(m, w, k);
    SumNonNegative(m - {k}, w);
  }

  /** Entries that weigh nothing may be dropped. */
  lemma {:induction false} SumDropZeros<K(!new), V(!new)>(m: map<K, V>, w: (K, V) -> int, zeros: set<K>)
    requires forall k :: k in zeros && k in m ==> w(k, m[k]) == 0
    ensures SumBy(m - zeros, w) == SumBy(m, w)
    decreases zeros
  {
    if zeros != {} {
      var k :| k in zeros;
      var rest := zeros - {k};
      SumDropZeros(m, w, rest);
      assert (m - rest) - {k} == m - zeros;
      if k in m {
        SumRemove(m - rest, w, k);
      } else {
        assert m - rest == m - zeros;
      }
    } else {
      assert m - zeros == m;
    }
  }

  lemma SumZero<K(!new), V(!new)>(m: map<K, V>, w: (K, V) -> int)
    requires forall k :: k in m ==> w(k, m[k]) == 0
    ensures SumBy(m, w) == 0
  {
    SumDropZeros(m, w, m.Keys);
    assert m - m.Keys == map[];
  }

  /** Fewer entries of smaller weight have a smaller sum. */
  lemma {:induction false} SumCompare<K(!new), V(!new), W(!new)>(
      a: map<K, V>, v: (K, V) -> int, b: map<K, W>, w: (K, W) -> int)
    requires a.Keys <= b.Keys
    requires forall k :: k in a ==> v(k, a[k]) <= w(k, b[k])
    requires forall k :: k in b && k !in a ==> 0 <= w(k, b[k])
    ensures SumBy(a, v) <= SumBy(b, w)
    decreases |b|
  {
    if b.Keys != {} {
      var k :| k in b.Keys;
      SumRemove(b, w, k);
      if k in a {
        SumRemove(a, v, k);
        SumCompare(a - {k}, v, b - {k}, w);
      } else {
        SumCompare(a, v, b - {k}, w);
      }
    } else {
      assert a.Keys == {};
    }
  }

  /** Equal weights on equal keys give equal sums. */
  lemma SumCongruent<K(!new), V(!new), W(!new)>(a: map<K, V>, v: (K, V) -> int, b: map<K, W>, w: (K, W) -> int)
    requires a.Keys == b.Keys
    requires forall k :: k in a ==> v(k, a[k]) == w(k, b[k])
    ensures SumBy(a, v) == SumBy(b, w)
  {
    SumCompare(a, v, b, w);
    SumCompare(b, w, a, v);
  }

  /** Re-keying through an injective naming cannot increase a sum of non-negative weights. */
  lemma {:induction false} SumInjection<K(!new), V(!new), L(!new), W(!new)>(
      a: map<K, V>, v: (K, V) -> int, b: map<L, W>, w: (L, W) -> int, name: map<K, L>)
    requires a.Keys <= name.Keys
    requires forall k :: k in a ==> name[k] in b && v(k, a[k]) <= w(name[k], b[name[k]])
    requires forall j, k :: j in a && k in a && j != k ==> name[j] != name[k]
    requires forall l :: l in b ==> 0 <= w(l, b[l])
    ensures SumBy(a, v) <= SumBy(b, w)
    decreases |a|
  {
    if a.Keys == {} {
      SumNonNegative(b, w);
    } else {
      var k :| k in a.Keys;
      SumRemove(a, v, k);
      SumRemove(b, w, name[k]);
      SumInjection(a - {k}, v, b - {name[k]}, w, name);
    }
  }

  /** A sum of pointwise sums. */
  lemma {:induction false} SumPlus<K(!new), V(!new)>(m: map<K, V>, w: (K, V) -> int, a: (K, V) -> int, b: (K, V) -> int)
    requires forall k :: k in m ==> w(k, m[k]) == a(k, m[k]) + b(k, m[k])
    ensures SumBy(m, w) == SumBy(m, a) + SumBy(m, b)
    decreases |m|
  {
    if m.Keys != {} {
      var k :| k in m.Keys;
      SumRemove(m, w, k);
      SumRemove(m, a, k);
      SumRemove(m, b, k);
      SumPlus(m - {k}, w, a, b);
    }
  }

  /** At most `c` for each entry that counts one. */
  lemma {:induction false} SumAtMostCount<K(!new), V(!new)>(m: map<K, V>, w: (K, V) -> int, one: (K, V) -> int, c: int)
    requires forall k :: k in m ==> one(k, m[k]) == 0 || one(k, m[k]) == 1
    requires forall k :: k in m ==> w(k, m[k]) <= if one(k, m[k]) == 1 then c else 0
    ensures SumBy(m, w) <= c * SumBy(m, one)
    decreases |m|
  {
    if m.Keys != {} {
      var k :| k in m.Keys;
      SumRemove(m, w, k);
      SumRemove(m, one, k);
      hide SumBy;
      SumAtMostCount(m - {k}, w, one, c);
      TakeOne(c, one(k, m[k]), SumBy(m - {k}, one));
    }
  }

  lemma TakeOne(c: int, x: int, rest: int)
    requires x == 0 || x == 1
    ensures c * (x + rest) == (if x == 1 then c else 0) + c * rest
  {
  }

  /** A sum covered entry by entry by three others, over maps that may lack the key. */
  lemma {:induction false} SumCovered<K(!new), T(!new), V(!new), W(!new)>(
      t: map<K, T>, wt: (K, T) -> int, a: map<K, V>, wa: (K, V) -> int, b: map<K, W>, wb: (K, W) -> int, c: map<K, W>)
    requires forall k :: k in a ==> 0 <= wa(k, a[k])
    requires forall k :: k in b ==> 0 <= wb(k, b[k])
    requires forall k :: k in c ==> 0 <= wb(k, c[k])
    requires forall k :: k in t ==>
      wt(k, t[k]) <= (if k in a then wa(k, a[k]) else 0) + (if k in b then wb(k, b[k]) else 0)
                     + (if k in c then wb(k, c[k]) else 0)
    ensures SumBy(t, wt) <= SumBy(a, wa) + SumBy(b, wb) + SumBy(c, wb)
    decreases |t|
  {
    if t.Keys == {} {
      SumNonNegative(a, wa);
      SumNonNegative(b, wb);
      SumNonNegative(c, wb);
    } else {
      var k :| k in t.Keys;
      SumRemove(t, wt, k);
      SumLess(a, wa, k);
      SumLess(b, wb, k);
      SumLess(c, wb, k);
      SumCovered(t - {k}, wt, a - {k}, wa, b - {k}, wb, c - {k});
    }
  }

  lemma SumLess<K(!new), V(!new)>(m: map<K, V>, w: (K, V) -> int, k: K)
    ensures SumBy(m, w) == SumBy(m - {k}, w) + if k in m then w(k, m[k]) else 0
  {
    if k in m { SumRemove(m, w, k); } else { assert m - {k} == m; }
  }
}

/**
 * Column sums and row filters over tables, the two operations every
 * aggregate of the ledger is built from (a pandas `Series.sum()` over a
 * boolean-masked frame).  They are generic in the row type: a column is a
 * function from a row to its value, and a mask keeps the rows whose key
 * falls in a set of accepted keys (`== v` is the set `{v}`, `isin(l)` the
 * set of the elements of `l`).
 */
module Sums {

  /** Sum of column `f` over the rows `xs`; the sum of no rows is 0. */
  function Sum<T>(xs: seq<T>, f: T -> real): real
  {
    if xs == [] then 0.0 else f(xs[0]) + Sum(xs[1..], f)
  }

  /**
   * `r` is `xs` with some rows deleted: its rows occur in `xs` in the same
   * order.
   */
  ghost predicate Subsequence<T>(r: seq<T>, xs: seq<T>)
    decreases |xs|
  {
    r == [] ||
    (xs != [] && ((r[0] == xs[0] && Subsequence(r[1..], xs[1..])) || Subsequence(r, xs[1..])))
  }

  /** Deleting rows twice is deleting rows. */
  lemma {:induction false} SubsequenceTrans<T>(a: seq<T>, b: seq<T>, c: seq<T>)
    requires Subsequence(a, b) && Subsequence(b, c)
    ensures Subsequence(a, c)
    decreases |c|
  {
    if a != [] {
      if Subsequence(b, c[1..]) {
        SubsequenceTrans(a, b, c[1..]);
      } else if Subsequence(a, b[1..]) {
        SubsequenceTrans(a, b[1..], c[1..]);
      } else {
        SubsequenceTrans(a[1..], b[1..], c[1..]);
      }
    }
  }

  /** The rows of `xs` whose `key` is in `keep` (see KeepCount and KeepOrder). */
  function Keep<T(!new), K(==)>(xs: seq<T>, key: T -> K, keep: set<K>): (r: seq<T>)
    ensures |r| <= |xs|
    ensures forall x :: x in r <==> x in xs && key(x) in keep
  {
    if xs == [] then []
    else (if key(xs[0]) in keep then [xs[0]] else []) + Keep(xs[1..], key, keep)
  }

  /** Keep holds every accepted row exactly as many times as `xs` does, and no other row. */
  lemma {:induction false} KeepCount<T(!new), K>(xs: seq<T>, key: T -> K, keep: set<K>)
    ensures forall x :: multiset(Keep(xs, key, keep))[x] == if key(x) in keep then multiset(xs)[x] else 0
  {
    if xs != [] {
      KeepCount(xs[1..], key, keep);
      assert xs == [xs[0]] + xs[1..];
      assert multiset(xs) == multiset{xs[0]} + multiset(xs[1..]);
      var mid := if key(xs[0]) in keep then [xs[0]] else [];
      assert Keep(xs, key, keep) == mid + Keep(xs[1..], key, keep);
      assert multiset(Keep(xs, key, keep)) == multiset(mid) + multiset(Keep(xs[1..], key, keep));
    }
  }

  /** Keep deletes rows and never reorders them. */
  lemma {:induction false} KeepOrder<T(!new), K>(xs: seq<T>, key: T -> K, keep: set<K>)
    ensures Subsequence(Keep(xs, key, keep), xs)
  {
    if xs != [] {
      KeepOrder(xs[1..], key, keep);
      var rest := Keep(xs[1..], key, keep);
      if key(xs[0]) in keep {
        assert Keep(xs, key, keep) == [xs[0]] + rest;
        assert ([xs[0]] + rest)[1..] == rest;
      } else {
        assert Keep(xs, key, keep) == rest;
      }
    }
  }

  /** Summing a column over the kept rows is summing, over all rows, the column zeroed outside the mask. */
  lemma {:induction false} SumKeep<T(!new), K>(xs: seq<T>, key: T -> K, keep: set<K>, f: T -> real, masked: T -> real)
    requires forall x :: masked(x) == if key(x) in keep then f(x) else 0.0
    ensures Sum(Keep(xs, key, keep), f) == Sum(xs, masked)
  {
    if xs != [] {
      SumKeep(xs[1..], key, keep, f, masked);
      var mid := if key(xs[0]) in keep then [xs[0]] else [];
      assert Keep(xs, key, keep) == mid + Keep(xs[1..], key, keep);
      SumAppend(mid, Keep(xs[1..], key, keep), f);
      if key(xs[0]) in keep { assert mid[1..] == []; }
    }
  }

  /** Two columns that agree on every row of a table have the same sum over it. */
  lemma {:induction false} SumAgree<T>(xs: seq<T>, f: T -> real, g: T -> real)
    requires forall i :: 0 <= i < |xs| ==> f(xs[i]) == g(xs[i])
    ensures Sum(xs, f) == Sum(xs, g)
  {
    if xs != [] {
      SumAgree(xs[1..], f, g);
    }
  }

  /** Every table is a subsequence of itself. */
  lemma {:induction false} SubsequenceRefl<T>(xs: seq<T>)
    ensures Subsequence(xs, xs)
  {
    if xs != [] {
      SubsequenceRefl(xs[1..]);
    }
  }

  /** A column sum is linear: the sum of a difference of columns is the difference of their sums. */
  lemma {:induction false} SumDifference<T>(xs: seq<T>, f: T -> real, g: T -> real, h: T -> real)
    requires forall x :: h(x) == f(x) - g(x)
    ensures Sum(xs, h) == Sum(xs, f) - Sum(xs, g)
  {
    if xs != [] {
      SumDifference(xs[1..], f, g, h);
    }
  }

  /** A sum over two concatenated tables is the sum of their sums. */
  lemma {:induction false} SumAppend<T>(a: seq<T>, b: seq<T>, f: T -> real)
    ensures Sum(a + b, f) == Sum(a, f) + Sum(b, f)
  {
    if a == [] {
      assert a + b == b;
    } else {
      assert (a + b)[1..] == a[1..] + b;
      SumAppend(a[1..], b, f);
    }
  }

  /** Filtering distributes over concatenation. */
  lemma {:induction false} KeepAppend<T(!new), K>(a: seq<T>, b: seq<T>, key: T -> K, keep: set<K>)
    ensures Keep(a + b, key, keep) == Keep(a, key, keep) + Keep(b, key, keep)
  {
    if a == [] {
      assert a + b == b;
    } else {
      assert (a + b)[1..] == a[1..] + b;
      KeepAppend(a[1..], b, key, keep);
    }
  }

  /** Keeping rows out of `a + [x] + b` keeps `x` exactly when its key is accepted. */
  lemma {:induction false} KeepSplit<T(!new), K>(a: seq<T>, x: T, b: seq<T>, key: T -> K, keep: set<K>)
    ensures Keep(a + [x] + b, key, keep)
         == Keep(a, key, keep) + (if key(x) in keep then [x] else []) + Keep(b, key, keep)
  {
    KeepAppend(a + [x], b, key, keep);
    KeepAppend(a, [x], key, keep);
    assert [x][1..] == [];
  }

  /**
   * The masked sum over `a + [x] + b` is the masked sums over `a` and `b`
   * plus `x`'s own value when the mask keeps it.
   */
  lemma SumKeepSplit<T(!new), K>(a: seq<T>, x: T, b: seq<T>, key: T -> K, keep: set<K>, f: T -> real)
    ensures Sum(Keep(a + [x] + b, key, keep), f)
         == Sum(Keep(a, key, keep), f) + (if key(x) in keep then f(x) else 0.0) + Sum(Keep(b, key, keep), f)
  {
    var mid := if key(x) in keep then [x] else [];
    KeepSplit(a, x, b, key, keep);
    SumAppend(Keep(a, key, keep) + mid, Keep(b, key, keep), f);
    SumAppend(Keep(a, key, keep), mid, f);
    assert Sum(mid, f) == if key(x) in keep then f(x) else 0.0 by {
      if key(x) in keep { assert mid[1..] == []; }
    }
  }

  /** Two masks commute: the order in which they are applied does not matter. */
  lemma {:induction false} KeepCommute<T(!new), K, L>(xs: seq<T>, k1: T -> K, s1: set<K>, k2: T -> L, s2: set<L>)
    ensures Keep(Keep(xs, k1, s1), k2, s2) == Keep(Keep(xs, k2, s2), k1, s1)
  {
    if xs != [] {
      var x := xs[0];
      assert xs == [] + [x] + xs[1..];
      KeepSplit([], x, xs[1..], k1, s1);
      KeepSplit([], x, xs[1..], k2, s2);
      KeepAppend(if k1(x) in s1 then [x] else [], Keep(xs[1..], k1, s1), k2, s2);
      KeepAppend(if k2(x) in s2 then [x] else [], Keep(xs[1..], k2, s2), k1, s1);
      assert [x][1..] == [];
      KeepCommute(xs[1..], k1, s1, k2, s2);
    }
  }

  /** Removing row `k` from a table takes its value out of the sum. */
  lemma SumRemove<T>(t: seq<T>, k: nat, f: T -> real)
    requires k < |t|
    ensures Sum(t, f) == f(t[k]) + Sum(t[..k] + t[k + 1..], f)
  {
    assert t == t[..k] + ([t[k]] + t[k + 1..]);
    SumAppend(t[..k], [t[k]] + t[k + 1..], f);
    assert ([t[k]] + t[k + 1..])[1..] == t[k + 1..];
    SumAppend(t[..k], t[k + 1..], f);
  }

  /** Removing row `k` from a table takes one copy of it out of the table's multiset. */
  lemma MultisetRemove<T>(t: seq<T>, k: nat)
    requires k < |t|
    ensures multiset(t[..k] + t[k + 1..]) == multiset(t) - multiset{t[k]}
  {
    assert t == t[..k] + [t[k]] + t[k + 1..];
    assert multiset(t) == multiset(t[..k]) + multiset{t[k]} + multiset(t[k + 1..]);
  }

  /** A column sum does not depend on the order of the rows. */
  lemma {:induction false} SumPermutation<T>(s: seq<T>, t: seq<T>, f: T -> real)
    requires multiset(s) == multiset(t)
    ensures Sum(s, f) == Sum(t, f)
    decreases |s|
  {
    if s == [] {
      assert |t| == |multiset(t)| == 0;
    } else {
      var x := s[0];
      assert x in multiset(t);
      var k :| 0 <= k < |t| && t[k] == x;
      MultisetRemove(t, k);
      assert s == [x] + s[1..];
      assert multiset(s[1..]) == multiset(s) - multiset{x};
      SumPermutation(s[1..], t[..k] + t[k + 1..], f);
      SumRemove(t, k, f);
    }
  }

  /** Sum of column `f` over each key's rows, added up over the list `keys`. */
  function SumByKey<T(!new), K(==)>(keys: seq<K>, xs: seq<T>, key: T -> K, f: T -> real): real
  {
    if keys == [] then 0.0 else Sum(Keep(xs, key, {keys[0]}), f) + SumByKey(keys[1..], xs, key, f)
  }

  /** Each row is counted under its own key, once, and under no other key. */
  lemma {:induction false} SumByKeyCons<T(!new), K>(keys: seq<K>, x: T, rest: seq<T>, key: T -> K, f: T -> real)
    requires forall i, j :: 0 <= i < j < |keys| ==> keys[i] != keys[j]
    ensures SumByKey(keys, [x] + rest, key, f)
         == SumByKey(keys, rest, key, f) + (if key(x) in keys then f(x) else 0.0)
  {
    if keys != [] {
      var xs := [x] + rest;
      assert xs[0] == x && xs[1..] == rest;
      var mid: seq<T> := if key(x) in {keys[0]} then [x] else [];
      assert Keep(xs, key, {keys[0]}) == mid + Keep(rest, key, {keys[0]});
      SumAppend(mid, Keep(rest, key, {keys[0]}), f);
      assert Sum(mid, f) == if key(x) == keys[0] then f(x) else 0.0 by {
        if key(x) == keys[0] { assert mid[1..] == []; }
      }
      assert key(x) == keys[0] ==> key(x) !in keys[1..];
      assert key(x) in keys <==> key(x) == keys[0] || key(x) in keys[1..];
      SumByKeyCons(keys[1..], x, rest, key, f);
    }
  }

  /**
   * Splitting a table by a key that takes its values in a list of distinct
   * keys, and adding up the per-key sums, gives back the sum of the table.
   */
  lemma {:induction false} Partition<T(!new), K>(keys: seq<K>, xs: seq<T>, key: T -> K, f: T -> real)
    requires forall i, j :: 0 <= i < j < |keys| ==> keys[i] != keys[j]
    requires forall x :: x in xs ==> key(x) in keys
    ensures SumByKey(keys, xs, key, f) == Sum(xs, f)
  {
    if xs == [] {
      SumByKeyEmpty(keys, xs, key, f);
    } else {
      assert xs == [xs[0]] + xs[1..];
      SumByKeyCons(keys, xs[0], xs[1..], key, f);
      Partition(keys, xs[1..], key, f);
    }
  }

  lemma {:induction false} SumByKeyEmpty<T(!new), K>(keys: seq<K>, xs: seq<T>, key: T -> K, f: T -> real)
    requires xs == []
    ensures SumByKey(keys, xs, key, f) == 0.0
  {
    if keys != [] {
      SumByKeyEmpty(keys[1..], xs, key, f);
    }
  }
}

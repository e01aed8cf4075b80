/**
 * Sequence utilities that mirror the JavaScript array methods the analyzers
 * use: `filter`, `slice(0, n)`, `reduce` for sums, and the stable
 * `Array.prototype.sort`.
 */
module Seqs {

  /** `s.filter(p)`. */
  function Filter<T>(s: seq<T>, p: T -> bool): (r: seq<T>)
    ensures |r| <= |s|
    ensures forall x :: x in r ==> x in s && p(x)
    decreases |s|
  {
    if s == [] then [] else (if p(s[0]) then [s[0]] else []) + Filter(s[1..], p)
  }

  lemma {:induction false} FilterConcat<T>(a: seq<T>, b: seq<T>, p: T -> bool)
    ensures Filter(a + b, p) == Filter(a, p) + Filter(b, p)
    decreases |a|
  {
    if a == [] {
      assert a + b == b;
    } else {
      assert (a + b)[1..] == a[1..] + b;
      FilterConcat(a[1..], b, p);
    }
  }

  /** Filtering a sequence extended by one element. */
  lemma FilterSnoc<T>(a: seq<T>, x: T, p: T -> bool)
    ensures Filter(a + [x], p) == Filter(a, p) + (if p(x) then [x] else [])
  {
    FilterConcat(a, [x], p);
    assert Filter([x], p) == (if p(x) then [x] else []) + Filter([x][1..], p);
  }

  /** A filter is empty exactly when no element passes. */
  lemma {:induction false} FilterEmptyIff<T>(s: seq<T>, p: T -> bool)
    ensures Filter(s, p) == [] <==> forall i :: 0 <= i < |s| ==> !p(s[i])
    decreases |s|
  {
    if s != [] {
      FilterEmptyIff(s[1..], p);
      if !p(s[0]) {
        forall i | 0 < i < |s| ensures s[i] == s[1..][i - 1] { }
      }
    }
  }

  /** Every element passes exactly one of a predicate and its negation. */
  lemma {:induction false} FilterPartition<T>(s: seq<T>, p: T -> bool, q: T -> bool)
    requires forall x :: q(x) == !p(x)
    ensures |Filter(s, p)| + |Filter(s, q)| == |s|
    decreases |s|
  {
    if s != [] {
      FilterPartition(s[1..], p, q);
    }
  }

  /** `s.map(f)`. */
  function Map<A, B>(s: seq<A>, f: A -> B): (r: seq<B>)
    ensures |r| == |s|
    ensures forall i :: 0 <= i < |s| ==> r[i] == f(s[i])
  {
    seq(|s|, i requires 0 <= i < |s| => f(s[i]))
  }

  /** Extending a prefix by one element. */
  lemma MapSnoc<A, B>(a: seq<A>, x: A, f: A -> B)
    ensures Map(a + [x], f) == Map(a, f) + [f(x)]
  {
  }

  lemma PrefixSnoc<T>(s: seq<T>, i: nat)
    requires i < |s|
    ensures s[..i + 1] == s[..i] + [s[i]]
  {
  }

  /** `s.slice(0, n)`. */
  function Take<T>(s: seq<T>, n: nat): (r: seq<T>)
    ensures |r| <= n && |r| <= |s|
    ensures |r| == if |s| <= n then |s| else n
    ensures r == s[..|r|]
  {
    if |s| <= n then s else s[..n]
  }

  /** `s.reduce((sum, x) => sum + f(x), 0)` over integers. */
  function SumOf<T>(s: seq<T>, f: T -> int): int
    decreases |s|
  {
    if s == [] then 0 else f(s[0]) + SumOf(s[1..], f)
  }

  lemma {:induction false} SumOfSnoc<T>(s: seq<T>, x: T, f: T -> int)
    ensures SumOf(s + [x], f) == SumOf(s, f) + f(x)
    decreases |s|
  {
    if s == [] {
      assert [x][1..] == [];
    } else {
      assert (s + [x])[1..] == s[1..] + [x];
      SumOfSnoc(s[1..], x, f);
    }
  }

  /** Replacing one element changes the sum by the difference. */
  lemma {:induction false} SumOfUpdate<T>(s: seq<T>, i: nat, x: T, f: T -> int)
    requires i < |s|
    ensures SumOf(s[i := x], f) == SumOf(s, f) - f(s[i]) + f(x)
    decreases |s|
  {
    if i > 0 {
      assert s[i := x][1..] == s[1..][i - 1 := x];
      SumOfUpdate(s[1..], i - 1, x, f);
    }
  }

  /** The same reduction over reals. */
  function RealSumOf<T>(s: seq<T>, f: T -> real): real
    decreases |s|
  {
    if s == [] then 0.0 else f(s[0]) + RealSumOf(s[1..], f)
  }

  // ---------------------------------------------------------------------------
  // Stable sorting. JavaScript's Array.prototype.sort is stable, so a sort by a
  // numeric key is the unique permutation that is ordered by the key and keeps
  // the original order among elements with equal keys. The model computes it
  // by insertion sort.
  // ---------------------------------------------------------------------------

  ghost predicate SortedBy<T>(s: seq<T>, key: T -> real) {
    forall i, j :: 0 <= i < j < |s| ==> key(s[i]) <= key(s[j])
  }

  /** Inserts `x` before the first element whose key is not smaller. */
  function InsertBy<T>(x: T, r: seq<T>, key: T -> real): (out: seq<T>)
    ensures |out| == |r| + 1
    decreases |r|
  {
    if r == [] || key(x) <= key(r[0]) then [x] + r else [r[0]] + InsertBy(x, r[1..], key)
  }

  /** `[...s].sort((a, b) => key(a) - key(b))`. */
  function SortBy<T>(s: seq<T>, key: T -> real): (r: seq<T>)
    ensures |r| == |s|
    decreases |s|
  {
    if s == [] then [] else InsertBy(s[0], SortBy(s[1..], key), key)
  }

  /** The elements whose key equals `k`. */
  function KeyIs<T>(key: T -> real, k: real): T -> bool {
    x => key(x) == k
  }

  lemma {:induction false} InsertByPermutes<T>(x: T, r: seq<T>, key: T -> real)
    ensures multiset(InsertBy(x, r, key)) == multiset([x] + r)
    decreases |r|
  {
    if r != [] && key(x) > key(r[0]) {
      InsertByPermutes(x, r[1..], key);
      assert r == [r[0]] + r[1..];
    }
  }

  lemma {:induction false} InsertBySorted<T>(x: T, r: seq<T>, key: T -> real)
    requires SortedBy(r, key)
    ensures SortedBy(InsertBy(x, r, key), key)
    decreases |r|
  {
    if r != [] && key(x) > key(r[0]) {
      var tail := InsertBy(x, r[1..], key);
      InsertBySorted(x, r[1..], key);
      InsertByPermutes(x, r[1..], key);
      forall j | 0 <= j < |tail| ensures key(r[0]) <= key(tail[j]) {
        assert tail[j] in multiset([x] + r[1..]);
        if tail[j] != x {
          assert tail[j] in r[1..];
          var m :| 0 <= m < |r[1..]| && r[1..][m] == tail[j];
          assert r[1..][m] == r[m + 1];
        }
      }
    }
  }

  lemma {:induction false} InsertByStable<T>(x: T, r: seq<T>, key: T -> real, k: real)
    ensures Filter(InsertBy(x, r, key), KeyIs(key, k)) == Filter([x] + r, KeyIs(key, k))
    decreases |r|
  {
    var p := KeyIs(key, k);
    if r != [] && key(x) > key(r[0]) {
      var tail := InsertBy(x, r[1..], key);
      InsertByStable(x, r[1..], key, k);
      assert p(x) == (key(x) == k) && p(r[0]) == (key(r[0]) == k);
      assert InsertBy(x, r, key) == [r[0]] + tail;
      assert r == [r[0]] + r[1..];
      var rest := Filter(r[1..], p);
      var px := if p(x) then [x] else [];
      var p0 := if p(r[0]) then [r[0]] else [];
      FilterCons(r[0], tail, p);
      FilterCons(x, r[1..], p);
      FilterCons(x, r, p);
      FilterCons(r[0], r[1..], p);
      assert Filter(InsertBy(x, r, key), p) == p0 + (px + rest);
      assert Filter([x] + r, p) == px + (p0 + rest);
      assert px == [] || p0 == [];
      SwapEmpty(p0, px, rest);
    }
  }

  /** Two sequences of which one is empty can be swapped in front of a third. */
  lemma SwapEmpty<T>(a: seq<T>, b: seq<T>, rest: seq<T>)
    requires a == [] || b == []
    ensures a + (b + rest) == b + (a + rest)
  {
    if a == [] {
      assert a + (b + rest) == b + rest;
    } else {
      assert b + (a + rest) == a + rest;
    }
  }

  lemma FilterCons<T>(x: T, s: seq<T>, p: T -> bool)
    ensures Filter([x] + s, p) == (if p(x) then [x] else []) + Filter(s, p)
  {
    assert ([x] + s)[1..] == s;
  }

  /** The result of SortBy is ordered by the key, a permutation of the input, and stable. */
  lemma {:induction false} SortByProperties<T>(s: seq<T>, key: T -> real)
    ensures SortedBy(SortBy(s, key), key)
    ensures multiset(SortBy(s, key)) == multiset(s)
    ensures forall k :: Filter(SortBy(s, key), KeyIs(key, k)) == Filter(s, KeyIs(key, k))
    decreases |s|
  {
    if s != [] {
      SortByProperties(s[1..], key);
      InsertBySorted(s[0], SortBy(s[1..], key), key);
      InsertByPermutes(s[0], SortBy(s[1..], key), key);
      assert s == [s[0]] + s[1..];
      forall k ensures Filter(SortBy(s, key), KeyIs(key, k)) == Filter(s, KeyIs(key, k)) {
        InsertByStable(s[0], SortBy(s[1..], key), key, k);
        FilterConcat([s[0]], SortBy(s[1..], key), KeyIs(key, k));
        FilterConcat([s[0]], s[1..], KeyIs(key, k));
      }
    }
  }

  lemma MapConcat<A, B>(a: seq<A>, b: seq<A>, f: A -> B)
    ensures Map(a + b, f) == Map(a, f) + Map(b, f)
  {
  }

  /** Inserting and then mapping is mapping and then inserting, when the keys agree through `f`. */
  lemma {:induction false} InsertByMap<A, B>(x: A, r: seq<A>, keyA: A -> real, f: A -> B, keyB: B -> real)
    requires forall a :: keyA(a) == keyB(f(a))
    ensures Map(InsertBy(x, r, keyA), f) == InsertBy(f(x), Map(r, f), keyB)
    decreases |r|
  {
    if r == [] || keyA(x) <= keyA(r[0]) {
      MapConcat([x], r, f);
    } else {
      InsertByMap(x, r[1..], keyA, f, keyB);
      MapConcat([r[0]], InsertBy(x, r[1..], keyA), f);
      assert Map(r, f)[1..] == Map(r[1..], f);
    }
  }

  /** A stable sort commutes with a map that carries the key along. */
  lemma {:induction false} SortByMap<A, B>(s: seq<A>, keyA: A -> real, f: A -> B, keyB: B -> real)
    requires forall a :: keyA(a) == keyB(f(a))
    ensures Map(SortBy(s, keyA), f) == SortBy(Map(s, f), keyB)
    decreases |s|
  {
    if s != [] {
      SortByMap(s[1..], keyA, f, keyB);
      InsertByMap(s[0], SortBy(s[1..], keyA), keyA, f, keyB);
      assert Map(s, f)[1..] == Map(s[1..], f);
    }
  }

  /** Under an injective key, a sequence ordered by the key is determined by its multiset. */
  lemma {:induction false} SortedUnique<T>(a: seq<T>, b: seq<T>, key: T -> real)
    requires forall x, y :: key(x) == key(y) ==> x == y
    requires SortedBy(a, key) && SortedBy(b, key)
    requires multiset(a) == multiset(b)
    ensures a == b
    decreases |a|
  {
    assert |a| == |multiset(a)| == |multiset(b)| == |b|;
    if a != [] {
      SortedHeadIsLeast(a, key, b[0]);
      SortedHeadIsLeast(b, key, a[0]);
      assert a[0] == b[0];
      assert multiset(a[1..]) == multiset(a) - multiset{a[0]} by {
        assert a == [a[0]] + a[1..];
      }
      assert multiset(b[1..]) == multiset(b) - multiset{b[0]} by {
        assert b == [b[0]] + b[1..];
      }
      SortedTail(a, key);
      SortedTail(b, key);
      SortedUnique(a[1..], b[1..], key);
    }
  }

  /** The head of an ordered sequence has the least key. */
  lemma SortedHeadIsLeast<T>(s: seq<T>, key: T -> real, x: T)
    requires SortedBy(s, key) && s != []
    requires x in multiset(s)
    ensures key(s[0]) <= key(x)
  {
    var j :| 0 <= j < |s| && s[j] == x;
    if j > 0 {
      assert key(s[0]) <= key(s[j]);
    }
  }

  lemma SortedTail<T>(s: seq<T>, key: T -> real)
    requires SortedBy(s, key) && s != []
    ensures SortedBy(s[1..], key)
  {
    forall i, j | 0 <= i < j < |s[1..]| ensures key(s[1..][i]) <= key(s[1..][j]) {
      assert s[1..][i] == s[i + 1] && s[1..][j] == s[j + 1];
    }
  }

  /** Every element of `s` that passes `p` is kept by the filter. */
  lemma {:induction false} FilterHas<T>(s: seq<T>, p: T -> bool, x: T)
    requires x in s && p(x)
    ensures x in Filter(s, p)
    decreases |s|
  {
    if s[0] != x {
      assert x in s[1..];
      FilterHas(s[1..], p, x);
    }
  }
}

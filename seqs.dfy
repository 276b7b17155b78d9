/** The sequence operations the bookkeeping engine is written in: JavaScript's
    `filter`, `map` and `reduce`, and its `sort` with a numeric comparator.
    Since ES2019 `Array.prototype.sort` is stable, so a comparator
    `(a, b) => key(a) - key(b)` orders by `key` ascending and keeps the input
    order among equal keys; `SortBy` is that stable sort, written as an
    insertion sort that inserts each element after every element whose key is
    not larger. All folds are taken from the right end of the sequence, which
    is where the ledger grows. */
module Seqs {

  // ------------------------------------------------------------------
  // filter
  // ------------------------------------------------------------------

  /** The elements of `s` satisfying `p`, in their original order. */
  function Filter<T(!new)>(s: seq<T>, p: T -> bool): (r: seq<T>)
    ensures |r| <= |s|
    ensures forall x :: x in r <==> x in s && p(x)
    decreases |s|
  {
    if |s| == 0 then []
    else
      assert s == s[..|s| - 1] + [s[|s| - 1]];
      Filter(s[..|s| - 1], p) + (if p(s[|s| - 1]) then [s[|s| - 1]] else [])
  }

  lemma {:induction false} FilterAppend<T(!new)>(a: seq<T>, b: seq<T>, p: T -> bool)
    ensures Filter(a + b, p) == Filter(a, p) + Filter(b, p)
    decreases |b|
  {
    if |b| == 0 {
      assert a + b == a;
    } else {
      var b' := b[..|b| - 1];
      assert (a + b)[..|a + b| - 1] == a + b';
      FilterAppend(a, b', p);
    }
  }

  /** Filtering only looks at the elements: predicates that agree on them give the same result. */
  lemma {:induction false} FilterExt<T(!new)>(s: seq<T>, p: T -> bool, q: T -> bool)
    requires forall x :: x in s ==> p(x) == q(x)
    ensures Filter(s, p) == Filter(s, q)
    decreases |s|
  {
    if |s| > 0 {
      var s' := s[..|s| - 1];
      assert forall x :: x in s' ==> x in s;
      FilterExt(s', p, q);
    }
  }

  lemma {:induction false} FilterAll<T(!new)>(s: seq<T>, p: T -> bool)
    requires forall x :: x in s ==> p(x)
    ensures Filter(s, p) == s
    decreases |s|
  {
    if |s| > 0 {
      var s' := s[..|s| - 1];
      assert s == s' + [s[|s| - 1]];
      assert p(s[|s| - 1]);
      forall x | x in s' ensures p(x) {
        assert x in s;
      }
      FilterAll(s', p);
    }
  }

  lemma FilterNone<T(!new)>(s: seq<T>, p: T -> bool)
    requires forall x :: x in s ==> !p(x)
    ensures Filter(s, p) == []
  {
  }

  /** Two successive filters are one filter by the conjunction. */
  lemma {:induction false} FilterFilter<T(!new)>(s: seq<T>, p: T -> bool, q: T -> bool, pq: T -> bool)
    requires forall x :: pq(x) == (p(x) && q(x))
    ensures Filter(Filter(s, p), q) == Filter(s, pq)
    decreases |s|
  {
    if |s| > 0 {
      var s', x := s[..|s| - 1], s[|s| - 1];
      FilterFilter(s', p, q, pq);
      FilterAppend(Filter(s', p), if p(x) then [x] else [], q);
      assert Filter([x], q) == Filter([], q) + (if q(x) then [x] else []);
    }
  }

  /** The number of elements kept plus the number dropped is the length. */
  lemma {:induction false} FilterCount<T(!new)>(s: seq<T>, p: T -> bool, q: T -> bool)
    requires forall x :: q(x) == !p(x)
    ensures |Filter(s, p)| + |Filter(s, q)| == |s|
    decreases |s|
  {
    if |s| > 0 {
      FilterCount(s[..|s| - 1], p, q);
    }
  }

  // ------------------------------------------------------------------
  // map
  // ------------------------------------------------------------------

  function MapSeq<T, U>(s: seq<T>, f: T -> U): (r: seq<U>)
    ensures |r| == |s|
    ensures forall i :: 0 <= i < |s| ==> r[i] == f(s[i])
  {
    seq(|s|, i requires 0 <= i < |s| => f(s[i]))
  }

  // ------------------------------------------------------------------
  // reduce: sums
  // ------------------------------------------------------------------

  function SumReal<T>(s: seq<T>, f: T -> real): real
    decreases |s|
  {
    if |s| == 0 then 0.0 else SumReal(s[..|s| - 1], f) + f(s[|s| - 1])
  }

  function SumInt<T>(s: seq<T>, f: T -> int): int
    decreases |s|
  {
    if |s| == 0 then 0 else SumInt(s[..|s| - 1], f) + f(s[|s| - 1])
  }

  function SumNat<T>(s: seq<T>, f: T -> nat): nat
    decreases |s|
  {
    if |s| == 0 then 0 else SumNat(s[..|s| - 1], f) + f(s[|s| - 1])
  }

  lemma {:induction false} SumRealAppend<T>(a: seq<T>, b: seq<T>, f: T -> real)
    ensures SumReal(a + b, f) == SumReal(a, f) + SumReal(b, f)
    decreases |b|
  {
    if |b| == 0 {
      assert a + b == a;
    } else {
      var b' := b[..|b| - 1];
      assert (a + b)[..|a + b| - 1] == a + b';
      SumRealAppend(a, b', f);
    }
  }

  lemma {:induction false} SumIntAppend<T>(a: seq<T>, b: seq<T>, f: T -> int)
    ensures SumInt(a + b, f) == SumInt(a, f) + SumInt(b, f)
    decreases |b|
  {
    if |b| == 0 {
      assert a + b == a;
    } else {
      var b' := b[..|b| - 1];
      assert (a + b)[..|a + b| - 1] == a + b';
      SumIntAppend(a, b', f);
    }
  }

  /** A sum only depends on the summed values: equal-length sequences whose
      elements have pointwise equal values have equal sums. */
  lemma {:induction false} SumRealAgree<T, U>(a: seq<T>, b: seq<U>, f: T -> real, g: U -> real)
    requires |a| == |b|
    requires forall i :: 0 <= i < |a| ==> f(a[i]) == g(b[i])
    ensures SumReal(a, f) == SumReal(b, g)
    decreases |a|
  {
    if |a| > 0 {
      SumRealAgree(a[..|a| - 1], b[..|b| - 1], f, g);
    }
  }

  /** A sum of differences is the difference of the sums. */
  lemma {:induction false} SumRealDifference<T>(s: seq<T>, f: T -> real, g: T -> real, h: T -> real)
    requires forall x :: h(x) == f(x) - g(x)
    ensures SumReal(s, h) == SumReal(s, f) - SumReal(s, g)
    decreases |s|
  {
    if |s| > 0 {
      SumRealDifference(s[..|s| - 1], f, g, h);
    }
  }

  /** Summing over a filter by `p || q` for disjoint `p`, `q` is the sum of the two filters' sums. */
  lemma {:induction false} SumRealFilterUnion<T(!new)>(s: seq<T>, p: T -> bool, q: T -> bool, pq: T -> bool, f: T -> real)
    requires forall x :: pq(x) == (p(x) || q(x))
    requires forall x :: !(p(x) && q(x))
    ensures SumReal(Filter(s, pq), f) == SumReal(Filter(s, p), f) + SumReal(Filter(s, q), f)
    decreases |s|
  {
    if |s| > 0 {
      var s', x := s[..|s| - 1], s[|s| - 1];
      SumRealFilterUnion(s', p, q, pq, f);
      SumRealAppend(Filter(s', pq), if pq(x) then [x] else [], f);
      SumRealAppend(Filter(s', p), if p(x) then [x] else [], f);
      SumRealAppend(Filter(s', q), if q(x) then [x] else [], f);
    }
  }

  lemma {:induction false} SumIntFilterSplit<T(!new)>(s: seq<T>, p: T -> bool, q: T -> bool, f: T -> int)
    requires forall x :: q(x) == !p(x)
    ensures SumInt(Filter(s, p), f) + SumInt(Filter(s, q), f) == SumInt(s, f)
    decreases |s|
  {
    if |s| > 0 {
      var s', x := s[..|s| - 1], s[|s| - 1];
      SumIntFilterSplit(s', p, q, f);
      SumIntAppend(Filter(s', p), if p(x) then [x] else [], f);
      SumIntAppend(Filter(s', q), if q(x) then [x] else [], f);
    }
  }

  // ------------------------------------------------------------------
  // stable sort
  // ------------------------------------------------------------------

  predicate Sorted<T>(s: seq<T>, key: T -> real) {
    forall i, j :: 0 <= i < j < |s| ==> key(s[i]) <= key(s[j])
  }

  predicate Distinct<T(==)>(s: seq<T>) {
    forall i, j :: 0 <= i < j < |s| ==> s[i] != s[j]
  }

  /** `x` placed after the last element of `s` whose key is at most `key(x)`,
      looking from the right end. */
  function Insert<T(!new)>(s: seq<T>, x: T, key: T -> real): (r: seq<T>)
    ensures |r| == |s| + 1
    ensures multiset(r) == multiset(s) + multiset{x}
    ensures forall y :: y in r <==> y in s || y == x
    decreases |s|
  {
    if |s| == 0 then [x]
    else if key(s[|s| - 1]) <= key(x) then
      assert s + [x] == s[..|s| - 1] + [s[|s| - 1]] + [x];
      s + [x]
    else
      assert s == s[..|s| - 1] + [s[|s| - 1]];
      Insert(s[..|s| - 1], x, key) + [s[|s| - 1]]
  }

  lemma {:induction false} InsertSorted<T(!new)>(s: seq<T>, x: T, key: T -> real)
    requires Sorted(s, key)
    ensures Sorted(Insert(s, x, key), key)
    decreases |s|
  {
    if |s| > 0 && key(s[|s| - 1]) > key(x) {
      var s', l := s[..|s| - 1], s[|s| - 1];
      InsertSorted(s', x, key);
      var r' := Insert(s', x, key);
      forall y | y in r' ensures key(y) <= key(l) {
        if y != x {
          var i :| 0 <= i < |s'| && s'[i] == y;
          assert s[i] == y;
        }
      }
      var r := r' + [l];
      forall i, j | 0 <= i < j < |r| ensures key(r[i]) <= key(r[j]) {
        if j == |r'| {
          assert r[i] == r'[i] && r'[i] in r';
        }
      }
    }
  }

  /** Stable sort of `s` by `key` ascending. */
  function SortBy<T(!new)>(s: seq<T>, key: T -> real): (r: seq<T>)
    ensures |r| == |s|
    ensures multiset(r) == multiset(s)
    ensures forall y :: y in r <==> y in s
    ensures Sorted(r, key)
    decreases |s|
  {
    if |s| == 0 then []
    else
      var rest := SortBy(s[..|s| - 1], key);
      InsertSorted(rest, s[|s| - 1], key);
      assert s == s[..|s| - 1] + [s[|s| - 1]];
      Insert(rest, s[|s| - 1], key)
  }

  /** Sorting what is already sorted changes nothing. */
  lemma {:induction false} SortBySorted<T(!new)>(s: seq<T>, key: T -> real)
    requires Sorted(s, key)
    ensures SortBy(s, key) == s
    decreases |s|
  {
    if |s| > 0 {
      var s', x := s[..|s| - 1], s[|s| - 1];
      assert s == s' + [x];
      assert Sorted(s', key);
      SortBySorted(s', key);
      SortByAppend(s', x, key);
      if |s'| > 0 {
        assert key(s'[|s'| - 1]) <= key(x);
      }
      InsertSnoc(s', x, key);
    }
  }

  /** `SortBy(s + [x])` inserts `x` into the sorted `SortBy(s)`. */
  lemma SortByAppend<T(!new)>(s: seq<T>, x: T, key: T -> real)
    ensures SortBy(s + [x], key) == Insert(SortBy(s, key), x, key)
  {
    assert (s + [x])[..|s|] == s;
  }

  /** Inserting into a sorted sequence splits it at one position: every
      element before `x` has a key at most `key(x)`, every element after it a
      larger key. */
  lemma {:induction false} InsertAt<T(!new)>(s: seq<T>, x: T, key: T -> real) returns (k: nat)
    requires Sorted(s, key)
    ensures k <= |s|
    ensures Insert(s, x, key) == s[..k] + [x] + s[k..]
    ensures forall i :: 0 <= i < k ==> key(s[i]) <= key(x)
    ensures forall i :: k <= i < |s| ==> key(x) < key(s[i])
    decreases |s|
  {
    if |s| == 0 {
      k := 0;
    } else if key(s[|s| - 1]) <= key(x) {
      k := |s|;
      assert s[..k] == s && s[k..] == [];
    } else {
      var s', l := s[..|s| - 1], s[|s| - 1];
      assert s == s' + [l];
      assert Sorted(s', key);
      k := InsertAt(s', x, key);
      InsertAtBefore(s', l, x, key, k);
      SplitPointSnoc(s', l, x, key, k);
    }
  }

  /** Appending after a split is splitting after appending. */
  lemma SplitSnoc<T>(s: seq<T>, x: T, l: T, k: nat)
    requires k <= |s|
    ensures s[..k] + [x] + s[k..] + [l] == (s + [l])[..k] + [x] + (s + [l])[k..]
  {
    assert (s + [l])[..k] == s[..k];
    assert (s + [l])[k..] == s[k..] + [l];
  }

  /** The split point found in `s` is still the split point in `s + [l]`
      when `l` has a larger key than `x`. */
  lemma InsertAtBefore<T(!new)>(s: seq<T>, l: T, x: T, key: T -> real, k: nat)
    requires k <= |s| && key(x) < key(l)
    requires Insert(s, x, key) == s[..k] + [x] + s[k..]
    ensures Insert(s + [l], x, key) == (s + [l])[..k] + [x] + (s + [l])[k..]
  {
    InsertBefore(s, l, x, key);
    SplitSnoc(s, x, l, k);
  }

  /** Keys on either side of a split point of `s` stay on their side in
      `s + [l]` when `l` has a larger key than `x`. */
  lemma SplitPointSnoc<T>(s: seq<T>, l: T, x: T, key: T -> real, k: nat)
    requires k <= |s| && key(x) < key(l)
    requires forall i :: 0 <= i < k ==> key(s[i]) <= key(x)
    requires forall i :: k <= i < |s| ==> key(x) < key(s[i])
    ensures forall i :: 0 <= i < k ==> key((s + [l])[i]) <= key(x)
    ensures forall i :: k <= i < |s| + 1 ==> key(x) < key((s + [l])[i])
  {
    var t := s + [l];
    forall i | 0 <= i < k ensures key(t[i]) <= key(x) {
      assert t[i] == s[i];
    }
    forall i | k <= i < |t| ensures key(x) < key(t[i]) {
      if i < |s| {
        assert t[i] == s[i];
      }
    }
  }

  /** Index of the element `s` ends with once sorted: a largest key, and the
      last one in `s` among the largest keys. */
  function LatestIndex<T>(s: seq<T>, key: T -> real): (i: nat)
    requires |s| > 0
    ensures i < |s|
    ensures forall j :: 0 <= j < |s| ==> key(s[j]) <= key(s[i])
    ensures forall j :: i < j < |s| ==> key(s[j]) < key(s[i])
    decreases |s|
  {
    if |s| == 1 then 0
    else
      var j := LatestIndex(s[..|s| - 1], key);
      if key(s[j]) <= key(s[|s| - 1]) then |s| - 1 else j
  }

  lemma {:induction false} LastOfSortBy<T(!new)>(s: seq<T>, key: T -> real)
    requires |s| > 0
    ensures SortBy(s, key)[|s| - 1] == s[LatestIndex(s, key)]
    decreases |s|
  {
    if |s| > 1 {
      var s' := s[..|s| - 1];
      LastOfSortBy(s', key);
    }
  }

  lemma FilterSnoc<T(!new)>(s: seq<T>, x: T, p: T -> bool)
    ensures Filter(s + [x], p) == Filter(s, p) + (if p(x) then [x] else [])
  {
    assert (s + [x])[..|s|] == s;
  }

  lemma InsertSnoc<T(!new)>(s: seq<T>, x: T, key: T -> real)
    requires |s| == 0 || key(s[|s| - 1]) <= key(x)
    ensures Insert(s, x, key) == s + [x]
  {
  }

  lemma InsertBefore<T(!new)>(s: seq<T>, l: T, x: T, key: T -> real)
    requires key(x) < key(l)
    ensures Insert(s + [l], x, key) == Insert(s, x, key) + [l]
  {
    assert (s + [l])[..|s|] == s;
  }

  /** The last element of a sorted sequence has a largest key. */
  lemma SortedLast<T>(s: seq<T>, key: T -> real, y: T)
    requires Sorted(s, key) && y in s
    ensures key(y) <= key(s[|s| - 1])
  {
    var i :| 0 <= i < |s| && s[i] == y;
  }

  lemma FilterInsertAfter<T(!new)>(s: seq<T>, x: T, key: T -> real, p: T -> bool)
    requires Sorted(s, key)
    requires |s| > 0 && key(s[|s| - 1]) <= key(x)
    ensures Filter(Insert(s, x, key), p) == if p(x) then Insert(Filter(s, p), x, key) else Filter(s, p)
  {
    InsertSnoc(s, x, key);
    FilterSnoc(s, x, p);
    var f := Filter(s, p);
    if p(x) && |f| > 0 {
      SortedLast(s, key, f[|f| - 1]);
      InsertSnoc(f, x, key);
    }
  }

  /** Filtering a sorted insertion is inserting into the filtered sequence. */
  lemma {:induction false} FilterInsert<T(!new)>(s: seq<T>, x: T, key: T -> real, p: T -> bool)
    requires Sorted(s, key)
    ensures Filter(Insert(s, x, key), p) == if p(x) then Insert(Filter(s, p), x, key) else Filter(s, p)
    decreases |s|
  {
    if |s| > 0 {
      if key(s[|s| - 1]) <= key(x) {
        FilterInsertAfter(s, x, key, p);
      } else {
        var s', l := s[..|s| - 1], s[|s| - 1];
        assert s == s' + [l];
        assert Sorted(s', key);
        FilterInsert(s', x, key, p);
        var a, f, tail := Insert(s', x, key), Filter(s', p), if p(l) then [l] else [];
        calc {
          Filter(Insert(s, x, key), p);
          { InsertBefore(s', l, x, key); }
          Filter(a + [l], p);
          { FilterSnoc(a, l, p); }
          Filter(a, p) + tail;
          (if p(x) then Insert(f, x, key) else f) + tail;
          { if p(x) && p(l) { InsertBefore(f, l, x, key); } else if p(x) { assert f + tail == f; } }
          if p(x) then Insert(f + tail, x, key) else f + tail;
          { FilterSnoc(s', l, p); }
          if p(x) then Insert(Filter(s, p), x, key) else Filter(s, p);
        }
      }
    }
  }

  /** Filtering commutes with the stable sort. */
  lemma {:induction false} FilterSortBy<T(!new)>(s: seq<T>, key: T -> real, p: T -> bool)
    ensures Filter(SortBy(s, key), p) == SortBy(Filter(s, p), key)
    decreases |s|
  {
    if |s| > 0 {
      var s', x := s[..|s| - 1], s[|s| - 1];
      assert s == s' + [x];
      var sorted', f' := SortBy(s', key), Filter(s', p);
      SortByAppend(s', x, key);
      FilterInsert(sorted', x, key, p);
      FilterSortBy(s', key, p);
      FilterSnoc(s', x, p);
      if p(x) {
        SortByAppend(f', x, key);
        assert Filter(s, p) == f' + [x];
      } else {
        assert Filter(s, p) == f' + [];
        assert f' + [] == f';
      }
    }
  }

  /** The test "has key `v`". */
  function KeyIs<T>(key: T -> real, v: real): T -> bool { (x: T) => key(x) == v }

  /** The sort is stable: the elements sharing any one key keep their relative order. */
  lemma SortByStable<T(!new)>(s: seq<T>, key: T -> real, v: real)
    ensures Filter(SortBy(s, key), KeyIs(key, v)) == Filter(s, KeyIs(key, v))
  {
    var f := Filter(s, KeyIs(key, v));
    FilterSortBy(s, key, KeyIs(key, v));
    forall i, j | 0 <= i < j < |f| ensures key(f[i]) <= key(f[j]) {
      assert f[i] in f && f[j] in f;
    }
    SortBySorted(f, key);
  }

  /** A filter of a sorted sequence is sorted. */
  lemma FilterSorted<T(!new)>(s: seq<T>, key: T -> real, p: T -> bool)
    requires Sorted(s, key)
    ensures Sorted(Filter(s, p), key)
  {
    SortBySorted(s, key);
    FilterSortBy(s, key, p);
  }

  lemma {:induction false} SumRealInsert<T(!new)>(s: seq<T>, x: T, key: T -> real, f: T -> real)
    ensures SumReal(Insert(s, x, key), f) == SumReal(s, f) + f(x)
    decreases |s|
  {
    if |s| > 0 {
      var s', l := s[..|s| - 1], s[|s| - 1];
      if key(l) <= key(x) {
        assert (s + [x])[..|s|] == s;
      } else {
        SumRealInsert(s', x, key, f);
        var r' := Insert(s', x, key);
        assert (r' + [l])[..|r'|] == r';
      }
    }
  }

  /** Sorting does not change a sum. */
  lemma {:induction false} SumRealSortBy<T(!new)>(s: seq<T>, key: T -> real, f: T -> real)
    ensures SumReal(SortBy(s, key), f) == SumReal(s, f)
    decreases |s|
  {
    if |s| > 0 {
      SumRealSortBy(s[..|s| - 1], key, f);
      SumRealInsert(SortBy(s[..|s| - 1], key), s[|s| - 1], key, f);
    }
  }

  /** The sort only looks at the keys of the elements present. */
  lemma {:induction false} InsertKeyExt<T(!new)>(s: seq<T>, x: T, k1: T -> real, k2: T -> real)
    requires forall y :: y in s ==> k1(y) == k2(y)
    requires k1(x) == k2(x)
    ensures Insert(s, x, k1) == Insert(s, x, k2)
    decreases |s|
  {
    if |s| > 0 {
      var s' := s[..|s| - 1];
      assert forall y :: y in s' ==> y in s;
      InsertKeyExt(s', x, k1, k2);
    }
  }

  lemma {:induction false} SortByKeyExt<T(!new)>(s: seq<T>, k1: T -> real, k2: T -> real)
    requires forall y :: y in s ==> k1(y) == k2(y)
    ensures SortBy(s, k1) == SortBy(s, k2)
    decreases |s|
  {
    if |s| > 0 {
      var s' := s[..|s| - 1];
      assert forall y :: y in s' ==> y in s;
      SortByKeyExt(s', k1, k2);
      InsertKeyExt(SortBy(s', k1), s[|s| - 1], k1, k2);
    }
  }

  /** Sorting images by `k` is sorting the originals by the pulled-back key `k2`. */
  lemma {:induction false} InsertMap<T(!new), U(!new)>(s: seq<T>, x: T, f: T -> U, k: U -> real, k2: T -> real)
    requires forall y :: y in s ==> k2(y) == k(f(y))
    requires k2(x) == k(f(x))
    ensures Insert(MapSeq(s, f), f(x), k) == MapSeq(Insert(s, x, k2), f)
    decreases |s|
  {
    if |s| > 0 {
      var s', l := s[..|s| - 1], s[|s| - 1];
      assert l in s;
      assert MapSeq(s, f)[..|s| - 1] == MapSeq(s', f);
      if k2(l) > k2(x) {
        assert forall y :: y in s' ==> y in s;
        InsertMap(s', x, f, k, k2);
      }
    }
  }

  lemma {:induction false} SortByMap<T(!new), U(!new)>(s: seq<T>, f: T -> U, k: U -> real, k2: T -> real)
    requires forall y :: y in s ==> k2(y) == k(f(y))
    ensures SortBy(MapSeq(s, f), k) == MapSeq(SortBy(s, k2), f)
    decreases |s|
  {
    if |s| > 0 {
      var s', x := s[..|s| - 1], s[|s| - 1];
      assert forall y :: y in s' ==> y in s;
      assert MapSeq(s, f)[..|s| - 1] == MapSeq(s', f);
      SortByMap(s', f, k, k2);
      InsertMap(SortBy(s', k2), x, f, k, k2);
    }
  }

  lemma {:induction false} InsertDistinct<T(!new)>(s: seq<T>, x: T, key: T -> real)
    requires Distinct(s) && x !in s
    ensures Distinct(Insert(s, x, key))
    decreases |s|
  {
    if |s| > 0 && key(s[|s| - 1]) > key(x) {
      var s', l := s[..|s| - 1], s[|s| - 1];
      assert Distinct(s');
      assert x !in s' by { assert forall y :: y in s' ==> y in s; }
      InsertDistinct(s', x, key);
      assert l !in s' by {
        forall i | 0 <= i < |s'| ensures s'[i] != l { assert s[i] != s[|s| - 1]; }
      }
    } else if |s| > 0 {
      assert s + [x] == s[..|s| - 1] + [s[|s| - 1]] + [x];
    }
  }

  lemma {:induction false} SortByDistinct<T(!new)>(s: seq<T>, key: T -> real)
    requires Distinct(s)
    ensures Distinct(SortBy(s, key))
    decreases |s|
  {
    if |s| > 0 {
      var s', x := s[..|s| - 1], s[|s| - 1];
      assert Distinct(s');
      SortByDistinct(s', key);
      assert x !in s' by {
        forall i | 0 <= i < |s'| ensures s'[i] != x { assert s[i] != s[|s| - 1]; }
      }
      InsertDistinct(SortBy(s', key), x, key);
    }
  }

  /** A filter that keeps exactly the first `m` elements returns that prefix. */
  lemma {:induction false} FilterPrefix<T(!new)>(s: seq<T>, p: T -> bool, m: nat)
    requires m <= |s|
    requires forall i :: 0 <= i < m ==> p(s[i])
    requires forall i :: m <= i < |s| ==> !p(s[i])
    ensures Filter(s, p) == s[..m]
    decreases |s|
  {
    if |s| == m {
      forall x | x in s ensures p(x) {
        var i :| 0 <= i < |s| && s[i] == x;
      }
      FilterAll(s, p);
      assert s[..m] == s;
    } else {
      var s' := s[..|s| - 1];
      assert !p(s[|s| - 1]);
      FilterPrefix(s', p, m);
      assert s'[..m] == s[..m];
    }
  }

  lemma {:induction false} SumNatFilter<T(!new)>(s: seq<T>, p: T -> bool, f: T -> nat)
    ensures SumNat(Filter(s, p), f) <= SumNat(s, f)
    decreases |s|
  {
    if |s| > 0 {
      SumNatFilter(s[..|s| - 1], p, f);
      var kept := Filter(s[..|s| - 1], p);
      if p(s[|s| - 1]) {
        var r := kept + [s[|s| - 1]];
        assert Filter(s, p) == r;
        assert r[..|r| - 1] == kept;
        assert SumNat(r, f) == SumNat(kept, f) + f(s[|s| - 1]);
      } else {
        assert Filter(s, p) == kept + [] == kept;
      }
      assert SumNat(s, f) == SumNat(s[..|s| - 1], f) + f(s[|s| - 1]);
    }
  }

  /** Summing over a filter is summing the values of the kept elements and 0 for the others. */
  lemma {:induction false} SumNatMask<T(!new)>(s: seq<T>, p: T -> bool, f: T -> nat, g: T -> nat)
    requires forall x :: g(x) == if p(x) then f(x) else 0
    ensures SumNat(Filter(s, p), f) == SumNat(s, g)
    decreases |s|
  {
    if |s| > 0 {
      var s', x := s[..|s| - 1], s[|s| - 1];
      SumNatMask(s', p, f, g);
      var kept := Filter(s', p);
      if p(x) {
        var r := kept + [x];
        assert Filter(s, p) == r;
        assert r[..|r| - 1] == kept;
      } else {
        assert Filter(s, p) == kept + [] == kept;
      }
    }
  }

  lemma {:induction false} SumRealMask<T(!new)>(s: seq<T>, p: T -> bool, f: T -> real, g: T -> real)
    requires forall x :: g(x) == if p(x) then f(x) else 0.0
    ensures SumReal(Filter(s, p), f) == SumReal(s, g)
    decreases |s|
  {
    if |s| > 0 {
      var s', x := s[..|s| - 1], s[|s| - 1];
      SumRealMask(s', p, f, g);
      var kept := Filter(s', p);
      if p(x) {
        var r := kept + [x];
        assert Filter(s, p) == r;
        assert r[..|r| - 1] == kept;
      } else {
        assert Filter(s, p) == kept + [] == kept;
      }
    }
  }

  /** A sum of non-negative values is non-negative. */
  lemma {:induction false} SumRealNonNegative<T>(s: seq<T>, f: T -> real)
    ensures (forall x :: x in s ==> f(x) >= 0.0) ==> SumReal(s, f) >= 0.0
    decreases |s|
  {
    if |s| > 0 {
      var s' := s[..|s| - 1];
      assert forall x :: x in s' ==> x in s;
      SumRealNonNegative(s', f);
      assert s[|s| - 1] in s;
    }
  }

  /** The indices `0, 1, ..., n - 1`. */
  function Range(n: nat): (r: seq<int>)
    ensures |r| == n
    ensures forall i :: 0 <= i < n ==> r[i] == i
  {
    seq(n, i requires 0 <= i < n => i)
  }

  lemma {:induction false} FilterDistinct<T(!new)>(s: seq<T>, p: T -> bool)
    requires Distinct(s)
    ensures Distinct(Filter(s, p))
    decreases |s|
  {
    if |s| > 0 {
      var s', x := s[..|s| - 1], s[|s| - 1];
      assert Distinct(s');
      FilterDistinct(s', p);
      assert x !in s' by {
        forall i | 0 <= i < |s'| ensures s'[i] != x { assert s[i] != s[|s| - 1]; }
      }
      if p(x) {
        var r := Filter(s', p) + [x];
        assert Filter(s, p) == r;
        forall i, j | 0 <= i < j < |r| ensures r[i] != r[j] {
          if j == |r| - 1 {
            assert r[i] in Filter(s', p);
          }
        }
      } else {
        assert Filter(s, p) == Filter(s', p) + [];
      }
    }
  }

  /** Sums of a longer prefix are no smaller. */
  lemma {:induction false} SumNatPrefixMono<T>(s: seq<T>, f: T -> nat, i: nat, j: nat)
    requires i <= j <= |s|
    ensures SumNat(s[..i], f) <= SumNat(s[..j], f)
    decreases j - i
  {
    if i < j {
      SumNatPrefixMono(s, f, i, j - 1);
      assert s[..j][..j - 1] == s[..j - 1];
    }
  }

  lemma MapSeqSnoc<T, U>(s: seq<T>, x: T, f: T -> U)
    ensures MapSeq(s + [x], f) == MapSeq(s, f) + [f(x)]
  {
  }

  lemma MapSeqPrefix<T, U>(s: seq<T>, f: T -> U, k: nat)
    requires k <= |s|
    ensures MapSeq(s, f)[..k] == MapSeq(s[..k], f)
  {
  }
}

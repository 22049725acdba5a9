/**
 * Generic list operations that the application performs through JavaScript's
 * array built-ins: `filter`, `reduce` into a sum, and the (stable) `sort`.
 * Filters and sums are left folds (they peel the last element), as
 * `Array.prototype.filter` and `reduce` visit elements from the front.
 */
module Seqs {

  /** The elements of `s` that satisfy `p`, in their original order. */
  function Filter<T>(s: seq<T>, p: T -> bool): (r: seq<T>)
    ensures |r| <= |s|
    ensures forall i :: 0 <= i < |r| ==> p(r[i])
    decreases |s|
  {
    if s == [] then [] else Filter(s[..|s| - 1], p) + (if p(s[|s| - 1]) then [s[|s| - 1]] else [])
  }

  /** `a` can be obtained from `b` by deleting elements (an order-preserving subsequence). */
  ghost predicate Subseq<T>(a: seq<T>, b: seq<T>)
    decreases |b|
  {
    if a == [] then true
    else if b == [] then false
    else (a[|a| - 1] == b[|b| - 1] && Subseq(a[..|a| - 1], b[..|b| - 1])) || Subseq(a, b[..|b| - 1])
  }

  /** `s.map(f)`. */
  function Map<A, B>(s: seq<A>, f: A -> B): (r: seq<B>)
    ensures |r| == |s|
    ensures forall i :: 0 <= i < |s| ==> r[i] == f(s[i])
    decreases |s|
  {
    if s == [] then [] else Map(s[..|s| - 1], f) + [f(s[|s| - 1])]
  }

  /** Splitting by a predicate and its negation: the two parts' lengths add up. */
  lemma {:induction false} FilterSplitLength<T>(s: seq<T>, p: T -> bool, notP: T -> bool)
    requires forall x :: notP(x) == !p(x)
    ensures |Filter(s, p)| + |Filter(s, notP)| == |s|
    decreases |s|
  {
    if s != [] {
      FilterSplitLength(s[..|s| - 1], p, notP);
    }
  }

  /** `s` back to front. */
  function Reverse<T>(s: seq<T>): (r: seq<T>)
    ensures |r| == |s|
    decreases |s|
  {
    if s == [] then [] else [s[|s| - 1]] + Reverse(s[..|s| - 1])
  }

  lemma {:induction false} ReverseAt<T>(s: seq<T>, i: nat)
    requires i < |s|
    ensures Reverse(s)[i] == s[|s| - 1 - i]
    decreases |s|
  {
    if i > 0 {
      ReverseAt(s[..|s| - 1], i - 1);
    }
  }

  lemma ConcatAssoc<T>(a: seq<T>, b: seq<T>, c: seq<T>)
    ensures a + (b + c) == (a + b) + c
  {
  }

  lemma ReverseSnoc<T>(s: seq<T>, x: T)
    ensures Reverse(s + [x]) == [x] + Reverse(s)
  {
    assert (s + [x])[..|s|] == s;
  }

  /** Sum of `f` over `s`, added from the front as `reduce((sum, x) => sum + f(x), 0)` does. */
  function SumOf<T>(s: seq<T>, f: T -> real): real
    decreases |s|
  {
    if s == [] then 0.0 else SumOf(s[..|s| - 1], f) + f(s[|s| - 1])
  }

  lemma LastOfAppend<T>(a: seq<T>, b: seq<T>)
    requires b != []
    ensures (a + b)[..|a + b| - 1] == a + b[..|b| - 1]
    ensures (a + b)[|a + b| - 1] == b[|b| - 1]
  {
  }

  lemma {:induction false} FilterAppend<T>(a: seq<T>, b: seq<T>, p: T -> bool)
    ensures Filter(a + b, p) == Filter(a, p) + Filter(b, p)
    decreases |b|
  {
    if b == [] {
      assert a + b == a;
    } else {
      LastOfAppend(a, b);
      FilterAppend(a, b[..|b| - 1], p);
    }
  }

  /** A filter keeps exactly the elements satisfying `p`, each as often as it occurs. */
  lemma {:induction false} FilterCount<T>(s: seq<T>, p: T -> bool, x: T)
    ensures multiset(Filter(s, p))[x] == if p(x) then multiset(s)[x] else 0
    decreases |s|
  {
    if s != [] {
      var init, last := s[..|s| - 1], s[|s| - 1];
      assert s == init + [last];
      FilterCount(init, p, x);
    }
  }

  lemma FilterMembership<T>(s: seq<T>, p: T -> bool, x: T)
    ensures x in Filter(s, p) <==> x in s && p(x)
  {
    FilterCount(s, p, x);
    assert x in Filter(s, p) <==> multiset(Filter(s, p))[x] > 0;
    assert x in s <==> multiset(s)[x] > 0;
  }

  lemma {:induction false} FilterIsSubseq<T>(s: seq<T>, p: T -> bool)
    ensures Subseq(Filter(s, p), s)
    decreases |s|
  {
    if s != [] {
      var init, last := s[..|s| - 1], s[|s| - 1];
      FilterIsSubseq(init, p);
      if p(last) {
        var r := Filter(s, p);
        assert r == Filter(init, p) + [last];
        assert r[..|r| - 1] == Filter(init, p);
      } else {
        assert Filter(s, p) == Filter(init, p) + [];
        assert Filter(s, p) == Filter(init, p);
        SubseqDropLast(Filter(init, p), s);
        assert Subseq(Filter(init, p), s);
      }
    }
  }

  lemma SubseqDropLast<T>(a: seq<T>, b: seq<T>)
    requires b != [] && Subseq(a, b[..|b| - 1])
    ensures Subseq(a, b)
  {
  }

  lemma {:induction false} FilterKeepsAll<T>(s: seq<T>, p: T -> bool)
    requires forall i :: 0 <= i < |s| ==> p(s[i])
    ensures Filter(s, p) == s
    decreases |s|
  {
    if s != [] {
      FilterKeepsAll(s[..|s| - 1], p);
    }
  }

  lemma {:induction false} FilterDropsAll<T>(s: seq<T>, p: T -> bool)
    requires forall i :: 0 <= i < |s| ==> !p(s[i])
    ensures Filter(s, p) == []
    decreases |s|
  {
    if s != [] {
      FilterDropsAll(s[..|s| - 1], p);
    }
  }

  /** Two filters in a row keep what the conjunction keeps. */
  lemma {:induction false} FilterFilter<T>(s: seq<T>, p: T -> bool, q: T -> bool, pq: T -> bool)
    requires forall x :: pq(x) == (p(x) && q(x))
    ensures Filter(Filter(s, p), q) == Filter(s, pq)
    decreases |s|
  {
    if s != [] {
      var init, last := s[..|s| - 1], s[|s| - 1];
      FilterFilter(init, p, q, pq);
      FilterAppend(Filter(init, p), if p(last) then [last] else [], q);
    }
  }

  /** Filters that agree on every element of `s` give the same result. */
  lemma {:induction false} FilterExt<T>(s: seq<T>, p: T -> bool, q: T -> bool)
    requires forall i :: 0 <= i < |s| ==> p(s[i]) == q(s[i])
    ensures Filter(s, p) == Filter(s, q)
    decreases |s|
  {
    if s != [] {
      FilterExt(s[..|s| - 1], p, q);
    }
  }

  lemma {:induction false} SumAppend<T>(a: seq<T>, b: seq<T>, f: T -> real)
    ensures SumOf(a + b, f) == SumOf(a, f) + SumOf(b, f)
    decreases |b|
  {
    if b == [] {
      assert a + b == a;
    } else {
      LastOfAppend(a, b);
      SumAppend(a, b[..|b| - 1], f);
    }
  }

  /** Taking one term out of a sum. */
  lemma SumRemove<T>(b: seq<T>, j: nat, f: T -> real)
    requires j < |b|
    ensures SumOf(b, f) == SumOf(b[..j] + b[j + 1..], f) + f(b[j])
  {
    assert b == b[..j] + [b[j]] + b[j + 1..];
    SumMiddle(b[..j], b[j], b[j + 1..], f);
  }

  lemma SumMiddle<T>(pre: seq<T>, x: T, post: seq<T>, f: T -> real)
    ensures SumOf(pre + [x] + post, f) == SumOf(pre + post, f) + f(x)
  {
    SumAppend(pre + [x], post, f);
    SumAppend(pre, [x], f);
    SumSingle(x, f);
    SumAppend(pre, post, f);
  }

  lemma SumSingle<T>(x: T, f: T -> real)
    ensures SumOf([x], f) == f(x)
  {
    assert [x][..0] == [];
  }

  /** Taking one element out of a sequence takes it out of its multiset. */
  lemma MultisetRemove<T>(b: seq<T>, j: nat)
    requires j < |b|
    ensures multiset(b[..j] + b[j + 1..]) == multiset(b) - multiset{b[j]}
  {
    assert b == b[..j] + [b[j]] + b[j + 1..];
  }

  /** A sum does not depend on the order of its terms. */
  lemma {:induction false} SumPermutation<T>(a: seq<T>, b: seq<T>, f: T -> real)
    requires multiset(a) == multiset(b)
    ensures SumOf(a, f) == SumOf(b, f)
    decreases |a|
  {
    if a == [] {
      assert |b| == |multiset(b)| == 0;
    } else {
      var init, x := a[..|a| - 1], a[|a| - 1];
      assert a == init + [x];
      assert multiset(init) == multiset(a) - multiset{x};
      assert x in multiset(b);
      var j :| 0 <= j < |b| && b[j] == x;
      MultisetRemove(b, j);
      SumPermutation(init, b[..j] + b[j + 1..], f);
      SumRemove(b, j, f);
    }
  }

  /** Splitting a sum by a predicate: the kept part plus the dropped part. */
  lemma {:induction false} SumSplit<T>(s: seq<T>, f: T -> real, p: T -> bool, notP: T -> bool)
    requires forall x :: notP(x) == !p(x)
    ensures SumOf(s, f) == SumOf(Filter(s, p), f) + SumOf(Filter(s, notP), f)
    decreases |s|
  {
    if s != [] {
      var init, last := s[..|s| - 1], s[|s| - 1];
      SumSplit(init, f, p, notP);
      var kept := if p(last) then [last] else [];
      var dropped := if notP(last) then [last] else [];
      SumAppend(Filter(init, p), kept, f);
      SumAppend(Filter(init, notP), dropped, f);
      assert [last][..0] == [];
    }
  }

  /** Sum of a function that is zero on every element. */
  lemma {:induction false} SumZero<T>(s: seq<T>, f: T -> real)
    requires forall i :: 0 <= i < |s| ==> f(s[i]) == 0.0
    ensures SumOf(s, f) == 0.0
    decreases |s|
  {
    if s != [] {
      SumZero(s[..|s| - 1], f);
    }
  }

  /** Sums of functions that agree on every element of `s` are equal. */
  lemma {:induction false} SumExt<T>(s: seq<T>, f: T -> real, g: T -> real)
    requires forall i :: 0 <= i < |s| ==> f(s[i]) == g(s[i])
    ensures SumOf(s, f) == SumOf(s, g)
    decreases |s|
  {
    if s != [] {
      SumExt(s[..|s| - 1], f, g);
    }
  }

  lemma {:induction false} SumMinus<T>(s: seq<T>, f: T -> real, g: T -> real, d: T -> real)
    requires forall x :: d(x) == f(x) - g(x)
    ensures SumOf(s, d) == SumOf(s, f) - SumOf(s, g)
    decreases |s|
  {
    if s != [] {
      SumMinus(s[..|s| - 1], f, g, d);
    }
  }

  // ---------------------------------------------------------------------------
  // Stable sorting, as `Array.prototype.sort` has been required to be since
  // ECMAScript 2019. `le(a, b)` means the comparator does not put `b` before
  // `a` (it returns a value <= 0 for (a, b)).
  // ---------------------------------------------------------------------------

  ghost predicate Total<T(!new)>(le: (T, T) -> bool) {
    forall a, b :: le(a, b) || le(b, a)
  }

  /** Neighbours are in order. */
  ghost predicate Sorted<T>(s: seq<T>, le: (T, T) -> bool) {
    forall i :: 0 <= i < |s| - 1 ==> le(s[i], s[i + 1])
  }

  /** Every earlier element is in order with every later one. */
  ghost predicate SortedPairs<T>(s: seq<T>, le: (T, T) -> bool) {
    forall i, j :: 0 <= i < j < |s| ==> le(s[i], s[j])
  }

  /** Inserts `x` before the first element it may precede, so equal elements keep their order. */
  function Insert<T>(x: T, s: seq<T>, le: (T, T) -> bool): (r: seq<T>)
    ensures |r| == |s| + 1
    ensures multiset(r) == multiset(s) + multiset{x}
  {
    if s == [] || le(x, s[0]) then [x] + s
    else
      assert s == [s[0]] + s[1..];
      [s[0]] + Insert(x, s[1..], le)
  }

  /** Stable insertion sort, the order a stable `sort` with comparator `le` produces. */
  function SortBy<T>(s: seq<T>, le: (T, T) -> bool): (r: seq<T>)
    ensures |r| == |s|
    ensures multiset(r) == multiset(s)
  {
    if s == [] then []
    else
      assert s == [s[0]] + s[1..];
      Insert(s[0], SortBy(s[1..], le), le)
  }

  lemma {:induction false} InsertSorted<T(!new)>(x: T, s: seq<T>, le: (T, T) -> bool)
    requires Total(le) && Sorted(s, le)
    ensures Sorted(Insert(x, s, le), le)
    ensures s != [] && !le(x, s[0]) ==> Insert(x, s, le)[0] == s[0]
    decreases |s|
  {
    if s != [] && !le(x, s[0]) {
      var t := s[1..];
      assert Sorted(t, le);
      InsertSorted(x, t, le);
      var r := Insert(x, t, le);
      assert Insert(x, s, le) == [s[0]] + r;
      if t == [] || le(x, t[0]) {
        assert r[0] == x;
        assert le(s[0], x);
      } else {
        assert r[0] == t[0];
      }
    }
  }

  /** The sort's output is ordered and is a permutation of its input. */
  lemma {:induction false} SortBySorted<T(!new)>(s: seq<T>, le: (T, T) -> bool)
    requires Total(le)
    ensures Sorted(SortBy(s, le), le)
    ensures multiset(SortBy(s, le)) == multiset(s)
    decreases |s|
  {
    if s != [] {
      SortBySorted(s[1..], le);
      InsertSorted(s[0], SortBy(s[1..], le), le);
    }
  }

  /** `le` is transitive on the elements of `s`. */
  ghost predicate TransitiveOn<T>(s: seq<T>, le: (T, T) -> bool) {
    forall a, b, c :: a in s && b in s && c in s && le(a, b) && le(b, c) ==> le(a, c)
  }

  lemma {:induction false} SortedToPairs<T>(s: seq<T>, le: (T, T) -> bool)
    requires TransitiveOn(s, le) && Sorted(s, le)
    ensures SortedPairs(s, le)
    decreases |s|
  {
    if |s| > 1 {
      var t := s[1..];
      assert Sorted(t, le);
      assert TransitiveOn(t, le) by {
        forall a, b, c | a in t && b in t && c in t ensures a in s && b in s && c in s {
        }
      }
      SortedToPairs(t, le);
      forall i, j | 0 <= i < j < |s| ensures le(s[i], s[j]) {
        if i > 0 {
          assert s[i] == t[i - 1] && s[j] == t[j - 1];
        } else if j > 1 {
          assert le(s[0], s[1]) && s[1] == t[0] && s[j] == t[j - 1];
          assert s[0] in s && s[1] in s && s[j] in s;
        }
      }
    }
  }

  /** Sorting with a total comparator that is transitive on the input orders every pair. */
  lemma SortByOrdersPairs<T(!new)>(s: seq<T>, le: (T, T) -> bool)
    requires Total(le) && TransitiveOn(s, le)
    ensures SortedPairs(SortBy(s, le), le)
    ensures multiset(SortBy(s, le)) == multiset(s)
  {
    var r := SortBy(s, le);
    SortBySorted(s, le);
    assert TransitiveOn(r, le) by {
      forall a, b, c | a in r && b in r && c in r ensures a in s && b in s && c in s {
        assert a in multiset(r) && b in multiset(r) && c in multiset(r);
      }
    }
    SortedToPairs(r, le);
  }

  /** A sequence whose elements are pairwise distinct. */
  ghost predicate Distinct<T>(s: seq<T>) {
    forall i, j :: 0 <= i < j < |s| ==> s[i] != s[j]
  }

  /** Only the two sides of a tie are tied: `le` decides between distinct elements. */
  ghost predicate Antisymmetric<T(!new)>(le: (T, T) -> bool) {
    forall a, b :: le(a, b) && le(b, a) ==> a == b
  }

  lemma SortedPairsTail<T>(a: seq<T>, le: (T, T) -> bool)
    requires a != [] && SortedPairs(a, le)
    ensures SortedPairs(a[1..], le)
  {
    forall x, y | 0 <= x < y < |a| - 1 ensures le(a[1..][x], a[1..][y]) {
      assert a[1..][x] == a[x + 1] && a[1..][y] == a[y + 1];
    }
  }

  /** The first of an ordered sequence precedes everything in it. */
  lemma SortedHead<T>(a: seq<T>, le: (T, T) -> bool, x: T)
    requires SortedPairs(a, le) && x in a
    ensures x == a[0] || le(a[0], x)
  {
    var i :| 0 <= i < |a| && a[i] == x;
  }

  /** Ordered sequences with the same elements under an antisymmetric order are equal. */
  lemma {:induction false} SortedUnique<T(!new)>(a: seq<T>, b: seq<T>, le: (T, T) -> bool)
    requires Antisymmetric(le) && SortedPairs(a, le) && SortedPairs(b, le)
    requires multiset(a) == multiset(b)
    ensures a == b
    decreases |a|
  {
    if a != [] {
      SortedHeadsAgree(a, b, le);
      TailsAgree(a, b);
      SortedPairsTail(a, le);
      SortedPairsTail(b, le);
      SortedUnique(a[1..], b[1..], le);
      assert a == [a[0]] + a[1..] && b == [b[0]] + b[1..];
    }
  }

  lemma SortedHeadsAgree<T(!new)>(a: seq<T>, b: seq<T>, le: (T, T) -> bool)
    requires Antisymmetric(le) && SortedPairs(a, le) && SortedPairs(b, le)
    requires multiset(a) == multiset(b) && a != []
    ensures b != [] && a[0] == b[0]
  {
    assert |b| == |multiset(b)| == |multiset(a)| == |a|;
    assert b[0] in multiset(a) && a[0] in multiset(b);
    SortedHead(a, le, b[0]);
    SortedHead(b, le, a[0]);
  }

  lemma TailsAgree<T>(a: seq<T>, b: seq<T>)
    requires multiset(a) == multiset(b) && a != [] && b != [] && a[0] == b[0]
    ensures multiset(a[1..]) == multiset(b[1..])
  {
    assert a == [a[0]] + a[1..] && b == [b[0]] + b[1..];
    assert multiset(a[1..]) == multiset(a) - multiset{a[0]};
    assert multiset(b[1..]) == multiset(b) - multiset{b[0]};
  }

  lemma MultisetExt<T>(a: multiset<T>, b: multiset<T>)
    requires forall x :: a[x] == b[x]
    ensures a == b
  {
  }

  /** Filtering commutes with reordering. */
  lemma FilterPermutation<T>(a: seq<T>, b: seq<T>, p: T -> bool)
    requires multiset(a) == multiset(b)
    ensures multiset(Filter(a, p)) == multiset(Filter(b, p))
  {
    var fa, fb := multiset(Filter(a, p)), multiset(Filter(b, p));
    forall x
      ensures fa[x] == fb[x]
    {
      FilterCount(a, p, x);
      FilterCount(b, p, x);
    }
    MultisetExt(fa, fb);
  }

  /** A filter and the filter of the opposite predicate share out the elements. */
  lemma FilterPartition<T>(s: seq<T>, p: T -> bool, notP: T -> bool)
    requires forall x :: notP(x) == !p(x)
    ensures multiset(Filter(s, p)) + multiset(Filter(s, notP)) == multiset(s)
  {
    var both, all := multiset(Filter(s, p)) + multiset(Filter(s, notP)), multiset(s);
    forall x
      ensures both[x] == all[x]
    {
      FilterCount(s, p, x);
      FilterCount(s, notP, x);
    }
    MultisetExt(both, all);
  }

  /** In a sequence of distinct elements each element occurs once. */
  lemma {:induction false} DistinctOnce<T>(s: seq<T>, x: T)
    requires Distinct(s)
    ensures multiset(s)[x] <= 1
    decreases |s|
  {
    if s != [] {
      var init := s[..|s| - 1];
      assert s == init + [s[|s| - 1]];
      DistinctOnce(init, x);
      if s[|s| - 1] == x {
        assert x !in init;
      }
    }
  }

  /** A reordering of distinct elements is distinct. */
  lemma DistinctPermutation<T>(a: seq<T>, b: seq<T>)
    requires Distinct(a) && multiset(a) == multiset(b)
    ensures Distinct(b)
  {
    forall i, j | 0 <= i < j < |b|
      ensures b[i] != b[j]
    {
      if b[i] == b[j] {
        var x := b[i];
        assert b == b[..j] + [x] + b[j + 1..];
        assert x in b[..j];
        assert multiset(b)[x] >= 2;
        DistinctOnce(a, x);
      }
    }
  }

  /** The first position of `x` in `s`. */
  function Position<T(==)>(s: seq<T>, x: T): (r: nat)
    requires x in s
    ensures r < |s| && s[r] == x && x !in s[..r]
  {
    if s[0] == x then 0
    else
      assert x in s[1..];
      var j := Position(s[1..], x);
      assert s[..j + 1] == [s[0]] + s[1..][..j];
      j + 1
  }

  /** In a sequence of distinct elements an element's position is its index. */
  lemma PositionDistinct<T>(s: seq<T>, i: nat)
    requires Distinct(s) && i < |s|
    ensures Position(s, s[i]) == i
  {
  }

  /** A sum over the kept elements is the sum with the others counted as zero. */
  lemma {:induction false} SumFilter<T>(s: seq<T>, p: T -> bool, f: T -> real, g: T -> real)
    requires forall x :: g(x) == if p(x) then f(x) else 0.0
    ensures SumOf(Filter(s, p), f) == SumOf(s, g)
    decreases |s|
  {
    if s != [] {
      var init, last := s[..|s| - 1], s[|s| - 1];
      SumFilter(init, p, f, g);
      SumAppend(Filter(init, p), if p(last) then [last] else [], f);
      SumSingle(last, f);
    }
  }

  /**
   * Changing a function at one element by `d` changes a sum over distinct
   * elements by `d` when that element is present, and not at all otherwise.
   */
  lemma {:induction false} SumBump<T>(s: seq<T>, f: T -> real, g: T -> real, x: T, d: real)
    requires Distinct(s)
    requires forall y :: y != x ==> g(y) == f(y)
    requires g(x) == f(x) + d
    ensures SumOf(s, g) == SumOf(s, f) + (if x in s then d else 0.0)
    decreases |s|
  {
    if s != [] {
      var init := s[..|s| - 1];
      assert s == init + [s[|s| - 1]];
      assert Distinct(init);
      SumBump(init, f, g, x, d);
    }
  }

  /** Sums over two sequences that agree term by term are equal. */
  lemma {:induction false} SumPointwise<A, B>(a: seq<A>, f: A -> real, b: seq<B>, g: B -> real)
    requires |a| == |b| && forall i :: 0 <= i < |a| ==> f(a[i]) == g(b[i])
    ensures SumOf(a, f) == SumOf(b, g)
    decreases |a|
  {
    if a != [] {
      SumPointwise(a[..|a| - 1], f, b[..|b| - 1], g);
    }
  }

  /** Distinct sequences with the same elements are reorderings of each other. */
  lemma DistinctSameElements<T>(a: seq<T>, b: seq<T>)
    requires Distinct(a) && Distinct(b)
    requires forall x :: x in a <==> x in b
    ensures multiset(a) == multiset(b)
  {
    forall x
      ensures multiset(a)[x] == multiset(b)[x]
    {
      DistinctOnce(a, x);
      DistinctOnce(b, x);
      if x in a {
        assert x in b;
        assert x in multiset(a) && x in multiset(b);
      } else {
        assert x !in b;
        assert x !in multiset(a) && x !in multiset(b);
      }
    }
    MultisetExt(multiset(a), multiset(b));
  }

  /** A reordering has the same images. */
  lemma MapPermutation<A, B>(a: seq<A>, b: seq<A>, f: A -> B, y: B)
    requires multiset(a) == multiset(b)
    ensures y in Map(a, f) <==> y in Map(b, f)
  {
    if y in Map(a, f) {
      var i :| 0 <= i < |a| && Map(a, f)[i] == y;
      assert a[i] in multiset(b);
      var j :| 0 <= j < |b| && b[j] == a[i];
      assert Map(b, f)[j] == y;
    }
    if y in Map(b, f) {
      var j :| 0 <= j < |b| && Map(b, f)[j] == y;
      assert b[j] in multiset(a);
      var i :| 0 <= i < |a| && a[i] == b[j];
      assert Map(a, f)[i] == y;
    }
  }

  // ---------------------------------------------------------------------------
  // `Math.max(...s)` and `Math.min(...s)` over a non-empty list of numbers
  // ---------------------------------------------------------------------------

  function MaxOf(s: seq<real>): (m: real)
    requires |s| > 0
    ensures forall i :: 0 <= i < |s| ==> s[i] <= m
    ensures m in s
    decreases |s|
  {
    if |s| == 1 then s[0]
    else
      var rest := MaxOf(s[..|s| - 1]);
      if s[|s| - 1] > rest then s[|s| - 1] else rest
  }

  function MinOf(s: seq<real>): (m: real)
    requires |s| > 0
    ensures forall i :: 0 <= i < |s| ==> m <= s[i]
    ensures m in s
    decreases |s|
  {
    if |s| == 1 then s[0]
    else
      var rest := MinOf(s[..|s| - 1]);
      if s[|s| - 1] < rest then s[|s| - 1] else rest
  }

  // ---------------------------------------------------------------------------
  // Toggling membership in a selection list
  // ---------------------------------------------------------------------------

  /** `s.includes(x) ? s.filter(y => y !== x) : [...s, x]`. */
  function Toggle<T(==,!new)>(s: seq<T>, x: T): (r: seq<T>)
    ensures x in r <==> x !in s
    ensures forall y :: y != x ==> (y in r <==> y in s)
  {
    var keep := (y: T) => y != x;
    forall y ensures y in Filter(s, keep) <==> y in s && y != x {
      FilterMembership(s, keep, y);
    }
    if x in s then Filter(s, keep) else s + [x]
  }

  /** Toggling the same item twice restores what is selected. */
  lemma ToggleTwice<T(!new)>(s: seq<T>, x: T, y: T)
    ensures y in Toggle(Toggle(s, x), x) <==> y in s
  {
  }

  /** A list without repeats stays without repeats. */
  lemma {:induction false} ToggleDistinct<T(!new)>(s: seq<T>, x: T)
    requires Distinct(s)
    ensures Distinct(Toggle(s, x))
  {
    if x in s {
      var keep := (y: T) => y != x;
      FilterDistinct(s, keep);
    }
  }

  lemma {:induction false} FilterDistinct<T>(s: seq<T>, p: T -> bool)
    requires Distinct(s)
    ensures Distinct(Filter(s, p))
    decreases |s|
  {
    if s != [] {
      var init, last := s[..|s| - 1], s[|s| - 1];
      assert Distinct(init);
      FilterDistinct(init, p);
      if p(last) {
        FilterMembership(init, p, last);
        assert last !in init;
      }
    }
  }
}

/** Optional values, for the fields a request may leave undefined. */
module Wrappers {
  datatype Option<+T> = None | Some(value: T)
}

/**
 * Sequence operations the application takes from JavaScript arrays:
 * `filter`, a stable `sort` driven by a comparator, and `slice`.
 * Every list is filtered and summed from its end, so that a loop running
 * over a prefix `s[..i]` meets the same definitions.
 */
module Sequences {

  /** The elements of `s` that satisfy `p`, in their original order (`Array.prototype.filter`). */
  function Filter<T>(s: seq<T>, p: T -> bool): (r: seq<T>)
    ensures |r| <= |s|
    ensures forall i :: 0 <= i < |r| ==> p(r[i])
  {
    if s == [] then []
    else
      Filter(s[..|s| - 1], p) + (if p(s[|s| - 1]) then [s[|s| - 1]] else [])
  }

  /** `x` survives the filter exactly when it is in `s` and passes `p`. */
  lemma {:induction false} FilterMembership<T>(s: seq<T>, p: T -> bool, x: T)
    ensures x in Filter(s, p) <==> x in s && p(x)
  {
    if s != [] {
      var init, last := s[..|s| - 1], s[|s| - 1];
      FilterMembership(init, p, x);
      assert s == init + [last];
    }
  }

  lemma FilterSnoc<T>(s: seq<T>, x: T, p: T -> bool)
    ensures Filter(s + [x], p) == Filter(s, p) + (if p(x) then [x] else [])
  {
    assert (s + [x])[..|s|] == s;
  }

  lemma {:induction false} FilterAll<T>(s: seq<T>, p: T -> bool)
    requires All(s, p)
    ensures Filter(s, p) == s
  {
    if s != [] {
      var init := s[..|s| - 1];
      assert All(init, p) by {
        forall i | 0 <= i < |init| ensures p(init[i]) { assert init[i] == s[i]; }
      }
      FilterAll(init, p);
      assert p(s[|s| - 1]);
      assert s == init + [s[|s| - 1]];
    }
  }

  /** Every element satisfies `p`. */
  ghost predicate All<T>(s: seq<T>, p: T -> bool) {
    forall i :: 0 <= i < |s| ==> p(s[i])
  }

  /** `le(s[i], s[j])` whenever `s[i]` comes before `s[j]`. */
  ghost predicate SortedBy<T>(s: seq<T>, le: (T, T) -> bool) {
    forall i, j :: 0 <= i < j < |s| ==> le(s[i], s[j])
  }

  /**
   * A comparator `cmp` of `Array.prototype.sort` is read as the relation
   * `le(a, b) == (cmp(a, b) <= 0)`; the sorts of this application use
   * comparators for which that relation is total and transitive.
   */
  ghost predicate TotalPreorder<T(!new)>(le: (T, T) -> bool) {
    && (forall a, b :: le(a, b) || le(b, a))
    && (forall a, b, c :: le(a, b) && le(b, c) ==> le(a, c))
  }

  /** Inserts `x` after every element `y` of the sorted `s` with `le(y, x)`. */
  function Insert<T>(s: seq<T>, x: T, le: (T, T) -> bool): (r: seq<T>)
    ensures |r| == |s| + 1
    ensures multiset(r) == multiset(s) + multiset{x}
  {
    if s == [] || le(s[|s| - 1], x) then s + [x]
    else
      assert s == s[..|s| - 1] + [s[|s| - 1]];
      Insert(s[..|s| - 1], x, le) + [s[|s| - 1]]
  }

  /**
   * Stable insertion sort: the sorted permutation of `s` in which elements
   * that compare equal keep their original order, as `Array.prototype.sort`
   * guarantees since ECMAScript 2019.
   */
  function SortBy<T>(s: seq<T>, le: (T, T) -> bool): (r: seq<T>)
    ensures |r| == |s|
    ensures multiset(r) == multiset(s)
  {
    if s == [] then []
    else
      assert s == s[..|s| - 1] + [s[|s| - 1]];
      Insert(SortBy(s[..|s| - 1], le), s[|s| - 1], le)
  }

  lemma {:induction false} InsertSorted<T(!new)>(s: seq<T>, x: T, le: (T, T) -> bool)
    requires TotalPreorder(le)
    requires SortedBy(s, le)
    ensures SortedBy(Insert(s, x, le), le)
  {
    if s == [] || le(s[|s| - 1], x) {
    } else {
      var init, last := s[..|s| - 1], s[|s| - 1];
      InsertSorted(init, x, le);
      var r := Insert(init, x, le);
      forall y | y in r ensures le(y, last) {
        assert y in multiset(r);
        if y != x {
          assert y in multiset(init);
          var k :| 0 <= k < |init| && init[k] == y;
          assert s[k] == y;
        }
      }
      assert Insert(s, x, le) == r + [last];
      forall i, j | 0 <= i < j < |r| + 1 ensures le((r + [last])[i], (r + [last])[j]) {
        if j == |r| {
          assert r[i] in r;
        }
      }
    }
  }

  lemma {:induction false} SortBySorted<T(!new)>(s: seq<T>, le: (T, T) -> bool)
    requires TotalPreorder(le)
    ensures SortedBy(SortBy(s, le), le)
  {
    if s != [] {
      SortBySorted(s[..|s| - 1], le);
      InsertSorted(SortBy(s[..|s| - 1], le), s[|s| - 1], le);
    }
  }

  /** A comparator that always answers 0 leaves the order unchanged. */
  lemma {:induction false} SortByConstant<T>(s: seq<T>, le: (T, T) -> bool)
    requires forall a, b :: le(a, b)
    ensures SortBy(s, le) == s
  {
    if s != [] {
      var init, last := s[..|s| - 1], s[|s| - 1];
      assert s == init + [last];
      SortByConstant(init, le);
      assert SortBy(s, le) == Insert(init, last, le);
    }
  }

  /** `s.slice(0, n)`: the first `n` elements, or all of them. */
  function Take<T>(s: seq<T>, n: nat): (r: seq<T>)
    ensures |r| == if |s| < n then |s| else n
    ensures r <= s
  {
    if |s| <= n then s else s[..n]
  }

  /** A prefix of a sorted sequence is sorted and comes before everything it leaves out. */
  lemma TakeSorted<T>(s: seq<T>, n: nat, le: (T, T) -> bool)
    requires SortedBy(s, le)
    ensures var r := Take(s, n);
      && SortedBy(r, le)
      && forall i, j | 0 <= i < |r| <= j < |s| :: le(r[i], s[j])
  {
    var r := Take(s, n);
    forall i, j | 0 <= i < j < |r| ensures le(r[i], r[j]) {
      assert r[i] == s[i] && r[j] == s[j];
    }
    forall i, j | 0 <= i < |r| <= j < |s| ensures le(r[i], s[j]) {
      assert r[i] == s[i];
    }
  }

  /** `s.slice(-n)` for `n > 0`: the last `n` elements, or all of them. */
  function TakeLast<T>(s: seq<T>, n: nat): (r: seq<T>)
    ensures |r| == if |s| < n then |s| else n
    ensures s == s[..|s| - |r|] + r
  {
    if |s| <= n then s else s[|s| - n..]
  }

  /** The elements of `s` are pairwise distinct. */
  ghost predicate Distinct<T>(s: seq<T>) {
    forall i, j :: 0 <= i < j < |s| ==> s[i] != s[j]
  }

  /** Filtering keeps distinct elements distinct. */
  lemma {:induction false} FilterDistinct<T>(s: seq<T>, p: T -> bool)
    requires Distinct(s)
    ensures Distinct(Filter(s, p))
  {
    if s != [] {
      var init, last := s[..|s| - 1], s[|s| - 1];
      assert Distinct(init);
      FilterDistinct(init, p);
      var f := Filter(init, p);
      forall i | 0 <= i < |f| ensures f[i] != last {
        assert f[i] in f;
        FilterMembership(init, p, f[i]);
        var k :| 0 <= k < |init| && init[k] == f[i];
        assert s[k] == init[k];
      }
    }
  }

  /** In a sequence of distinct elements each element occurs at most once. */
  lemma {:induction false} DistinctCount<T>(s: seq<T>, x: T)
    requires Distinct(s)
    ensures multiset(s)[x] <= 1
  {
    if s != [] {
      var init, last := s[..|s| - 1], s[|s| - 1];
      assert s == init + [last];
      assert Distinct(init);
      DistinctCount(init, x);
      if last == x {
        assert x !in init by {
          forall k | 0 <= k < |init| ensures init[k] != x { assert init[k] == s[k]; }
        }
      }
    }
  }

  /** Every rearrangement of distinct elements is made of distinct elements. */
  lemma DistinctPermutation<T>(s: seq<T>, r: seq<T>)
    requires Distinct(s)
    requires multiset(r) == multiset(s)
    ensures Distinct(r)
  {
    forall i, j | 0 <= i < j < |r| ensures r[i] != r[j] {
      if r[i] == r[j] {
        var x := r[i];
        assert r == r[..j] + [x] + r[j + 1..];
        assert x in r[..j];
        assert multiset(r)[x] >= 2;
        DistinctCount(s, x);
      }
    }
  }

  /** Sum of `f` over the elements of `s`, added from the front. */
  function SumOf<T>(s: seq<T>, f: T -> real): real {
    if s == [] then 0.0 else SumOf(s[..|s| - 1], f) + f(s[|s| - 1])
  }

  lemma {:induction false} SumOfConcat<T>(a: seq<T>, b: seq<T>, f: T -> real)
    ensures SumOf(a + b, f) == SumOf(a, f) + SumOf(b, f)
  {
    if b == [] {
      assert a + b == a;
    } else {
      var init, last := b[..|b| - 1], b[|b| - 1];
      SumOfConcat(a, init, f);
      assert (a + b)[..|a + b| - 1] == a + init;
      assert (a + b)[|a + b| - 1] == last;
    }
  }

  /** A sum does not depend on the order of its terms. */
  lemma {:induction false} SumOfPermutation<T>(s: seq<T>, r: seq<T>, f: T -> real)
    requires multiset(r) == multiset(s)
    ensures SumOf(r, f) == SumOf(s, f)
  {
    if s == [] {
      assert |r| == |multiset(r)| == 0;
    } else {
      var init, x := s[..|s| - 1], s[|s| - 1];
      assert multiset(init) == multiset(s) - multiset{x} by {
        assert s == init + [x];
      }
      assert x in multiset(r);
      var k :| 0 <= k < |r| && r[k] == x;
      var rest := r[..k] + r[k + 1..];
      RemoveAt(r, k);
      SumOfRemoveAt(r, k, f);
      SumOfPermutation(init, rest, f);
    }
  }

  /** Taking out the element at `k` takes it out of the multiset. */
  lemma RemoveAt<T>(r: seq<T>, k: nat)
    requires k < |r|
    ensures multiset(r[..k] + r[k + 1..]) == multiset(r) - multiset{r[k]}
  {
    assert r == r[..k] + [r[k]] + r[k + 1..];
  }

  /** Taking out the element at `k` takes its term out of the sum. */
  lemma SumOfRemoveAt<T>(r: seq<T>, k: nat, f: T -> real)
    requires k < |r|
    ensures SumOf(r, f) == SumOf(r[..k] + r[k + 1..], f) + f(r[k])
  {
    var before, x, after := r[..k], r[k], r[k + 1..];
    assert r == before + ([x] + after);
    SumOfConcat(before, [x] + after, f);
    SumOfConcat([x], after, f);
    assert SumOf([x], f) == f(x) by {
      assert [x][..0] == [];
    }
    SumOfConcat(before, after, f);
  }
}

/**
 * The Kotlin collection operations the view models are built from:
 * `filter`, `map { it.id }`, the stable `sortedBy`, `distinct` and
 * `find`'s notion of "the first such element", written as recursive
 * functions with the properties the callers rely on.
 */
module Lists {

  /**
   * `s.filter { p(ctx, it) }`: the elements satisfying `p`, in their original
   * order. The predicate is a named function and `ctx` what the lambda of
   * the source captures, so that two filters with the same test are equal.
   */
  function Filter<C, T(!new)>(s: seq<T>, ctx: C, p: (C, T) -> bool): (r: seq<T>)
    ensures |r| <= |s|
    ensures forall x :: x in r <==> x in s && p(ctx, x)
    decreases |s|
  {
    if s == [] then []
    else
      (if p(ctx, s[0]) then [s[0]] else []) + Filter(s[1..], ctx, p)
  }

  /** Filtering keeps every occurrence of an accepted element and none of a rejected one. */
  lemma {:induction false} FilterCounts<C, T(!new)>(s: seq<T>, ctx: C, p: (C, T) -> bool)
    ensures forall x :: multiset(Filter(s, ctx, p))[x] == if p(ctx, x) then multiset(s)[x] else 0
    decreases |s|
  {
    if s != [] {
      FilterCounts(s[1..], ctx, p);
      assert s == [s[0]] + s[1..];
    }
  }

  /** A test no element passes leaves nothing. */
  lemma {:induction false} FilterNothingPasses<C, T(!new)>(s: seq<T>, ctx: C, p: (C, T) -> bool)
    requires forall i :: 0 <= i < |s| ==> !p(ctx, s[i])
    ensures Filter(s, ctx, p) == []
    decreases |s|
  {
    if s != [] {
      FilterNothingPasses(s[1..], ctx, p);
    }
  }

  /** `r` can be obtained from `s` by deleting elements (order is kept). */
  predicate IsSubsequence<T(==)>(r: seq<T>, s: seq<T>)
    decreases |s|
  {
    if s == [] then r == []
    else (r != [] && r[0] == s[0] && IsSubsequence(r[1..], s[1..])) || IsSubsequence(r, s[1..])
  }

  lemma {:induction false} FilterIsSubsequence<C, T(!new)>(s: seq<T>, ctx: C, p: (C, T) -> bool)
    ensures IsSubsequence(Filter(s, ctx, p), s)
    decreases |s|
  {
    if s != [] {
      FilterIsSubsequence(s[1..], ctx, p);
      var r := Filter(s, ctx, p);
      if p(ctx, s[0]) {
        assert r == [s[0]] + Filter(s[1..], ctx, p);
        assert r[1..] == Filter(s[1..], ctx, p);
      } else {
        assert r == Filter(s[1..], ctx, p);
      }
    }
  }

  /** Appending to the longer sequence keeps a subsequence a subsequence. */
  lemma {:induction false} SubsequenceExtend<T>(r: seq<T>, s: seq<T>, x: T)
    requires IsSubsequence(r, s)
    ensures IsSubsequence(r, s + [x])
    decreases |s|
  {
    if s == [] {
      assert IsSubsequence(r, (s + [x])[1..]);
    } else {
      assert (s + [x])[1..] == s[1..] + [x];
      if r != [] && r[0] == s[0] && IsSubsequence(r[1..], s[1..]) {
        SubsequenceExtend(r[1..], s[1..], x);
      } else {
        SubsequenceExtend(r, s[1..], x);
      }
    }
  }

  /** Appending the same element to both sides keeps a subsequence a subsequence. */
  lemma {:induction false} SubsequenceAppendBoth<T>(r: seq<T>, s: seq<T>, x: T)
    requires IsSubsequence(r, s)
    ensures IsSubsequence(r + [x], s + [x])
    decreases |s|
  {
    if s == [] {
      assert r == [];
      assert (r + [x])[1..] == [] && (s + [x])[1..] == [];
    } else {
      assert (s + [x])[1..] == s[1..] + [x];
      if r != [] && r[0] == s[0] && IsSubsequence(r[1..], s[1..]) {
        SubsequenceAppendBoth(r[1..], s[1..], x);
        assert (r + [x])[1..] == r[1..] + [x];
      } else {
        SubsequenceAppendBoth(r, s[1..], x);
      }
    }
  }

  /** Every non-decreasing key order. */
  predicate SortedByKey<T>(s: seq<T>, key: T -> int)
  {
    forall i, j :: 0 <= i < j < |s| ==> key(s[i]) <= key(s[j])
  }

  /** Places `x` before the first element whose key is not smaller. */
  function InsertByKey<T(!new)>(x: T, s: seq<T>, key: T -> int): (r: seq<T>)
    requires SortedByKey(s, key)
    ensures SortedByKey(r, key)
    ensures |r| == |s| + 1
    ensures r[0] == x || (s != [] && r[0] == s[0])
    decreases |s|
  {
    if s == [] then [x]
    else if key(x) <= key(s[0]) then
      SortedCons(x, s, key);
      [x] + s
    else
      SortedTail(s, key);
      var rest := InsertByKey(x, s[1..], key);
      SortedCons(s[0], rest, key);
      [s[0]] + rest
  }

  /** Inserting adds `x` and loses nothing. */
  lemma {:induction false} InsertByKeyPermutes<T(!new)>(x: T, s: seq<T>, key: T -> int)
    requires SortedByKey(s, key)
    ensures multiset(InsertByKey(x, s, key)) == multiset(s) + multiset{x}
    decreases |s|
  {
    if s != [] && key(x) > key(s[0]) {
      SortedTail(s, key);
      InsertByKeyPermutes(x, s[1..], key);
      assert s == [s[0]] + s[1..];
    }
  }

  lemma SortedTail<T>(s: seq<T>, key: T -> int)
    requires SortedByKey(s, key) && s != []
    ensures SortedByKey(s[1..], key)
  {
    forall i, j | 0 <= i < j < |s[1..]|
      ensures key(s[1..][i]) <= key(s[1..][j])
    {
      assert s[1..][i] == s[i + 1] && s[1..][j] == s[j + 1];
    }
  }

  /** A sorted sequence stays sorted under a new head whose key is not above the old head's. */
  lemma SortedCons<T>(y: T, t: seq<T>, key: T -> int)
    requires SortedByKey(t, key)
    requires t == [] || key(y) <= key(t[0])
    ensures SortedByKey([y] + t, key)
  {
    var r := [y] + t;
    forall i, j | 0 <= i < j < |r|
      ensures key(r[i]) <= key(r[j])
    {
      assert r[j] == t[j - 1];
      if i > 0 {
        assert r[i] == t[i - 1];
      }
    }
  }

  /** Kotlin's `sortedBy(key)`: an insertion sort, stable like the library's. */
  function SortByKey<T(!new)>(s: seq<T>, key: T -> int): (r: seq<T>)
    ensures SortedByKey(r, key)
    ensures multiset(r) == multiset(s)
    ensures |r| == |s|
    decreases |s|
  {
    if s == [] then []
    else
      assert s == [s[0]] + s[1..];
      InsertByKeyPermutes(s[0], SortByKey(s[1..], key), key);
      InsertByKey(s[0], SortByKey(s[1..], key), key)
  }

  /** Sorting neither adds nor drops an element. */
  lemma SortByKeySameMembers<T(!new)>(s: seq<T>, key: T -> int)
    ensures forall x :: x in SortByKey(s, key) <==> x in s
  {
    var r := SortByKey(s, key);
    assert forall x :: x in r <==> x in multiset(r);
    assert forall x :: x in s <==> x in multiset(s);
  }

  /** Sorting a list that is already in key order gives it back unchanged. */
  lemma {:induction false} SortByKeySortedIsIdentity<T(!new)>(s: seq<T>, key: T -> int)
    requires SortedByKey(s, key)
    ensures SortByKey(s, key) == s
    decreases |s|
  {
    if s != [] {
      var t := s[1..];
      SortedTail(s, key);
      SortByKeySortedIsIdentity(t, key);
      assert t == [] || key(s[0]) <= key(t[0]);
      assert InsertByKey(s[0], t, key) == [s[0]] + t;
      assert s == [s[0]] + t;
    }
  }

  /** The elements of `s` whose key is `k`, in order: what a stable sort must keep. */
  function WithKey<T>(s: seq<T>, key: T -> int, k: int): seq<T>
    decreases |s|
  {
    if s == [] then [] else (if key(s[0]) == k then [s[0]] else []) + WithKey(s[1..], key, k)
  }

  lemma {:induction false} InsertByKeyStable<T(!new)>(x: T, s: seq<T>, key: T -> int, k: int)
    requires SortedByKey(s, key)
    ensures WithKey(InsertByKey(x, s, key), key, k) == (if key(x) == k then [x] else []) + WithKey(s, key, k)
    decreases |s|
  {
    if s == [] {
      assert InsertByKey(x, s, key) == [x];
    } else if key(x) <= key(s[0]) {
      assert InsertByKey(x, s, key) == [x] + s;
      assert ([x] + s)[1..] == s;
    } else {
      var rest := InsertByKey(x, s[1..], key);
      assert InsertByKey(x, s, key) == [s[0]] + rest;
      InsertByKeyStable(x, s[1..], key, k);
      WithKeyCons(s[0], rest, key, k);
      WithKeyCons(s[0], s[1..], key, k);
      assert [s[0]] + s[1..] == s;
      if key(x) == k {
        assert key(s[0]) != k;
      }
    }
  }

  lemma WithKeyCons<T>(y: T, t: seq<T>, key: T -> int, k: int)
    ensures WithKey([y] + t, key, k) == (if key(y) == k then [y] else []) + WithKey(t, key, k)
  {
    assert ([y] + t)[1..] == t;
  }

  /** Stability: elements with equal keys keep their relative input order. */
  lemma {:induction false} SortByKeyStable<T(!new)>(s: seq<T>, key: T -> int, k: int)
    ensures WithKey(SortByKey(s, key), key, k) == WithKey(s, key, k)
    decreases |s|
  {
    if s != [] {
      SortByKeyStable(s[1..], key, k);
      InsertByKeyStable(s[0], SortByKey(s[1..], key), key, k);
    }
  }

  predicate NoDuplicates<T(==)>(s: seq<T>)
  {
    forall i, j :: 0 <= i < j < |s| ==> s[i] != s[j]
  }

  /** The position of the first occurrence of `x` in `s`. */
  function FirstIndex<T(==)>(s: seq<T>, x: T): (i: nat)
    requires x in s
    ensures i < |s| && s[i] == x
    ensures forall j :: 0 <= j < i ==> s[j] != x
    decreases |s|
  {
    if s[0] == x then 0 else 1 + FirstIndex(s[1..], x)
  }

  lemma FirstIndexUnique<T>(s: seq<T>, x: T, i: nat)
    requires i < |s| && s[i] == x
    requires forall j :: 0 <= j < i ==> s[j] != x
    ensures FirstIndex(s, x) == i
  {
    var f := FirstIndex(s, x);
    assert !(f < i) && !(i < f);
  }

  /** Kotlin's `distinct()`: keeps the first occurrence of each value. */
  function Distinct<T(==,!new)>(s: seq<T>): (r: seq<T>)
    ensures NoDuplicates(r)
    ensures forall x :: x in r <==> x in s
    decreases |s|
  {
    if s == [] then []
    else
      var init := s[..|s| - 1];
      var d := Distinct(init);
      assert s == init + [s[|s| - 1]];
      if s[|s| - 1] in d then d else d + [s[|s| - 1]]
  }

  /** `distinct()` lists values in the order of their first occurrence. */
  lemma {:induction false} DistinctFirstOccurrenceOrder<T(!new)>(s: seq<T>)
    ensures forall i, j :: 0 <= i < j < |Distinct(s)| ==>
      FirstIndex(s, Distinct(s)[i]) < FirstIndex(s, Distinct(s)[j])
    decreases |s|
  {
    if s != [] {
      var init := s[..|s| - 1];
      var y := s[|s| - 1];
      var d := Distinct(init);
      DistinctFirstOccurrenceOrder(init);
      assert s == init + [y];
      forall x | x in init
        ensures FirstIndex(s, x) == FirstIndex(init, x)
      {
        FirstIndexUnique(s, x, FirstIndex(init, x));
      }
      if y !in d {
        FirstIndexUnique(s, y, |s| - 1);
      }
    }
  }
}

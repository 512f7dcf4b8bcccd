/** `Array.prototype.sort` with a comparator that orders by a key, as the FAQ
    and schedule pages use it. The comparators of both pages are consistent
    total preorders, and `sort` is stable, so the result is determined: it is
    the stable insertion sort `InsertionSort` below. */
module Sorting {
  import opened Common

  /** A sort key compared lexicographically: `major` first, then `minor`. */
  datatype Rank = Rank(major: int, minor: int)

  predicate RankLe(a: Rank, b: Rank) {
    a.major < b.major || (a.major == b.major && a.minor <= b.minor)
  }

  ghost predicate SortedBy<T>(s: seq<T>, key: T -> Rank) {
    forall i, j :: 0 <= i < j < |s| ==> RankLe(key(s[i]), key(s[j]))
  }

  /** Inserts `x` after every element whose key is at most its own, scanning
      from the back: the step of a stable insertion sort. */
  function Insert<T>(s: seq<T>, x: T, key: T -> Rank): seq<T> {
    if s == [] then [x]
    else if RankLe(key(s[|s| - 1]), key(x)) then s + [x]
    else Insert(s[..|s| - 1], x, key) + [s[|s| - 1]]
  }

  /** Stable sort of `s` by `key`. */
  function InsertionSort<T>(s: seq<T>, key: T -> Rank): seq<T> {
    if s == [] then []
    else Insert(InsertionSort(s[..|s| - 1], key), s[|s| - 1], key)
  }

  lemma {:induction false} InsertPermutes<T>(s: seq<T>, x: T, key: T -> Rank)
    ensures multiset(Insert(s, x, key)) == multiset(s) + multiset{x}
  {
    if s != [] && !RankLe(key(s[|s| - 1]), key(x)) {
      InsertPermutes(s[..|s| - 1], x, key);
      assert s == s[..|s| - 1] + [s[|s| - 1]];
    }
  }

  /** The sorted list is a permutation of the input. */
  lemma {:induction false} InsertionSortPermutes<T>(s: seq<T>, key: T -> Rank)
    ensures multiset(InsertionSort(s, key)) == multiset(s)
  {
    if s != [] {
      var init, last := s[..|s| - 1], s[|s| - 1];
      var sorted := InsertionSort(init, key);
      InsertionSortPermutes(init, key);
      InsertPermutes(sorted, last, key);
      assert InsertionSort(s, key) == Insert(sorted, last, key);
      assert s == init + [last];
      assert multiset(s) == multiset(init) + multiset{last};
    }
  }

  lemma {:induction false} InsertSorted<T>(s: seq<T>, x: T, key: T -> Rank)
    requires SortedBy(s, key)
    ensures SortedBy(Insert(s, x, key), key)
  {
    if s != [] && !RankLe(key(s[|s| - 1]), key(x)) {
      var init, last := s[..|s| - 1], s[|s| - 1];
      InsertSorted(init, x, key);
      var r' := Insert(init, x, key);
      InsertPermutes(init, x, key);
      forall i | 0 <= i < |r'|
        ensures RankLe(key(r'[i]), key(last))
      {
        assert r'[i] in multiset(r');
        assert r'[i] in multiset(init) || r'[i] == x;
      }
    }
  }

  /** The sorted list is in non-decreasing key order. */
  lemma {:induction false} InsertionSortSorted<T>(s: seq<T>, key: T -> Rank)
    ensures SortedBy(InsertionSort(s, key), key)
  {
    if s != [] {
      InsertionSortSorted(s[..|s| - 1], key);
      InsertSorted(InsertionSort(s[..|s| - 1], key), s[|s| - 1], key);
    }
  }

  /** A filtered view of a sorted list is still sorted. */
  lemma {:induction false} FilterKeepsSorted<T(!new)>(s: seq<T>, p: T -> bool, key: T -> Rank)
    requires SortedBy(s, key)
    ensures SortedBy(Filter(s, p), key)
  {
    if s != [] {
      FilterKeepsSorted(s[1..], p, key);
      var rest := Filter(s[1..], p);
      if p(s[0]) {
        forall k | 0 <= k < |rest|
          ensures RankLe(key(s[0]), key(rest[k]))
        {
          assert rest[k] in s[1..];
        }
      }
    }
  }

  /** One shifting step of the insertion: `p[j - 1]` moves right past `x`. */
  lemma InsertShift<T>(p: seq<T>, j: nat, x: T, key: T -> Rank)
    requires 0 < j <= |p| && !RankLe(key(p[j - 1]), key(x))
    ensures Insert(p[..j], x, key) + p[j..] == Insert(p[..j - 1], x, key) + p[j - 1..]
  {
    assert p[..j][..j - 1] == p[..j - 1];
    assert p[j - 1..] == [p[j - 1]] + p[j..];
  }

  /** Inserts `a[i]` into the sorted prefix `a[..i]`, shifting larger elements right. */
  method InsertAt<T>(a: array<T>, i: nat, key: T -> Rank)
    requires i < a.Length
    modifies a
    ensures a[..i + 1] == Insert(old(a[..i]), old(a[i]), key)
    ensures a[i + 1..] == old(a[i + 1..])
  {
    var x := a[i];
    ghost var p, rest := a[..i], a[i + 1..];
    var j := i;
    assert p[..j] == p && p[j..] == [];
    assert a[..] == p[..j] + [a[j]] + p[j..] + rest;
    while j > 0 && !RankLe(key(a[j - 1]), key(x))
      invariant 0 <= j <= i
      invariant a[..] == p[..j] + [a[j]] + p[j..] + rest
      invariant Insert(p, x, key) == Insert(p[..j], x, key) + p[j..]
    {
      ghost var y := a[j];
      assert a[j - 1] == p[j - 1] by {
        assert a[..][j - 1] == (p[..j] + [y] + p[j..] + rest)[j - 1];
      }
      ShiftStep(p, j, y, rest);
      InsertShift(p, j, x, key);
      a[j] := a[j - 1];
      j := j - 1;
    }
    FillHole(p, j, a[j], x, rest);
    a[j] := x;
    InsertStop(p, j, x, key);
  }

  /** The array picture after one shift: the hole moves one place left. */
  lemma ShiftStep<T>(p: seq<T>, j: nat, y: T, rest: seq<T>)
    requires 0 < j <= |p|
    ensures (p[..j] + [y] + p[j..] + rest)[j := p[j - 1]] == p[..j - 1] + [p[j - 1]] + p[j - 1..] + rest
  {
    assert p[..j] == p[..j - 1] + [p[j - 1]];
    assert p[j - 1..] == [p[j - 1]] + p[j..];
  }

  /** Writing `x` into the hole completes the picture: the first `|p| + 1`
      slots hold `p` with `x` at `j`, and `rest` follows untouched. */
  lemma FillHole<T>(p: seq<T>, j: nat, y: T, x: T, rest: seq<T>)
    requires j <= |p|
    ensures (p[..j] + [y] + p[j..] + rest)[j := x][..|p| + 1] == p[..j] + [x] + p[j..]
    ensures (p[..j] + [y] + p[j..] + rest)[j := x][|p| + 1..] == rest
  {
    var front := p[..j] + [x] + p[j..];
    assert (p[..j] + [y] + p[j..] + rest)[j := x] == front + rest;
  }

  /** Where the scan stops, `x` goes right after the prefix. */
  lemma InsertStop<T>(p: seq<T>, j: nat, x: T, key: T -> Rank)
    requires j <= |p| && (j == 0 || RankLe(key(p[j - 1]), key(x)))
    ensures Insert(p[..j], x, key) == p[..j] + [x]
  {
    if j > 0 {
      assert p[..j][..j - 1] == p[..j - 1];
    }
  }

  /** `a.sort((x, y) => compare(key(x), key(y)))`, in place. */
  method SortInPlace<T>(a: array<T>, key: T -> Rank)
    modifies a
    ensures a[..] == InsertionSort(old(a[..]), key)
  {
    ghost var a0 := a[..];
    var i := 0;
    while i < a.Length
      invariant 0 <= i <= a.Length
      invariant a[..i] == InsertionSort(a0[..i], key)
      invariant a[i..] == a0[i..]
    {
      assert a0[..i + 1][..i] == a0[..i];
      InsertAt(a, i, key);
      i := i + 1;
    }
    assert a0[..a.Length] == a0;
  }
}

/** The array operations the storefront takes from the JavaScript runtime:
    `filter`, `slice`, `sort` with a comparator, and a run of identical
    calls. */
module Seqs {

  /** `s.filter(P)`: the elements of `s` that satisfy `P`, in their order. */
  function Filter<T(!new)>(P: T -> bool, s: seq<T>): (r: seq<T>)
    ensures |r| <= |s|
  {
    if s == [] then []
    else if P(s[0]) then [s[0]] + Filter(P, s[1..])
    else Filter(P, s[1..])
  }

  /** The filter keeps every occurrence of a passing element and none of a
      failing one. */
  lemma {:induction false} FilterCounts<T(!new)>(P: T -> bool, s: seq<T>)
    ensures forall x :: multiset(Filter(P, s))[x] == if P(x) then multiset(s)[x] else 0
    ensures forall x :: x in Filter(P, s) <==> x in s && P(x)
  {
    if s != [] {
      FilterCounts(P, s[1..]);
      assert s == [s[0]] + s[1..];
    }
  }

  /** The filter keeps the order of `s`. */
  lemma {:induction false} FilterIsSubsequence<T(!new)>(P: T -> bool, s: seq<T>)
    ensures IsSubsequence(Filter(P, s), s)
  {
    if s == [] {
      assert Picks([], s, []);
    } else {
      FilterIsSubsequence(P, s[1..]);
      var rest := Filter(P, s[1..]);
      var idx :| Picks(idx, s[1..], rest);
      var shifted := PicksInTail(idx, s, rest);
      if P(s[0]) {
        assert Picks([0] + shifted, s, [s[0]] + rest);
      }
    }
  }

  /** Positions picked from `s[1..]` are, one further on, positions of `s`. */
  lemma PicksInTail<T>(idx: seq<int>, s: seq<T>, r: seq<T>) returns (shifted: seq<int>)
    requires s != [] && Picks(idx, s[1..], r)
    ensures Picks(shifted, s, r)
    ensures forall k :: 0 <= k < |shifted| ==> shifted[k] >= 1
  {
    shifted := seq(|idx|, k requires 0 <= k < |idx| => idx[k] + 1);
  }

  /** `idx` lists increasing positions of `s` at which the elements of `r`
      stand, in order. */
  ghost predicate Picks<T>(idx: seq<int>, s: seq<T>, r: seq<T>) {
    && |idx| == |r|
    && (forall k :: 0 <= k < |idx| ==> 0 <= idx[k] < |s| && s[idx[k]] == r[k])
    && (forall k, l :: 0 <= k < l < |idx| ==> idx[k] < idx[l])
  }

  /** `r` is made of elements of `s` taken in their order, skipping some. */
  ghost predicate IsSubsequence<T>(r: seq<T>, s: seq<T>) {
    exists idx :: Picks(idx, s, r)
  }

  /** A prefix of a subsequence of `s` is a subsequence of `s`. */
  lemma PrefixIsSubsequence<T>(r: seq<T>, s: seq<T>, k: int)
    requires IsSubsequence(r, s)
    requires 0 <= k <= |r|
    ensures IsSubsequence(r[..k], s)
  {
    var idx :| Picks(idx, s, r);
    assert Picks(idx[..k], s, r[..k]);
  }

  /** A subsequence of a subsequence of `c` is a subsequence of `c`. */
  lemma SubsequenceTransitive<T>(a: seq<T>, b: seq<T>, c: seq<T>)
    requires IsSubsequence(a, b)
    requires IsSubsequence(b, c)
    ensures IsSubsequence(a, c)
  {
    var ia :| Picks(ia, b, a);
    var ib :| Picks(ib, c, b);
    var idx := seq(|ia|, k requires 0 <= k < |ia| => ib[ia[k]]);
    assert Picks(idx, c, a);
  }

  /** A filter that drops nothing gives back the whole sequence. */
  lemma {:induction false} FilterKeepsAll<T(!new)>(P: T -> bool, s: seq<T>)
    requires forall i :: 0 <= i < |s| ==> P(s[i])
    ensures Filter(P, s) == s
  {
    if s != [] {
      FilterKeepsAll(P, s[1..]);
    }
  }

  /** Two tests that agree on every element of `s` filter it alike. */
  lemma {:induction false} FilterAgrees<T(!new)>(P: T -> bool, Q: T -> bool, s: seq<T>)
    requires forall i :: 0 <= i < |s| ==> P(s[i]) == Q(s[i])
    ensures Filter(P, s) == Filter(Q, s)
  {
    if s != [] {
      FilterAgrees(P, Q, s[1..]);
    }
  }

  /** Filtering a sequence with one more element at its end. */
  lemma {:induction false} FilterAppend<T(!new)>(P: T -> bool, s: seq<T>, x: T)
    ensures Filter(P, s + [x]) == Filter(P, s) + (if P(x) then [x] else [])
  {
    if s != [] {
      assert (s + [x])[1..] == s[1..] + [x];
      FilterAppend(P, s[1..], x);
    } else {
      assert [x][1..] == [];
    }
  }

  /** One step of the filter, seen from position `k` of `s`. */
  lemma FilterTail<T(!new)>(P: T -> bool, s: seq<T>, k: int)
    requires 0 <= k < |s|
    ensures Filter(P, s[k..]) == if P(s[k]) then [s[k]] + Filter(P, s[k + 1..]) else Filter(P, s[k + 1..])
  {
    assert s[k..][1..] == s[k + 1..];
  }

  /** Indices passed to `slice` as ECMAScript resolves them: a negative one
      counts back from the end, and both are clamped to `[0, n]`. */
  function SliceIndex(i: int, n: nat): (r: nat)
    ensures r <= n
    ensures 0 <= i <= n ==> r == i
    ensures i > n ==> r == n
    ensures i < 0 ==> r == if n + i < 0 then 0 else n + i
  {
    if i < 0 then (if n + i < 0 then 0 else n + i)
    else if i > n then n
    else i
  }

  /** `s.slice(start, end)`. */
  function Slice<T>(s: seq<T>, start: int, end: int): (r: seq<T>)
    ensures |r| <= |s|
    ensures |r| == if SliceIndex(start, |s|) < SliceIndex(end, |s|)
                   then SliceIndex(end, |s|) - SliceIndex(start, |s|) else 0
    ensures forall i :: 0 <= i < |r| ==> r[i] == s[SliceIndex(start, |s|) + i]
  {
    var from, to := SliceIndex(start, |s|), SliceIndex(end, |s|);
    if from < to then s[from..to] else []
  }

  /** With non-negative bounds the slice is the window `[start, end)` cut
      off at the end of `s`, and never longer than `end - start`. */
  lemma SliceWindow<T>(s: seq<T>, start: int, end: int)
    requires 0 <= start <= end
    ensures |Slice(s, start, end)| <= end - start
    ensures start <= |s| ==> Slice(s, start, end) == s[start..if end <= |s| then end else |s|]
    ensures start >= |s| ==> Slice(s, start, end) == []
  {
  }

  /** `le(a, b)` stands for `comparator(a, b) <= 0`: `a` may come before
      `b`. A consistent comparator orders any two elements one way or the
      other, and transitively. */
  ghost predicate Total<T(!new)>(le: (T, T) -> bool) {
    forall a, b :: le(a, b) || le(b, a)
  }

  ghost predicate Transitive<T(!new)>(le: (T, T) -> bool) {
    forall a, b, c :: le(a, b) && le(b, c) ==> le(a, c)
  }

  /** Every element may stand before every element after it. */
  ghost predicate Ordered<T>(le: (T, T) -> bool, s: seq<T>) {
    forall i, j :: 0 <= i < j < |s| ==> le(s[i], s[j])
  }

  /** The test "ties with `c`" (the comparator returns 0 both ways), as a
      filter predicate. */
  function Ties<T>(le: (T, T) -> bool, c: T): T -> bool {
    y => le(y, c) && le(c, y)
  }

  /** `x` inserted into `s` from its right end: `x` moves left past every
      element that must not stand before it and stops at the first one that
      may. */
  function Insert<T>(le: (T, T) -> bool, s: seq<T>, x: T): seq<T> {
    if s == [] then [x]
    else if le(s[|s| - 1], x) then s + [x]
    else Insert(le, s[..|s| - 1], x) + [s[|s| - 1]]
  }

  /** Inserting adds `x` and drops nothing. */
  lemma {:induction false} InsertCounts<T>(le: (T, T) -> bool, s: seq<T>, x: T)
    ensures multiset(Insert(le, s, x)) == multiset(s) + multiset{x}
  {
    if s != [] && !le(s[|s| - 1], x) {
      InsertCounts(le, s[..|s| - 1], x);
      assert s == s[..|s| - 1] + [s[|s| - 1]];
    }
  }

  /** The insertion sort, taking the elements of `s` from left to right. */
  function InsertionSort<T>(le: (T, T) -> bool, s: seq<T>): seq<T> {
    if s == [] then [] else Insert(le, InsertionSort(le, s[..|s| - 1]), s[|s| - 1])
  }

  lemma {:induction false} InsertKeepsOrdered<T(!new)>(le: (T, T) -> bool, s: seq<T>, x: T)
    requires Total(le) && Transitive(le) && Ordered(le, s)
    ensures Ordered(le, Insert(le, s, x))
  {
    if s != [] && !le(s[|s| - 1], x) {
      var init, last := s[..|s| - 1], s[|s| - 1];
      InsertKeepsOrdered(le, init, x);
      InsertCounts(le, init, x);
      var r := Insert(le, init, x);
      forall i | 0 <= i < |r|
        ensures le(r[i], last)
      {
        assert r[i] in multiset(r);
        assert r[i] in multiset(init) || r[i] == x;
      }
    }
  }

  /** Inserting `x` keeps the elements that tie with `c` in their order, and
      puts `x` after them when it ties too: `x` never moves past an element
      it ties with. */
  lemma {:induction false} InsertStable<T(!new)>(le: (T, T) -> bool, s: seq<T>, x: T, c: T)
    requires Transitive(le)
    ensures Filter(Ties(le, c), Insert(le, s, x)) == Filter(Ties(le, c), s) + Filter(Ties(le, c), [x])
  {
    var E := Ties(le, c);
    FilterAppend(E, [], x);
    if s == [] {
    } else if le(s[|s| - 1], x) {
      FilterAppend(E, s, x);
    } else {
      var init, last := s[..|s| - 1], s[|s| - 1];
      InsertStable(le, init, x, c);
      FilterAppend(E, Insert(le, init, x), last);
      FilterAppend(E, init, last);
      FilterAppend(E, [], last);
      assert s == init + [last];
    }
  }

  /** With a consistent comparator, the insertion sort orders the sequence,
      keeps every element as often as it occurs, and is stable: the elements
      that tie with any `c` keep their original order. */
  lemma InsertionSortMeaning<T(!new)>(le: (T, T) -> bool, s: seq<T>)
    requires Total(le) && Transitive(le)
    ensures Ordered(le, InsertionSort(le, s))
    ensures multiset(InsertionSort(le, s)) == multiset(s)
    ensures forall c :: Filter(Ties(le, c), InsertionSort(le, s)) == Filter(Ties(le, c), s)
  {
    InsertionSortOrdered(le, s);
    InsertionSortCounts(le, s);
    forall c
      ensures Filter(Ties(le, c), InsertionSort(le, s)) == Filter(Ties(le, c), s)
    {
      InsertionSortStable(le, s, c);
    }
  }

  lemma {:induction false} InsertionSortOrdered<T(!new)>(le: (T, T) -> bool, s: seq<T>)
    requires Total(le) && Transitive(le)
    ensures Ordered(le, InsertionSort(le, s))
  {
    if s != [] {
      InsertionSortOrdered(le, s[..|s| - 1]);
      InsertKeepsOrdered(le, InsertionSort(le, s[..|s| - 1]), s[|s| - 1]);
    }
  }

  lemma {:induction false} InsertionSortStable<T(!new)>(le: (T, T) -> bool, s: seq<T>, c: T)
    requires Transitive(le)
    ensures Filter(Ties(le, c), InsertionSort(le, s)) == Filter(Ties(le, c), s)
  {
    if s != [] {
      var init, last := s[..|s| - 1], s[|s| - 1];
      InsertionSortStable(le, init, c);
      InsertStable(le, InsertionSort(le, init), last, c);
      FilterAppend(Ties(le, c), [], last);
      FilterAppend(Ties(le, c), init, last);
      assert s == init + [last];
    }
  }

  lemma {:induction false} InsertionSortCounts<T>(le: (T, T) -> bool, s: seq<T>)
    ensures multiset(InsertionSort(le, s)) == multiset(s)
  {
    if s != [] {
      var init, last := s[..|s| - 1], s[|s| - 1];
      InsertionSortCounts(le, init);
      InsertCounts(le, InsertionSort(le, init), last);
      assert multiset(s) == multiset(init) + multiset{last} by {
        assert s == init + [last];
      }
    }
  }

  /** `a.sort(comparator)`, in place: one insertion pass per element, so `a`
      ends up in the order of `InsertionSort`. */
  method SortInPlace<T>(a: array<T>, le: (T, T) -> bool)
    modifies a
    ensures a[..] == InsertionSort(le, old(a[..]))
    ensures multiset(a[..]) == multiset(old(a[..]))
  {
    ghost var input := a[..];
    var i := 0;
    while i < a.Length
      invariant 0 <= i <= a.Length
      invariant a[..i] == InsertionSort(le, input[..i])
      invariant a[i..] == input[i..]
    {
      assert input[..i + 1][..i] == input[..i];
      InsertAt(a, i, le);
      i := i + 1;
    }
    assert a[..] == a[..a.Length] && input == input[..a.Length];
    InsertionSortCounts(le, input);
  }

  /** One pass of the sort: inserts `a[i]` into `a[..i]` by swapping it
      leftwards, leaving the rest of the array as it was. */
  method InsertAt<T>(a: array<T>, i: int, le: (T, T) -> bool)
    requires 0 <= i < a.Length
    modifies a
    ensures a[..i + 1] == Insert(le, old(a[..i]), old(a[i]))
    ensures a[i + 1..] == old(a[i + 1..])
  {
    ghost var p := a[..i];
    ghost var x := a[i];
    ghost var rest := a[i + 1..];
    var j := i;
    assert a[..i + 1] == p[..j] + [x] + p[j..i];
    assert p[..j] == p && p[j..i] == [];
    while j > 0 && !le(a[j - 1], a[j])
      invariant 0 <= j <= i
      invariant a[..i + 1] == p[..j] + [x] + p[j..i]
      invariant a[i + 1..] == rest
      invariant Insert(le, p, x) == Insert(le, p[..j], x) + p[j..i]
    {
      SwapLeft(a[..i + 1], p, x, j, i);
      InsertStep(le, p, x, j, i);
      a[j - 1], a[j] := a[j], a[j - 1];
      j := j - 1;
    }
    InsertEnd(le, p, x, j, i);
  }

  /** Swapping `x` with the element before it moves it one place left. */
  lemma SwapLeft<T>(t: seq<T>, p: seq<T>, x: T, j: int, i: int)
    requires 0 < j <= i == |p| && t == p[..j] + [x] + p[j..i]
    ensures t[j] == x && t[j - 1] == p[j - 1]
    ensures t[j - 1 := t[j]][j := t[j - 1]] == p[..j - 1] + [x] + p[j - 1..i]
  {
  }

  /** While `x` must not stand after `p[j - 1]`, inserting into `p[..j]` is
      inserting into `p[..j - 1]` and putting `p[j - 1]` after the result. */
  lemma InsertStep<T>(le: (T, T) -> bool, p: seq<T>, x: T, j: int, i: int)
    requires 0 < j <= i == |p| && !le(p[j - 1], x)
    requires Insert(le, p, x) == Insert(le, p[..j], x) + p[j..i]
    ensures Insert(le, p, x) == Insert(le, p[..j - 1], x) + p[j - 1..i]
  {
    assert p[..j][..j - 1] == p[..j - 1];
    assert [p[j - 1]] + p[j..i] == p[j - 1..i];
  }

  /** Where the swapping stops, `x` has reached its place. */
  lemma InsertEnd<T>(le: (T, T) -> bool, p: seq<T>, x: T, j: int, i: int)
    requires 0 <= j <= i == |p| && (j == 0 || le(p[j - 1], x))
    requires Insert(le, p, x) == Insert(le, p[..j], x) + p[j..i]
    ensures Insert(le, p, x) == p[..j] + [x] + p[j..i]
  {
    if j > 0 {
      assert p[..j][j - 1] == p[j - 1];
    }
  }

  /** `n` copies of `x`. */
  function Repeat<T>(x: T, n: nat): (r: seq<T>)
    ensures |r| == n
    ensures forall i :: 0 <= i < n ==> r[i] == x
  {
    if n == 0 then [] else Repeat(x, n - 1) + [x]
  }
}

/**
 * Ordering by a numeric key, shared by the two rankings of the engine: the
 * date-idea candidates and the venue candidates are both sorted with a
 * comparator `(a, b) => key(b) - key(a)`, i.e. from the highest key down.
 */
module Sorting {

  /** `s` runs from the highest key to the lowest. */
  predicate SortedDesc<T>(s: seq<T>, key: T -> real) {
    forall i, j :: 0 <= i < j < |s| ==> key(s[i]) >= key(s[j])
  }

  /** No element occurs twice in `s`. */
  predicate Distinct<T(==)>(s: seq<T>) {
    forall i, j :: 0 <= i < j < |s| ==> s[i] != s[j]
  }

  /** How many elements of `s` have a key strictly above `v`. */
  function CountAbove<T>(s: seq<T>, key: T -> real, v: real): (n: nat)
    ensures n <= |s|
  {
    if s == [] then 0
    else CountAbove(s[..|s| - 1], key, v) + (if key(s[|s| - 1]) > v then 1 else 0)
  }

  lemma {:induction false} CountAboveAppend<T>(a: seq<T>, b: seq<T>, key: T -> real, v: real)
    ensures CountAbove(a + b, key, v) == CountAbove(a, key, v) + CountAbove(b, key, v)
    decreases |b|
  {
    if b == [] {
      assert a + b == a;
    } else {
      assert (a + b)[..|a + b| - 1] == a + b[..|b| - 1];
      CountAboveAppend(a, b[..|b| - 1], key, v);
    }
  }

  lemma {:induction false} CountAboveNone<T>(s: seq<T>, key: T -> real, v: real)
    requires forall i :: 0 <= i < |s| ==> key(s[i]) <= v
    ensures CountAbove(s, key, v) == 0
    decreases |s|
  {
    if s != [] {
      CountAboveNone(s[..|s| - 1], key, v);
    }
  }

  /** Taking the j-th element out of a list takes one copy of it out of its multiset. */
  lemma MultisetRemoveAt<T>(t: seq<T>, j: nat)
    requires j < |t|
    ensures multiset(t[..j] + t[j + 1..]) == multiset(t) - multiset{t[j]}
  {
    assert t == t[..j] + [t[j]] + t[j + 1..];
  }

  /** Taking the j-th element out of a list lowers the count by one exactly when that element beats `v`. */
  lemma CountAboveRemoveAt<T>(t: seq<T>, j: nat, key: T -> real, v: real)
    requires j < |t|
    ensures CountAbove(t, key, v) == CountAbove(t[..j] + t[j + 1..], key, v) + (if key(t[j]) > v then 1 else 0)
  {
    assert t == t[..j] + [t[j]] + t[j + 1..];
    CountAboveAppend(t[..j], [t[j]], key, v);
    CountAboveAppend(t[..j] + [t[j]], t[j + 1..], key, v);
    CountAboveAppend(t[..j], t[j + 1..], key, v);
    assert [t[j]][..0] == [];
  }

  /**
   * The last element of `s` sits at some position `j` of a rearrangement `t`,
   * and the rest of `s` is a rearrangement of `t` without that position.
   */
  lemma MatchingIndex<T>(s: seq<T>, t: seq<T>) returns (j: nat)
    requires multiset(s) == multiset(t) && s != []
    ensures j < |t| && t[j] == s[|s| - 1]
    ensures multiset(s[..|s| - 1]) == multiset(t[..j] + t[j + 1..])
  {
    var x := s[|s| - 1];
    assert s == s[..|s| - 1] + [x];
    assert x in multiset(t);
    j :| 0 <= j < |t| && t[j] == x;
    MultisetRemoveAt(t, j);
  }

  /** Rearranging a list does not change how many of its elements beat `v`. */
  lemma {:induction false} CountAbovePermutation<T>(s: seq<T>, t: seq<T>, key: T -> real, v: real)
    requires multiset(s) == multiset(t)
    ensures CountAbove(s, key, v) == CountAbove(t, key, v)
    decreases |s|
  {
    if s == [] {
      assert |t| == |multiset(t)| == 0;
    } else {
      var j := MatchingIndex(s, t);
      CountAbovePermutation(s[..|s| - 1], t[..j] + t[j + 1..], key, v);
      CountAboveRemoveAt(t, j, key, v);
    }
  }

  /** In a list sorted from the highest key down, fewer than k + 1 elements beat the k-th. */
  lemma CountAboveSorted<T>(s: seq<T>, key: T -> real, k: nat)
    requires SortedDesc(s, key) && k < |s|
    ensures CountAbove(s, key, key(s[k])) <= k
  {
    assert s == s[..k] + s[k..];
    CountAboveAppend(s[..k], s[k..], key, key(s[k]));
    CountAboveNone(s[k..], key, key(s[k]));
  }

  /** A prefix holds no element more often than the whole sequence. */
  lemma PrefixSubMultiset<T>(s: seq<T>, m: nat)
    requires m <= |s|
    ensures multiset(s[..m]) <= multiset(s)
  {
    assert s == s[..m] + s[m..];
  }

  /**
   * An element taken from the first `m` places of a sorted rearrangement of
   * `s` is an element of `s` that fewer than `m` elements of `s` beat.
   */
  lemma TopPoolMember<T>(s: seq<T>, sorted: seq<T>, key: T -> real, m: nat, x: T)
    requires multiset(sorted) == multiset(s) && SortedDesc(sorted, key)
    requires m <= |sorted| && x in sorted[..m]
    ensures x in s
    ensures CountAbove(s, key, key(x)) < m
  {
    var k :| 0 <= k < m && sorted[..m][k] == x;
    CountAboveSorted(sorted, key, k);
    CountAbovePermutation(s, sorted, key, key(x));
    assert x in multiset(sorted);
  }

  lemma {:induction false} DistinctMultiplicity<T>(s: seq<T>, x: T)
    requires Distinct(s)
    ensures multiset(s)[x] <= 1
    decreases |s|
  {
    if s != [] {
      var s' := s[..|s| - 1];
      assert s == s' + [s[|s| - 1]];
      DistinctMultiplicity(s', x);
      if x == s[|s| - 1] {
        assert forall i :: 0 <= i < |s'| ==> s'[i] != x;
        assert x !in s';
      }
    }
  }

  lemma PairMultiplicity<T>(t: seq<T>, i: nat, j: nat)
    requires i < j < |t|
    ensures multiset(t)[t[i]] >= 1 + (if t[j] == t[i] then 1 else 0)
  {
    assert t == t[..j] + [t[j]] + t[j + 1..];
    assert t[i] in t[..j];
  }

  /** Rearranging a list without repetitions gives a list without repetitions. */
  lemma DistinctPermutation<T>(s: seq<T>, t: seq<T>)
    requires multiset(s) == multiset(t) && Distinct(s)
    ensures Distinct(t)
  {
    forall i, j | 0 <= i < j < |t|
      ensures t[i] != t[j]
    {
      PairMultiplicity(t, i, j);
      DistinctMultiplicity(s, t[i]);
    }
  }

  /**
   * Inserts `x` into `s` the way one insertion-sort step does: `x` moves
   * left past every element with a strictly smaller key, so it stays behind
   * elements with an equal key (the sort is stable).
   */
  function Insert<T>(s: seq<T>, x: T, key: T -> real): (r: seq<T>)
    ensures |r| == |s| + 1
  {
    if s != [] && key(s[|s| - 1]) < key(x) then Insert(s[..|s| - 1], x, key) + [s[|s| - 1]]
    else s + [x]
  }

  /** Stable sort from the highest key down, by repeated insertion. */
  function SortDesc<T>(s: seq<T>, key: T -> real): (r: seq<T>)
    ensures |r| == |s|
  {
    if s == [] then [] else Insert(SortDesc(s[..|s| - 1], key), s[|s| - 1], key)
  }

  lemma {:induction false} InsertPermutation<T>(s: seq<T>, x: T, key: T -> real)
    ensures multiset(Insert(s, x, key)) == multiset(s) + multiset{x}
    decreases |s|
  {
    if s != [] && key(s[|s| - 1]) < key(x) {
      InsertPermutation(s[..|s| - 1], x, key);
      assert s == s[..|s| - 1] + [s[|s| - 1]];
    }
  }

  lemma {:induction false} InsertSorted<T>(s: seq<T>, x: T, key: T -> real)
    requires SortedDesc(s, key)
    ensures SortedDesc(Insert(s, x, key), key)
    decreases |s|
  {
    if s != [] && key(s[|s| - 1]) < key(x) {
      var init, last := s[..|s| - 1], s[|s| - 1];
      InsertSorted(init, x, key);
      InsertPermutation(init, x, key);
      var r := Insert(init, x, key);
      forall k | 0 <= k < |r|
        ensures key(r[k]) >= key(last)
      {
        assert r[k] in multiset(init) + multiset{x};
        if r[k] != x {
          assert r[k] in init;
        }
      }
    }
  }

  /** The sort specification orders from the highest key down. */
  lemma {:induction false} SortDescSorted<T>(s: seq<T>, key: T -> real)
    ensures SortedDesc(SortDesc(s, key), key)
    decreases |s|
  {
    if s != [] {
      SortDescSorted(s[..|s| - 1], key);
      InsertSorted(SortDesc(s[..|s| - 1], key), s[|s| - 1], key);
    }
  }

  /** The sort specification rearranges its input. */
  lemma {:induction false} SortDescPermutation<T>(s: seq<T>, key: T -> real)
    ensures multiset(SortDesc(s, key)) == multiset(s)
    decreases |s|
  {
    if s != [] {
      SortDescPermutation(s[..|s| - 1], key);
      InsertPermutation(SortDesc(s[..|s| - 1], key), s[|s| - 1], key);
      assert s == s[..|s| - 1] + [s[|s| - 1]];
    }
  }

  /**
   * `Insert` puts `x` at position `j` when every element from `j` on has a
   * smaller key and the one before `j`, if any, does not.
   */
  lemma {:induction false} InsertAt<T>(s: seq<T>, x: T, key: T -> real, j: nat)
    requires j <= |s|
    requires forall k :: j <= k < |s| ==> key(s[k]) < key(x)
    requires j == 0 || key(s[j - 1]) >= key(x)
    ensures Insert(s, x, key) == s[..j] + [x] + s[j..]
    decreases |s|
  {
    if j < |s| {
      var init := s[..|s| - 1];
      InsertAt(init, x, key, j);
      assert init[..j] == s[..j] && init[j..] + [s[|s| - 1]] == s[j..];
    }
  }

  /** What `InsertLeft` leaves in the array, read as one `Insert` on the first `i` cells. */
  lemma InsertStep<T>(before: seq<T>, after: seq<T>, i: nat, j: nat, key: T -> real)
    requires j <= i < |before| == |after| && after[j] == before[i]
    requires forall k :: 0 <= k < j ==> after[k] == before[k]
    requires forall k :: j < k <= i ==> after[k] == before[k - 1]
    requires forall k :: i < k < |after| ==> after[k] == before[k]
    requires forall k :: j <= k < i ==> key(before[k]) < key(before[i])
    requires j == 0 || key(before[j - 1]) >= key(before[i])
    ensures after[..i + 1] == Insert(before[..i], before[i], key)
    ensures after[i + 1..] == before[i + 1..]
  {
    InsertAt(before[..i], before[i], key, j);
    assert after[..i + 1] == before[..j] + [before[i]] + before[j..i];
  }

  /**
   * Moves `a[i]` left past every cell with a smaller key and returns where it
   * landed: one insertion step on `a[..i + 1]`.
   */
  method InsertLeft<T>(a: array<T>, i: nat, key: T -> real) returns (j: nat)
    requires i < a.Length
    modifies a
    ensures j <= i && a[j] == old(a[i])
    ensures forall k :: 0 <= k < j ==> a[k] == old(a[k])
    ensures forall k :: j < k <= i ==> a[k] == old(a[k - 1])
    ensures forall k :: i < k < a.Length ==> a[k] == old(a[k])
    ensures forall k :: j <= k < i ==> key(old(a[k])) < key(old(a[i]))
    ensures j == 0 || key(old(a[j - 1])) >= key(old(a[i]))
  {
    j := i;
    while j > 0 && key(a[j - 1]) < key(a[j])
      invariant 0 <= j <= i && a[j] == old(a[i])
      invariant forall k :: 0 <= k < j ==> a[k] == old(a[k])
      invariant forall k :: j < k <= i ==> a[k] == old(a[k - 1])
      invariant forall k :: i < k < a.Length ==> a[k] == old(a[k])
      invariant forall k :: j <= k < i ==> key(old(a[k])) < key(old(a[i]))
    {
      a[j - 1], a[j] := a[j], a[j - 1];
      j := j - 1;
    }
  }

  /**
   * In-place sort from the highest key down; the array ends up as the stable
   * order `SortDesc` gives, like the engine's stable `Array.prototype.sort`
   * with a descending comparator.
   */
  method SortByKeyDesc<T>(a: array<T>, key: T -> real)
    modifies a
    ensures a[..] == SortDesc(old(a[..]), key)
    ensures SortedDesc(a[..], key)
    ensures multiset(a[..]) == multiset(old(a[..]))
  {
    ghost var input := a[..];
    var i := 0;
    while i < a.Length
      invariant 0 <= i <= a.Length
      invariant a[..i] == SortDesc(input[..i], key)
      invariant a[i..] == input[i..]
    {
      ghost var before := a[..];
      assert before[i] == input[i] && before[i + 1..] == input[i + 1..];
      assert input[..i + 1][..i] == input[..i];
      var j := InsertLeft(a, i, key);
      InsertStep(before, a[..], i, j, key);
      assert a[i + 1..] == input[i + 1..];
      i := i + 1;
    }
    assert input[..i] == input;
    SortDescSorted(input, key);
    SortDescPermutation(input, key);
  }
}

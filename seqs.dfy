/**
 * The array operations the dashboard relies on, stated once over generic
 * sequences: `Array.prototype.filter` and the spread of a `Set` (which keeps
 * insertion order).
 */
module Seqs {

  /** `a` is obtained from `b` by deleting elements, keeping the order of the rest. */
  predicate IsSubsequence<T(==,!new)>(a: seq<T>, b: seq<T>)
    decreases |b|
  {
    if a == [] then true
    else if b == [] then false
    else if a[0] == b[0] then IsSubsequence(a[1..], b[1..])
    else IsSubsequence(a, b[1..])
  }

  /** No element occurs twice. */
  predicate NoDuplicates<T(==,!new)>(s: seq<T>)
  {
    forall i, j :: 0 <= i < j < |s| ==> s[i] != s[j]
  }

  /**
   * `s.filter(p)`: the elements satisfying `p`, in their original order, each
   * kept exactly as often as it occurs in `s`.
   */
  function Filter<T(==,!new)>(p: T -> bool, s: seq<T>): (r: seq<T>)
    ensures |r| <= |s|
    ensures IsSubsequence(r, s)
    ensures forall x :: multiset(r)[x] == if p(x) then multiset(s)[x] else 0
  {
    if s == [] then []
    else
      var rest := Filter(p, s[1..]);
      assert s == [s[0]] + s[1..];
      assert multiset(s) == multiset([s[0]]) + multiset(s[1..]);
      if p(s[0]) then
        assert ([s[0]] + rest)[1..] == rest;
        [s[0]] + rest
      else
        SkipHead(rest, s);
        rest
  }

  /** A subsequence of the tail is a subsequence of the whole. */
  lemma {:induction false} SkipHead<T(!new)>(a: seq<T>, b: seq<T>)
    requires b != [] && IsSubsequence(a, b[1..])
    ensures IsSubsequence(a, b)
    decreases |b|, 0
  {
    if a != [] && a[0] == b[0] {
      SubsequenceOfTail(a, b[1..]);
    }
  }

  /** Dropping the head of a subsequence keeps it a subsequence. */
  lemma {:induction false} SubsequenceOfTail<T(!new)>(a: seq<T>, b: seq<T>)
    requires a != [] && IsSubsequence(a, b)
    ensures IsSubsequence(a[1..], b)
    decreases |b|, 1
  {
    if a[0] == b[0] {
      if a[1..] != [] {
        SkipHead(a[1..], b);
      }
    } else {
      SubsequenceOfTail(a, b[1..]);
      if a[1..] != [] {
        SkipHead(a[1..], b);
      }
    }
  }

  /** `x` occurs in `s` iff it occurs at least once in its multiset. */
  lemma InMultiset<T(!new)>(s: seq<T>, x: T)
    ensures x in s <==> multiset(s)[x] > 0
  {
  }

  /** Filtering keeps an element iff it occurs in `s` and satisfies `p`. */
  lemma FilterMembers<T(!new)>(p: T -> bool, s: seq<T>, x: T)
    ensures x in Filter(p, s) <==> x in s && p(x)
  {
    InMultiset(Filter(p, s), x);
    InMultiset(s, x);
  }

  /** Filtering keeps the whole sequence exactly when every element satisfies `p`. */
  lemma {:induction false} FilterKeepsAll<T(!new)>(p: T -> bool, s: seq<T>)
    ensures |Filter(p, s)| == |s| <==> forall x :: x in s ==> p(x)
  {
    if s != [] {
      FilterKeepsAll(p, s[1..]);
      assert forall x :: x in s <==> x == s[0] || x in s[1..];
    }
  }

  /** Filtering keeps nothing exactly when no element satisfies `p`. */
  lemma {:induction false} FilterKeepsNone<T(!new)>(p: T -> bool, s: seq<T>)
    ensures |Filter(p, s)| == 0 <==> forall x :: x in s ==> !p(x)
  {
    if s != [] {
      FilterKeepsNone(p, s[1..]);
      assert forall x :: x in s <==> x == s[0] || x in s[1..];
    }
  }

  /**
   * Three filters with mutually exclusive tests select at most `|s|` elements
   * between them, and exactly `|s|` iff every element passes one of the tests.
   */
  lemma {:induction false} ThreeWaySplit<T(!new)>(p: T -> bool, q: T -> bool, u: T -> bool, s: seq<T>)
    requires forall x :: x in s ==> !(p(x) && q(x)) && !(p(x) && u(x)) && !(q(x) && u(x))
    ensures |Filter(p, s)| + |Filter(q, s)| + |Filter(u, s)| <= |s|
    ensures |Filter(p, s)| + |Filter(q, s)| + |Filter(u, s)| == |s| <==>
              forall x :: x in s ==> p(x) || q(x) || u(x)
  {
    if s != [] {
      assert forall x :: x in s <==> x == s[0] || x in s[1..];
      ThreeWaySplit(p, q, u, s[1..]);
    }
  }

  /** The position of the first occurrence of `x` in `s`. */
  function FirstIndex<T(==,!new)>(s: seq<T>, x: T): (i: nat)
    requires x in s
    ensures i < |s| && s[i] == x && x !in s[..i]
  {
    if s[0] == x then 0
    else
      var k := FirstIndex(s[1..], x);
      assert s[..k + 1] == [s[0]] + s[1..][..k];
      k + 1
  }

  /** The first occurrence of `x` is the only index with the property of `FirstIndex`. */
  lemma FirstIndexUnique<T(!new)>(s: seq<T>, x: T, i: nat)
    requires i < |s| && s[i] == x && x !in s[..i]
    ensures FirstIndex(s, x) == i
  {
  }

  /**
   * The elements of `s`, each once, at the position of its first occurrence:
   * what `[...new Set(s)]` yields, since a `Set` iterates in insertion order and
   * inserting an element already present does not move it.
   */
  function Distinct<T(==,!new)>(s: seq<T>): (r: seq<T>)
    ensures NoDuplicates(r)
    ensures forall x :: x in r <==> x in s
    ensures |r| <= |s|
  {
    if s == [] then []
    else
      var init := s[..|s| - 1];
      var d := Distinct(init);
      assert forall x :: x in s <==> x in init || x == s[|s| - 1];
      if s[|s| - 1] in d then d else d + [s[|s| - 1]]
  }

  /** `Distinct` lists the elements in the order of their first occurrence in `s`. */
  lemma {:induction false} DistinctInFirstOccurrenceOrder<T(!new)>(s: seq<T>, i: nat, j: nat)
    requires i < j < |Distinct(s)|
    ensures FirstIndex(s, Distinct(s)[i]) < FirstIndex(s, Distinct(s)[j])
  {
    var n := |s|;
    var init := s[..n - 1];
    var d := Distinct(init);
    var x, y := Distinct(s)[i], Distinct(s)[j];
    assert x in d;
    PrefixFirstIndex(s, x);
    if j < |d| {
      DistinctInFirstOccurrenceOrder(init, i, j);
      PrefixFirstIndex(s, y);
    } else {
      assert y == s[n - 1] && y !in init;
      FirstIndexUnique(s, y, n - 1);
    }
  }

  /** An element of all but the last position has the same first occurrence there as in `s`. */
  lemma PrefixFirstIndex<T(!new)>(s: seq<T>, x: T)
    requires s != [] && x in s[..|s| - 1]
    ensures FirstIndex(s, x) == FirstIndex(s[..|s| - 1], x)
  {
    var init := s[..|s| - 1];
    var k := FirstIndex(init, x);
    assert s[..k] == init[..k];
    FirstIndexUnique(s, x, k);
  }

  /** Appending one element to a sequence adds it to the distinct elements unless already there. */
  lemma DistinctSnoc<T(!new)>(s: seq<T>, x: T)
    ensures Distinct(s + [x]) == if x in Distinct(s) then Distinct(s) else Distinct(s) + [x]
  {
    assert (s + [x])[..|s|] == s;
  }

  /** One step of counting what a filter keeps. */
  lemma FilterLengthStep<T(!new)>(p: T -> bool, s: seq<T>)
    requires s != []
    ensures |Filter(p, s)| == (if p(s[0]) then 1 else 0) + |Filter(p, s[1..])|
  {
  }

  /** How many of `s`'s elements satisfy `p`, counted from position `k` on. */
  function Tally<T>(p: T -> bool, s: seq<T>, k: nat): nat
    requires k <= |s|
    decreases |s| - k
  {
    if k == |s| then 0 else (if p(s[k]) then 1 else 0) + Tally(p, s, k + 1)
  }

  /** A filter keeps as many elements as the tally counts. */
  lemma {:induction false} FilterLengthIsTally<T(!new)>(p: T -> bool, s: seq<T>, k: nat)
    requires k <= |s|
    ensures |Filter(p, s[k..])| == Tally(p, s, k)
    decreases |s| - k
  {
    if k < |s| {
      FilterLengthIsTally(p, s, k + 1);
      assert s[k..][1..] == s[k + 1..];
      FilterLengthStep(p, s[k..]);
    }
  }
}

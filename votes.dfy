/**
 * Counting over the sequence of row indices that one accumulator column
 * receives: `Count` is the content of one cell, `ColumnTotal` the sum of a
 * column over a band of rows.
 */
module Votes {
  /** Number of entries of `s` equal to `v`. */
  function Count(s: seq<int>, v: int): (n: nat)
    ensures n <= |s|
  {
    if s == [] then 0 else Count(s[..|s| - 1], v) + (if s[|s| - 1] == v then 1 else 0)
  }

  /** Number of entries of `s` that lie in [lo, hi). */
  function CountBetween(s: seq<int>, lo: int, hi: int): (n: nat)
    ensures n <= |s|
  {
    if s == [] then 0 else CountBetween(s[..|s| - 1], lo, hi) + (if lo <= s[|s| - 1] < hi then 1 else 0)
  }

  /** Sum of `Count(s, v)` over the rows v in [lo, hi). */
  function ColumnTotal(s: seq<int>, lo: int, hi: int): int
    decreases hi - lo
  {
    if hi <= lo then 0 else ColumnTotal(s, lo, hi - 1) + Count(s, hi - 1)
  }

  lemma CountSnoc(s: seq<int>, a: int, v: int)
    ensures Count(s + [a], v) == Count(s, v) + (if a == v then 1 else 0)
  {
    assert (s + [a])[..|s|] == s;
  }

  lemma {:induction false} ColumnTotalSnoc(s: seq<int>, a: int, lo: int, hi: int)
    ensures ColumnTotal(s + [a], lo, hi) == ColumnTotal(s, lo, hi) + (if lo <= a < hi then 1 else 0)
    decreases hi - lo
  {
    if hi > lo {
      ColumnTotalSnoc(s, a, lo, hi - 1);
      CountSnoc(s, a, hi - 1);
    }
  }

  /** A band of rows holds exactly the entries that fall into it. */
  lemma {:induction false} ColumnTotalIsCountBetween(s: seq<int>, lo: int, hi: int)
    ensures ColumnTotal(s, lo, hi) == CountBetween(s, lo, hi)
    decreases |s|
  {
    if s == [] {
      EmptyColumnTotal(lo, hi);
    } else {
      var t, a := s[..|s| - 1], s[|s| - 1];
      assert s == t + [a];
      ColumnTotalIsCountBetween(t, lo, hi);
      ColumnTotalSnoc(t, a, lo, hi);
    }
  }

  lemma {:induction false} EmptyColumnTotal(lo: int, hi: int)
    ensures ColumnTotal([], lo, hi) == 0
    decreases hi - lo
  {
    if hi > lo {
      EmptyColumnTotal(lo, hi - 1);
    }
  }

  /** When every entry lies in the band, the band holds all of them. */
  lemma {:induction false} CountBetweenAll(s: seq<int>, lo: int, hi: int)
    requires forall i :: 0 <= i < |s| ==> lo <= s[i] < hi
    ensures CountBetween(s, lo, hi) == |s|
    decreases |s|
  {
    if s != [] {
      CountBetweenAll(s[..|s| - 1], lo, hi);
    }
  }
}

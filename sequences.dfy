/**
 * Sequence helpers shared by the queue model: the `java.util.List` edits the
 * controller performs (`add(i, x)`, `addAll(i, xs)`, `remove(i)`), and the
 * ascending sort `Collections.sort` applies to a list of indexes.
 */
module Sequences {

  /** `list.remove(k)`: the element at `k` is dropped, later elements shift down. */
  function Delete<T>(s: seq<T>, k: int): (r: seq<T>)
    requires 0 <= k < |s|
    ensures |r| == |s| - 1
    ensures forall i :: 0 <= i < k ==> r[i] == s[i]
    ensures forall i :: k <= i < |r| ==> r[i] == s[i + 1]
  {
    s[..k] + s[k + 1..]
  }

  /** `list.addAll(k, xs)` (and `list.add(k, x)` with `xs == [x]`). */
  function InsertAt<T>(s: seq<T>, k: int, xs: seq<T>): (r: seq<T>)
    requires 0 <= k <= |s|
    ensures |r| == |s| + |xs|
    ensures r[..k] == s[..k]
    ensures r[k..k + |xs|] == xs
    ensures r[k + |xs|..] == s[k..]
  {
    s[..k] + xs + s[k..]
  }

  /** The positions `0, 1, ..., n - 1`. */
  function Range(n: nat): (r: seq<nat>)
    ensures |r| == n
    ensures forall i :: 0 <= i < n ==> r[i] == i
  {
    if n == 0 then [] else Range(n - 1) + [n - 1]
  }

  predicate Sorted(s: seq<int>)
  {
    forall i, j :: 0 <= i < j < |s| ==> s[i] <= s[j]
  }

  /** Sorted with no index occurring twice. */
  predicate StrictlySorted(s: seq<int>)
  {
    forall i, j :: 0 <= i < j < |s| ==> s[i] < s[j]
  }

  /** Inserts `x` into a sorted sequence, keeping it sorted. */
  function InsertSorted(x: int, s: seq<int>): (r: seq<int>)
    requires Sorted(s)
    ensures Sorted(r)
    ensures multiset(r) == multiset(s) + multiset{x}
    ensures r[0] == x || r[0] == s[0]
  {
    if s == [] || x <= s[0] then
      [x] + s
    else
      var rest := InsertSorted(x, s[1..]);
      assert s == [s[0]] + s[1..];
      assert s[0] <= rest[0] by {
        if rest[0] != x { assert s[0] <= s[1]; }
      }
      ConsSorted(s[0], rest);
      [s[0]] + rest
  }

  /** A value no larger than the head of a sorted sequence can go in front of it. */
  lemma ConsSorted(a: int, s: seq<int>)
    requires Sorted(s) && (s != [] ==> a <= s[0])
    ensures Sorted([a] + s)
  {
    var r := [a] + s;
    forall i, j | 0 <= i < j < |r| ensures r[i] <= r[j] {
      if i == 0 { assert s[0] <= s[j - 1]; }
    }
  }

  /** `Collections.sort` on a list of integers: an ascending permutation of `s`. */
  function SortAscending(s: seq<int>): (r: seq<int>)
    ensures Sorted(r)
    ensures multiset(r) == multiset(s)
  {
    if s == [] then []
    else
      assert s == [s[0]] + s[1..];
      InsertSorted(s[0], SortAscending(s[1..]))
  }

  /** A sorted sequence with repeated values dropped. */
  function Dedup(s: seq<int>): (r: seq<int>)
    requires Sorted(s)
    ensures StrictlySorted(r)
    ensures forall x :: x in r <==> x in s
    ensures |r| > 0 ==> |s| > 0 && r[0] == s[0]
  {
    if |s| <= 1 then s
    else if s[0] == s[1] then Dedup(s[1..])
    else
      var rest := Dedup(s[1..]);
      assert forall x :: x in rest ==> s[0] < x by {
        forall x | x in rest ensures s[0] < x {
          var j :| 0 <= j < |s[1..]| && s[1..][j] == x;
          assert s[0] <= s[1] <= s[1 + j];
        }
      }
      [s[0]] + rest
  }

  /** Insertion that appends when `k` is past the end. */
  function InsertClamped<T>(s: seq<T>, k: nat, xs: seq<T>): (r: seq<T>)
    ensures |r| == |s| + |xs|
    ensures k <= |s| ==> r == InsertAt(s, k, xs)
    ensures k > |s| ==> r == s + xs
  {
    if k <= |s| then InsertAt(s, k, xs) else s + xs
  }

  /** Removal that does nothing when `k` is past the end. */
  function DeleteIfPresent<T>(s: seq<T>, k: nat): (r: seq<T>)
    ensures k < |s| ==> r == Delete(s, k)
    ensures k >= |s| ==> r == s
  {
    if k < |s| then Delete(s, k) else s
  }

  /** No value occurs twice. */
  predicate Distinct(s: seq<int>)
  {
    forall i, j :: 0 <= i < j < |s| ==> s[i] != s[j]
  }

  lemma {:induction false} DistinctOccursOnce(s: seq<int>, x: int)
    requires Distinct(s)
    ensures multiset(s)[x] <= 1
  {
    if s != [] {
      assert s == [s[0]] + s[1..];
      assert Distinct(s[1..]);
      DistinctOccursOnce(s[1..], x);
      if x == s[0] {
        assert x !in s[1..];
      }
    }
  }

  /** A value at two positions occurs at least twice. */
  lemma TwoPositionsCountTwice(r: seq<int>, i: int, j: int)
    requires 0 <= i < j < |r| && r[i] == r[j]
    ensures multiset(r)[r[j]] >= 2
  {
    var x := r[j];
    assert r == r[..j] + r[j..];
    assert multiset(r) == multiset(r[..j]) + multiset(r[j..]);
    assert x in r[..j] by { assert r[..j][i] == x; }
    assert x in r[j..] by { assert r[j..][0] == x; }
  }

  /** Sorting indexes without repeats gives a strictly ascending sequence. */
  lemma DistinctSortsStrictly(s: seq<int>)
    requires Distinct(s)
    ensures StrictlySorted(SortAscending(s))
  {
    var r := SortAscending(s);
    forall i, j | 0 <= i < j < |r| ensures r[i] < r[j] {
      if r[i] == r[j] {
        TwoPositionsCountTwice(r, i, j);
        DistinctOccursOnce(s, r[j]);
      }
    }
  }
}

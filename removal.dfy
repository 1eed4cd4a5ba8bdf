/**
 * The removal loop of `LocalPlayback.remove` (`LocalPlayback.java` lines
 * 133-161) as a function of its inputs: the queue, the player's timeline, the
 * last known window, the sorted indexes, and the current index read once on
 * entry. The lemmas say which tracks it removes, where the window pointer ends
 * up, and what the promise is resolved with.
 */
module Removal {
  import opened Sequences

  /** Line 143: an index is skipped when it is the current item or outside the queue. */
  predicate Skipped(k: int, current: int, size: int)
  {
    k == current || k < 0 || k >= size
  }

  /** What the loop updates: the queue, the player's timeline, and `lastKnownWindow`. */
  datatype State<T, U> = State(queue: seq<T>, timeline: seq<U>, window: int)

  /** One iteration, lines 140-159. */
  function Step<T, U>(s: State<T, U>, k: int, current: int): (r: State<T, U>)
    ensures |r.queue| == if Skipped(k, current, |s.queue|) then |s.queue| else |s.queue| - 1
    ensures s.window - 1 <= r.window <= s.window
    ensures s.window <= 0 ==> r.window == s.window
  {
    if Skipped(k, current, |s.queue|) then s
    else State(Delete(s.queue, k), DeleteIfPresent(s.timeline, k), if k < s.window then s.window - 1 else s.window)
  }

  /** The whole loop over `ks`: the last index is handled first, the first one last. */
  function RemoveAll<T, U>(s: State<T, U>, ks: seq<int>, current: int): (r: State<T, U>)
    ensures |s.queue| - |ks| <= |r.queue| <= |s.queue|
    ensures s.window - |ks| <= r.window <= s.window
    decreases |ks|
  {
    if ks == [] then s else Step(RemoveAll(s, ks[1..], current), ks[0], current)
  }

  /** The loop's last iteration over a suffix of the indexes. */
  lemma RemoveAllSuffix<T, U>(s: State<T, U>, ks: seq<int>, i: int, current: int)
    requires 0 <= i < |ks|
    ensures RemoveAll(s, ks[i..], current) == Step(RemoveAll(s, ks[i + 1..], current), ks[i], current)
  {
    assert ks[i..][0] == ks[i] && ks[i..][1..] == ks[i + 1..];
  }

  /** What the promise sees: nothing, `resolve(null)`, or `resolve(index)`. */
  datatype Resolution = Unresolved | ResolvedNull | ResolvedIndex(index: int)

  /** Lines 145 and 152-154: only the iteration for the first index resolves. */
  function RemoveResolution<T, U>(s: State<T, U>, ks: seq<int>, current: int): (r: Resolution)
    ensures r == Unresolved <==> ks == []
    ensures r.ResolvedIndex? ==> r.index == ks[0] && 0 <= r.index < |s.queue| && r.index != current
  {
    if ks == [] then Unresolved
    else if Skipped(ks[0], current, |RemoveAll(s, ks[1..], current).queue|) then ResolvedNull
    else ResolvedIndex(ks[0])
  }

  /** The original positions, among `0 .. n - 1`, that the loop leaves in the queue, in order. */
  function Survivors(n: nat, ks: seq<int>, current: int): seq<nat>
  {
    RemoveAll(State(Range(n), Range(n), -1), ks, current).queue
  }

  /** The elements of `q` at the positions `ps`, in the order of `ps`. */
  function Pick<T>(q: seq<T>, ps: seq<nat>): (r: seq<T>)
    requires forall i :: 0 <= i < |ps| ==> ps[i] < |q|
    ensures |r| == |ps|
    ensures forall i :: 0 <= i < |ps| ==> r[i] == q[ps[i]]
  {
    seq(|ps|, i requires 0 <= i < |ps| => q[ps[i]])
  }

  predicate Below(ps: seq<nat>, n: nat)
  {
    forall i :: 0 <= i < |ps| ==> ps[i] < n
  }

  lemma SurvivorsUnfold(n: nat, ks: seq<int>, current: int)
    requires ks != []
    ensures var p := Survivors(n, ks[1..], current);
      Survivors(n, ks, current) == if Skipped(ks[0], current, |p|) then p else Delete(p, ks[0])
  {
  }

  /** Deleting from a strictly sorted sequence drops exactly the deleted value. */
  lemma DeleteStrictlySorted(s: seq<nat>, k: int)
    requires StrictlySorted(s) && 0 <= k < |s|
    ensures StrictlySorted(Delete(s, k))
    ensures forall p :: p in Delete(s, k) <==> p in s && p != s[k]
  {
    var d := Delete(s, k);
    forall p | p in s && p != s[k] ensures p in d {
      var i :| 0 <= i < |s| && s[i] == p;
      if i < k { assert d[i] == p; } else { assert d[i - 1] == p; }
    }
  }

  /** The survivors are increasing positions below `n`, no more of them than `n`. */
  lemma {:induction false} SurvivorsShape(n: nat, ks: seq<int>, current: int)
    ensures StrictlySorted(Survivors(n, ks, current))
    ensures Below(Survivors(n, ks, current), n)
    ensures |Survivors(n, ks, current)| <= n
  {
    if ks != [] {
      SurvivorsShape(n, ks[1..], current);
      SurvivorsUnfold(n, ks, current);
      var p := Survivors(n, ks[1..], current);
      if !Skipped(ks[0], current, |p|) {
        DeleteStrictlySorted(p, ks[0]);
      }
    }
  }

  /**
   * The loop does the same to any queue as to the list of its positions: the
   * resulting queue is the original one read at the surviving positions.
   */
  lemma {:induction false} RemoveAllPicksSurvivors<T, U>(s: State<T, U>, ks: seq<int>, current: int)
    ensures Below(Survivors(|s.queue|, ks, current), |s.queue|)
    ensures RemoveAll(s, ks, current).queue == Pick(s.queue, Survivors(|s.queue|, ks, current))
  {
    SurvivorsShape(|s.queue|, ks, current);
    if ks != [] {
      RemoveAllPicksSurvivors(s, ks[1..], current);
      SurvivorsUnfold(|s.queue|, ks, current);
      SurvivorsShape(|s.queue|, ks[1..], current);
      var p := Survivors(|s.queue|, ks[1..], current);
      var k := ks[0];
      if !Skipped(k, current, |p|) {
        var before := Pick(s.queue, p);
        assert Delete(before, k) == Pick(s.queue, Delete(p, k));
      }
    }
  }

  /**
   * When the queue and the timeline start in step, they end in step: the
   * timeline is read at the same surviving positions as the queue.
   */
  lemma {:induction false} TimelineStaysInStep<T, U>(s: State<T, U>, ks: seq<int>, current: int)
    requires |s.queue| == |s.timeline|
    ensures Below(Survivors(|s.queue|, ks, current), |s.timeline|)
    ensures RemoveAll(s, ks, current).timeline == Pick(s.timeline, Survivors(|s.queue|, ks, current))
    ensures |RemoveAll(s, ks, current).queue| == |RemoveAll(s, ks, current).timeline|
  {
    SurvivorsShape(|s.queue|, ks, current);
    RemoveAllPicksSurvivors(s, ks, current);
    if ks != [] {
      TimelineStaysInStep(s, ks[1..], current);
      RemoveAllPicksSurvivors(s, ks[1..], current);
      SurvivorsUnfold(|s.queue|, ks, current);
      SurvivorsShape(|s.queue|, ks[1..], current);
      var p := Survivors(|s.queue|, ks[1..], current);
      var k := ks[0];
      if !Skipped(k, current, |p|) {
        var before := Pick(s.timeline, p);
        assert Delete(before, k) == Pick(s.timeline, Delete(p, k));
      }
    }
  }

  /** Indexes all above `m` leave the positions `0 .. m` where they were. */
  lemma {:induction false} PrefixIntact(n: nat, ks: seq<int>, current: int, m: nat)
    requires m < n
    requires forall i :: 0 <= i < |ks| ==> ks[i] > m
    ensures |Survivors(n, ks, current)| > m
    ensures forall i :: 0 <= i <= m ==> Survivors(n, ks, current)[i] == i
  {
    if ks != [] {
      PrefixIntact(n, ks[1..], current, m);
      SurvivorsUnfold(n, ks, current);
    }
  }

  /**
   * Lines 139-150 for indexes without repeats: every index inside the queue is
   * removed except the current one, and nothing else is.
   */
  lemma {:induction false} RemovesExactlyTheIndexes(n: nat, ks: seq<int>, current: int)
    requires StrictlySorted(ks)
    ensures forall p :: p in Survivors(n, ks, current) <==> 0 <= p < n && (p !in ks || p == current)
  {
    if ks == [] {
      forall p | 0 <= p < n ensures p in Survivors(n, ks, current) {
        assert Survivors(n, ks, current)[p] == p;
      }
    } else {
      var rest := ks[1..];
      var k := ks[0];
      assert StrictlySorted(rest);
      assert forall i :: 0 <= i < |rest| ==> rest[i] > k;
      assert forall p :: p in ks <==> p == k || p in rest;
      assert k !in rest;
      RemovesExactlyTheIndexes(n, rest, current);
      SurvivorsUnfold(n, ks, current);
      SurvivorsShape(n, rest, current);
      var p := Survivors(n, rest, current);
      if Skipped(k, current, |p|) {
        if 0 <= k < n && k != current {
          PrefixIntact(n, rest, current, k);
        }
      } else {
        PrefixIntact(n, rest, current, k);
        DeleteStrictlySorted(p, k);
      }
    }
  }

  /** For indexes without repeats, the track at the current index is still in the queue. */
  lemma CurrentTrackSurvives<T, U>(s: State<T, U>, ks: seq<int>, current: int)
    requires StrictlySorted(ks)
    requires 0 <= current < |s.queue|
    ensures exists i :: 0 <= i < |RemoveAll(s, ks, current).queue| && RemoveAll(s, ks, current).queue[i] == s.queue[current]
  {
    RemovesExactlyTheIndexes(|s.queue|, ks, current);
    RemoveAllPicksSurvivors(s, ks, current);
    var ps := Survivors(|s.queue|, ks, current);
    assert current in ps;
    var i :| 0 <= i < |ps| && ps[i] == current;
    assert RemoveAll(s, ks, current).queue[i] == s.queue[current];
  }

  /**
   * Lines 156-159: the window pointer follows its track. If the track the
   * window pointed at survives, the window ends on that same track.
   */
  lemma {:induction false} WindowFollowsItsTrack<T, U>(s: State<T, U>, ks: seq<int>, current: int)
    requires 0 <= s.window < |s.queue|
    ensures var r := RemoveAll(s, ks, current); var ps := Survivors(|s.queue|, ks, current);
      s.window in ps ==> 0 <= r.window < |ps| && ps[r.window] == s.window
  {
    if ks != [] {
      var w := s.window;
      var r0 := RemoveAll(s, ks[1..], current);
      var p := Survivors(|s.queue|, ks[1..], current);
      var k := ks[0];
      WindowFollowsItsTrack(s, ks[1..], current);
      RemoveAllPicksSurvivors(s, ks[1..], current);
      assert |r0.queue| == |p|;
      SurvivorsUnfold(|s.queue|, ks, current);
      if !Skipped(k, current, |p|) && w in Delete(p, k) {
        SurvivorsShape(|s.queue|, ks[1..], current);
        DeleteStrictlySorted(p, k);
        assert w in p && w != p[k];
        assert p[r0.window] == w;
        if k < r0.window {
          assert Delete(p, k)[r0.window - 1] == w;
        } else {
          assert Delete(p, k)[r0.window] == w;
        }
      }
    }
  }

  /** With the window pointer at the track it names, it names that track afterwards too. */
  lemma WindowStillNamesItsTrack<T, U>(s: State<T, U>, ks: seq<int>, current: int)
    requires 0 <= s.window < |s.queue|
    requires s.window in Survivors(|s.queue|, ks, current)
    ensures var r := RemoveAll(s, ks, current);
      0 <= r.window < |r.queue| && r.queue[r.window] == s.queue[s.window]
  {
    WindowFollowsItsTrack(s, ks, current);
    RemoveAllPicksSurvivors(s, ks, current);
  }

  /** An unset window (`C.INDEX_UNSET`), or one at the first item, never moves. */
  lemma {:induction false} UnsetWindowStays<T, U>(s: State<T, U>, ks: seq<int>, current: int)
    requires s.window <= 0
    ensures RemoveAll(s, ks, current).window == s.window
  {
    if ks != [] {
      UnsetWindowStays(s, ks[1..], current);
    }
  }

  /**
   * For indexes without repeats, the promise is resolved with the lowest
   * index when it lies in the queue and is not current, with null when it
   * does not, and not at all when there are no indexes.
   */
  lemma ResolvesWithLowestIndex<T, U>(s: State<T, U>, ks: seq<int>, current: int)
    requires StrictlySorted(ks)
    ensures RemoveResolution(s, ks, current) ==
      if ks == [] then Unresolved
      else if Skipped(ks[0], current, |s.queue|) then ResolvedNull
      else ResolvedIndex(ks[0])
  {
    if ks != [] {
      var n := |s.queue|;
      var k := ks[0];
      RemoveAllPicksSurvivors(s, ks[1..], current);
      SurvivorsShape(n, ks[1..], current);
      if 0 <= k < n {
        assert forall i :: 0 <= i < |ks[1..]| ==> ks[1..][i] > k;
        PrefixIntact(n, ks[1..], current, k);
      }
    }
  }

  /** An index the loop removes (judged against the original queue) that lies below the window `w`. */
  predicate RemovedBelow(k: int, current: int, n: nat, w: int)
  {
    !Skipped(k, current, n) && k < w
  }

  /** How many of `ks` are removed below the window `w`. */
  function CountRemovedBelow(ks: seq<int>, current: int, n: nat, w: int): nat
  {
    if ks == [] then 0
    else (if RemovedBelow(ks[0], current, n, w) then 1 else 0) + CountRemovedBelow(ks[1..], current, n, w)
  }

  /** Increasing indexes above `lo` fit in the gap between `lo` and the window. */
  lemma {:induction false} CountRemovedBelowBound(ks: seq<int>, current: int, n: nat, w: int, lo: int)
    requires StrictlySorted(ks)
    requires forall i :: 0 <= i < |ks| ==> lo < ks[i]
    ensures CountRemovedBelow(ks, current, n, w) <= if lo < w then w - lo - 1 else 0
  {
    if ks != [] {
      var k := ks[0];
      assert forall i :: 0 <= i < |ks[1..]| ==> k < ks[1..][i];
      if RemovedBelow(k, current, n, w) {
        CountRemovedBelowBound(ks[1..], current, n, w, k);
      } else {
        CountRemovedBelowBound(ks[1..], current, n, w, lo);
        if k >= w {
          CountRemovedBelowBound(ks[1..], current, n, w, k);
        }
      }
    }
  }

  /** For strictly increasing indexes the count is the size of the set counted. */
  lemma {:induction false} CountIsCardinality(ks: seq<int>, current: int, n: nat, w: int)
    requires StrictlySorted(ks)
    ensures CountRemovedBelow(ks, current, n, w) == |set k | k in ks && RemovedBelow(k, current, n, w)|
  {
    if ks != [] {
      CountIsCardinality(ks[1..], current, n, w);
      var rest := set k | k in ks[1..] && RemovedBelow(k, current, n, w);
      var all := set k | k in ks && RemovedBelow(k, current, n, w);
      assert ks[0] !in rest;
      if RemovedBelow(ks[0], current, n, w) {
        assert all == rest + {ks[0]};
      } else {
        assert all == rest;
      }
    }
  }

  /**
   * Lines 156-159 for indexes without repeats: the window ends below where it
   * started by exactly the number of removed indexes under it.
   */
  lemma {:induction false} WindowDrift<T, U>(s: State<T, U>, ks: seq<int>, current: int)
    requires StrictlySorted(ks)
    ensures RemoveAll(s, ks, current).window == s.window - CountRemovedBelow(ks, current, |s.queue|, s.window)
  {
    if ks != [] {
      var n := |s.queue|;
      var w := s.window;
      var k := ks[0];
      var r := RemoveAll(s, ks[1..], current);
      WindowDrift(s, ks[1..], current);
      assert Skipped(k, current, |r.queue|) == Skipped(k, current, n) by {
        ResolvesWithLowestIndex(s, ks, current);
      }
      assert forall i :: 0 <= i < |ks[1..]| ==> k < ks[1..][i];
      CountRemovedBelowBound(ks[1..], current, n, w, k);
    }
  }

  /**
   * The loop as written, given a repeated index: removing position 1 of three
   * tracks twice removes the tracks at positions 1 and 2, although position 2
   * was never asked for.
   */
  lemma RepeatedIndexRemovesNeighbour()
    ensures 2 !in [1, 1]
    ensures Survivors(3, [1, 1], 0) == [0]
  {
    assert Survivors(3, [1], 0) == [0, 2] by {
      assert Survivors(3, [], 0) == [0, 1, 2];
    }
    SurvivorsUnfold(3, [1, 1], 0);
    assert [1, 1][1..] == [1];
  }

  /**
   * The loop as written, given index 0 three times while the track at
   * position 2 of four plays: the playing track is removed.
   */
  lemma RepeatedIndexRemovesCurrent()
    ensures Survivors(4, [0, 0, 0], 2) == [3]
  {
    assert Survivors(4, [0], 2) == [1, 2, 3] by {
      assert Survivors(4, [], 2) == [0, 1, 2, 3];
    }
    SurvivorsUnfold(4, [0, 0], 2);
    assert [0, 0][1..] == [0];
    assert Survivors(4, [0, 0], 2) == [2, 3];
    SurvivorsUnfold(4, [0, 0, 0], 2);
    assert [0, 0, 0][1..] == [0, 0];
  }

  /**
   * The corrected loop runs over the sorted indexes with repeats dropped: it
   * removes exactly the given indexes that lie in the queue, except the
   * current one, and resolves with the lowest of them.
   */
  lemma DistinctRemovalIsExact<T, U>(s: State<T, U>, ks: seq<int>, current: int)
    requires Sorted(ks)
    ensures forall p :: p in Survivors(|s.queue|, Dedup(ks), current) <==>
      0 <= p < |s.queue| && (p !in ks || p == current)
    ensures RemoveResolution(s, Dedup(ks), current) ==
      if ks == [] then Unresolved
      else if Skipped(ks[0], current, |s.queue|) then ResolvedNull
      else ResolvedIndex(ks[0])
  {
    var d := Dedup(ks);
    RemovesExactlyTheIndexes(|s.queue|, d, current);
    ResolvesWithLowestIndex(s, d, current);
    if ks != [] {
      assert ks[0] in d;
    }
  }

  /**
   * Everything the lemmas above say, for one run of the loop over the sorted
   * indexes: the queue keeps the surviving positions, exactly the requested
   * ones are gone when no index is repeated, the timeline keeps step, the
   * window follows its track, and the promise gets the lowest index.
   */
  lemma SortedRemoval<T, U>(s: State<T, U>, indexes: seq<int>, current: int)
    ensures Below(Survivors(|s.queue|, SortAscending(indexes), current), |s.queue|)
    ensures RemoveAll(s, SortAscending(indexes), current).queue ==
      Pick(s.queue, Survivors(|s.queue|, SortAscending(indexes), current))
    ensures Distinct(indexes) ==> forall p :: p in Survivors(|s.queue|, SortAscending(indexes), current) <==>
      0 <= p < |s.queue| && (p !in indexes || p == current)
    ensures |s.queue| == |s.timeline| ==>
      |RemoveAll(s, SortAscending(indexes), current).queue| == |RemoveAll(s, SortAscending(indexes), current).timeline|
    ensures s.window <= 0 ==> RemoveAll(s, SortAscending(indexes), current).window == s.window
    ensures 0 <= s.window < |s.queue| && s.window in Survivors(|s.queue|, SortAscending(indexes), current) ==>
      var r := RemoveAll(s, SortAscending(indexes), current);
      0 <= r.window < |r.queue| && r.queue[r.window] == s.queue[s.window]
    ensures Distinct(indexes) ==>
      RemoveResolution(s, SortAscending(indexes), current) ==
        if indexes == [] then Unresolved
        else if Skipped(SortAscending(indexes)[0], current, |s.queue|) then ResolvedNull
        else ResolvedIndex(SortAscending(indexes)[0])
    ensures Distinct(indexes) ==>
      RemoveAll(s, SortAscending(indexes), current).window ==
        s.window - |set k | k in indexes && RemovedBelow(k, current, |s.queue|, s.window)|
  {
    var sorted := SortAscending(indexes);
    var r := RemoveAll(s, sorted, current);
    var ps := Survivors(|s.queue|, sorted, current);
    assert Below(ps, |s.queue|) && r.queue == Pick(s.queue, ps) by {
      RemoveAllPicksSurvivors(s, sorted, current);
    }
    if |s.queue| == |s.timeline| {
      assert |r.queue| == |r.timeline| by {
        TimelineStaysInStep(s, sorted, current);
      }
    }
    if s.window <= 0 {
      assert r.window == s.window by {
        UnsetWindowStays(s, sorted, current);
      }
    }
    if 0 <= s.window < |s.queue| && s.window in ps {
      assert 0 <= r.window < |r.queue| && r.queue[r.window] == s.queue[s.window] by {
        WindowStillNamesItsTrack(s, sorted, current);
      }
    }
    if Distinct(indexes) {
      DistinctSortedRemoval(s, indexes, current);
    }
  }

  /** The clauses of `SortedRemoval` that hold for indexes without repeats. */
  lemma DistinctSortedRemoval<T, U>(s: State<T, U>, indexes: seq<int>, current: int)
    requires Distinct(indexes)
    ensures forall p :: p in Survivors(|s.queue|, SortAscending(indexes), current) <==>
      0 <= p < |s.queue| && (p !in indexes || p == current)
    ensures RemoveResolution(s, SortAscending(indexes), current) ==
      if indexes == [] then Unresolved
      else if Skipped(SortAscending(indexes)[0], current, |s.queue|) then ResolvedNull
      else ResolvedIndex(SortAscending(indexes)[0])
    ensures RemoveAll(s, SortAscending(indexes), current).window ==
      s.window - |set k | k in indexes && RemovedBelow(k, current, |s.queue|, s.window)|
  {
    var sorted := SortAscending(indexes);
    DistinctSortsStrictly(indexes);
    forall p ensures p in sorted <==> p in indexes {
      assert p in multiset(sorted) <==> p in multiset(indexes);
    }
    RemovesExactlyTheIndexes(|s.queue|, sorted, current);
    ResolvesWithLowestIndex(s, sorted, current);
    WindowDrift(s, sorted, current);
    CountIsCardinality(sorted, current, |s.queue|, s.window);
    assert (set k | k in sorted && RemovedBelow(k, current, |s.queue|, s.window))
        == (set k | k in indexes && RemovedBelow(k, current, |s.queue|, s.window));
  }
}

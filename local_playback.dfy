/**
 * The playback queue controller (`LocalPlayback`). It keeps a queue of tracks
 * in step with the player's timeline, runs the `prepared` flag that decides
 * when the player is told to prepare, tracks the last known window, and owns
 * the optional media cache.
 *
 * Calls into the superclass (`ExoPlayback`) and into the manager are not
 * modelled beyond their order: each one is appended to `trace`.
 */
module Playback {
  import opened Options
  import opened Sequences
  import opened MediaSources
  import opened CacheStores
  import opened Tracks
  import opened Engine
  import opened Removal

  /** `Player.STATE_ENDED`. */
  const StateEnded: int := 4

  /** Calls whose bodies lie outside this model, in the order they are made. */
  datatype Call =
    | SuperInitialize
    | SuperPlay
    | SuperStop
    | SuperSeekTo(time: int)
    | SuperReset
    | SuperDestroy
    | CacheRelease
    | SuperPlaybackStateChanged(state: int)
    | SuperPlayerError(error: int)
    | ManagerReset
      /** `manager.onTrackUpdate(track, position, null, null)`: no next track and no next metadata. */
    | ManagerTrackUpdate(previousTrack: Option<int>, previousPosition: int)

  /** The exceptions the controller lets escape. */
  datatype Failure =
    | IndexOutOfBounds   // `List.add` / `List.addAll` with an index outside `0 .. size`
    | RuntimeFailure     // `toMediaSource` could not open an embedded resource
    | NullPointer        // the cache was dereferenced while it was null

  /** What a promise is resolved with, or the exception thrown instead. */
  datatype Outcome<T> = Returned(value: T) | Threw(failure: Failure)

  /**
   * `enableCaching(ds)`, lines 63-70: the network factory is read through the
   * cache, ignoring the cache on errors, when a cache exists and the
   * configured size is positive; otherwise it is handed back untouched.
   */
  function EnableCaching(cache: Option<Store>, cacheMaxSize: int, ds: DataFactory): (r: DataFactory)
    ensures cache.None? || cacheMaxSize <= 0 ==> r == ds
    ensures cache.Some? && cacheMaxSize > 0 ==> r.Cached? && r.upstream == ds && r.ignoreCacheOnError
  {
    if cache.None? || cacheMaxSize <= 0 then ds else Cached(ds, true)
  }

  /** The caching wrapper as `toMediaSource` receives it, for given cache state. */
  function CachingWrapper(cache: Option<Store>, cacheMaxSize: int): DataFactory -> DataFactory
  {
    ds => EnableCaching(cache, cacheMaxSize, ds)
  }

  /**
   * Lines 119-123: each track's source, in order, with its user agent filled
   * in; the first track whose embedded resource cannot be opened ends the
   * loop with the exception.
   */
  method BuildSources(ctx: Context, tracks: seq<Track>, wrapper: DataFactory -> DataFactory)
    returns (sources: Option<seq<MediaSource>>)
    modifies (set t | t in tracks)`userAgent
    ensures sources.None? <==> exists i :: 0 <= i < |tracks| && !tracks[i].Readable(ctx)
    ensures sources.Some? ==> sources == ResolveAll(ctx, tracks, wrapper)
    ensures sources.Some? ==>
      forall t :: t in tracks ==> t.userAgent == Some(EffectiveUserAgent(old(t.userAgent), ctx))
    ensures forall t :: t in tracks ==>
      t.userAgent == old(t.userAgent) || t.userAgent == Some(EffectiveUserAgent(old(t.userAgent), ctx))
  {
    var list: seq<MediaSource> := [];
    for i := 0 to |tracks|
      invariant |list| == i
      invariant forall j :: 0 <= j < i ==> tracks[j].Readable(ctx)
      invariant forall j :: 0 <= j < i ==> tracks[j].MediaSourceFor(ctx, wrapper) == Built(list[j])
      invariant forall j :: 0 <= j < |tracks| ==>
        || tracks[j].userAgent == Some(EffectiveUserAgent(old(tracks[j].userAgent), ctx))
        || (i <= j && tracks[j].userAgent == old(tracks[j].userAgent))
    {
      var track := tracks[i];
      EffectiveUserAgentIdempotent(old(track.userAgent), ctx);
      label Before:
      var built := track.ToMediaSource(ctx, wrapper);
      forall j | 0 <= j < |tracks|
        ensures || tracks[j].userAgent == Some(EffectiveUserAgent(old(tracks[j].userAgent), ctx))
                || (i + 1 <= j && tracks[j].userAgent == old(tracks[j].userAgent))
      {
        if tracks[j] != track {
          assert tracks[j].userAgent == old@Before(tracks[j].userAgent);
        }
      }
      if built.ResourceUnreadable? {
        return None;
      }
      forall j | 0 <= j < i
        ensures tracks[j].MediaSourceFor(ctx, wrapper) == Built(list[j])
      {
        if tracks[j] != track {
          assert tracks[j].MediaSourceFor(ctx, wrapper) == old@Before(tracks[j].MediaSourceFor(ctx, wrapper));
        }
      }
      list := list + [built.source];
    }
    assert ResolveAll(ctx, tracks, wrapper).value == list;
    return Some(list);
  }

  /**
   * The keys `clearCache` still keeps after visiting all but `left`: the
   * unvisited ones, and the visited ones whose removal failed.
   */
  ghost function Retained(keys: set<string>, left: set<string>, failing: set<string>): set<string>
  {
    left + (keys - left) * failing
  }

  lemma RetainedStep(keys: set<string>, left: set<string>, failing: set<string>, key: string)
    requires left <= keys && key in left
    ensures key in failing ==> Retained(keys, left - {key}, failing) == Retained(keys, left, failing)
    ensures key !in failing ==> Retained(keys, left - {key}, failing) == Retained(keys, left, failing) - {key}
  {
  }

  lemma RetainedDone(keys: set<string>, failing: set<string>)
    ensures Retained(keys, {}, failing) == keys * failing
  {
  }

  class LocalPlayback {
    const cacheMaxSize: int
    const ctx: Context
    const player: Player
    var cache: Option<Store>
    var prepared: bool
    var queue: seq<Track>
    var lastKnownWindow: int
    var lastKnownPosition: int
    var trace: seq<Call>

    /** A cache only exists when a positive size was configured, and it holds one entry per key. */
    ghost predicate Valid()
      reads this, player
    {
      && player.Valid()
      && (cacheMaxSize <= 0 ==> cache.None?)
      && (cache.Some? ==> UniqueKeys(cache.value.index))
    }

    /** Every queue index has its timeline entry. */
    predicate InStep()
      reads this, player
    {
      |queue| == |player.timeline|
    }

    /** Lines 42-46, with the superclass's fields at their initial values. */
    constructor (ctx: Context, player: Player, cacheMaxSize: int)
      requires player.Valid()
      ensures Valid()
      ensures this.ctx == ctx && this.player == player && this.cacheMaxSize == cacheMaxSize
      ensures cache.None? && !prepared && queue == [] && trace == []
      ensures lastKnownWindow == IndexUnset && lastKnownPosition == IndexUnset
    {
      this.ctx := ctx;
      this.player := player;
      this.cacheMaxSize := cacheMaxSize;
      cache := None;
      prepared := false;
      queue := [];
      lastKnownWindow := IndexUnset;
      lastKnownPosition := IndexUnset;
      trace := [];
    }

    /**
     * `initialize()`, lines 49-61: opens the cache (the store found on disk)
     * when a positive size is configured and drops it otherwise, then resets
     * the queue.
     */
    method Initialize(persisted: Store)
      requires Valid()
      requires UniqueKeys(persisted.index)
      modifies this, player
      ensures Valid() && InStep()
      ensures cache == if cacheMaxSize > 0 then Some(persisted) else None
      ensures queue == [] && player.timeline == [] && !prepared
      ensures lastKnownWindow == IndexUnset && lastKnownPosition == IndexUnset
      ensures player.prepareCount == old(player.prepareCount) + 1
      ensures player.currentIndex == old(player.currentIndex) && player.position == old(player.position)
      ensures player.repeatMode == old(player.repeatMode)
      ensures trace == old(trace) + [SuperInitialize, ManagerReset]
    {
      if cacheMaxSize > 0 {
        cache := Some(persisted);
      } else {
        cache := None;
      }
      trace := trace + [SuperInitialize];
      ResetQueue();
    }

    /** `isCached(url)`, lines 72-75: whether any span is held for `url`; throws without a cache. */
    method IsCached(url: string) returns (r: Outcome<bool>)
      ensures cache.None? ==> r == Threw(NullPointer)
      ensures cache.Some? ==> r == Returned(CachedSpans(cache.value.index, url) != [])
    {
      if cache.None? {
        return Threw(NullPointer);
      }
      var spans := CachedSpans(cache.value.index, url);
      return Returned(spans != []);
    }

    /** `getCacheSize()`, lines 77-83: the bytes the cache holds, 0 without a cache. */
    method GetCacheSize() returns (size: nat)
      ensures cache.None? ==> size == 0
      ensures cache.Some? ==> size == Space(cache.value.index)
    {
      if cache.Some? {
        size := Space(cache.value.index);
      } else {
        size := 0;
      }
    }

    /**
     * `clearCache()`, lines 85-98: removes every key the cache held on entry.
     * A removal that throws is logged and skipped; `failing` names the keys
     * whose removal throws.
     */
    method ClearCache(failing: set<string>)
      requires Valid()
      modifies this`cache
      ensures Valid()
      ensures old(cache).None? ==> cache.None?
      ensures old(cache).Some? ==> cache == Some(Store(Keep(old(cache).value.index, failing)))
    {
      if cache.None? {
        return;
      }
      ghost var start := cache.value.index;
      var keys := Keys(cache.value.index);
      var left := keys;
      ghost var kept := keys;
      assert cache == Some(Store(Keep(start, kept))) by { KeepAll(start, keys); }
      while left != {}
        invariant left <= keys
        invariant kept == Retained(keys, left, failing)
        invariant cache == Some(Store(Keep(start, kept)))
        decreases left
      {
        var key :| key in left;
        RetainedStep(keys, left, failing, key);
        if key !in failing {
          KeepMinus(start, kept, key);
          cache := Some(RemoveResource(cache.value, key));
          kept := kept - {key};
        }
        left := left - {key};
      }
      assert kept == keys * failing by { RetainedDone(keys, failing); }
      KeepOnlyChangesNothing(start, keys * failing, failing);
      KeepUnique(start, failing);
    }

    /** `prepare()`, lines 100-106: the player is told to prepare only when it is not prepared. */
    method Prepare()
      modifies this`prepared, player
      ensures prepared
      ensures player.prepareCount == old(player.prepareCount) + (if old(prepared) then 0 else 1)
      ensures player.timeline == old(player.timeline) && player.currentIndex == old(player.currentIndex)
      ensures player.position == old(player.position) && player.repeatMode == old(player.repeatMode)
    {
      if !prepared {
        player.Prepare();
        prepared := true;
      }
    }

    /**
     * `add(track, index)`, lines 108-115. The track enters the queue before
     * its source is built, so a track whose embedded resource cannot be
     * opened stays in the queue without a timeline entry.
     */
    method Add(track: Track, index: int) returns (r: Outcome<int>)
      requires Valid()
      modifies this, player, track`userAgent
      ensures Valid()
      ensures r.Returned? ==> r.value == index
      ensures !(0 <= index <= old(|queue|)) ==>
        && r == Threw(IndexOutOfBounds)
        && queue == old(queue) && player.timeline == old(player.timeline)
        && track.userAgent == old(track.userAgent)
        && prepared == old(prepared) && player.prepareCount == old(player.prepareCount)
      ensures 0 <= index <= old(|queue|) ==>
        && queue == InsertAt(old(queue), index, [track])
        && track.userAgent == Some(EffectiveUserAgent(old(track.userAgent), ctx))
      ensures 0 <= index <= old(|queue|) && !track.Readable(ctx) ==>
        && r == Threw(RuntimeFailure)
        && player.timeline == old(player.timeline)
        && prepared == old(prepared) && player.prepareCount == old(player.prepareCount)
      ensures 0 <= index <= old(|queue|) && track.Readable(ctx) ==>
        && r == Returned(index)
        && player.timeline ==
           InsertClamped(old(player.timeline), index, [track.MediaSourceFor(ctx, CachingWrapper(cache, cacheMaxSize)).source])
        && prepared
        && player.prepareCount == old(player.prepareCount) + (if old(prepared) then 0 else 1)
      ensures old(InStep()) ==> (InStep() <==> r != Threw(RuntimeFailure))
      ensures cache == old(cache) && trace == old(trace)
      ensures lastKnownWindow == old(lastKnownWindow) && lastKnownPosition == old(lastKnownPosition)
      ensures player.currentIndex == old(player.currentIndex) && player.position == old(player.position)
      ensures player.repeatMode == old(player.repeatMode)
    {
      if !(0 <= index <= |queue|) {
        return Threw(IndexOutOfBounds);
      }
      queue := InsertAt(queue, index, [track]);
      var source := track.ToMediaSource(ctx, CachingWrapper(cache, cacheMaxSize));
      if source.ResourceUnreadable? {
        return Threw(RuntimeFailure);
      }
      player.AddMediaSources(index, [source.source]);
      r := Returned(index);
      Prepare();
    }

    /**
     * `add(tracks, index)`, lines 117-130: every source is built first (each
     * track's user agent is filled in on the way), then the tracks and their
     * sources are spliced in at `index`, in order.
     */
    method AddTracks(tracks: seq<Track>, index: int) returns (r: Outcome<int>)
      requires Valid()
      modifies this, player, (set t | t in tracks)`userAgent
      ensures Valid()
      ensures r.Returned? ==> r.value == index
      ensures r == Threw(RuntimeFailure) <==> exists i :: 0 <= i < |tracks| && !tracks[i].Readable(ctx)
      ensures r == Threw(IndexOutOfBounds) <==>
        (forall i :: 0 <= i < |tracks| ==> tracks[i].Readable(ctx)) && !(0 <= index <= old(|queue|))
      ensures r.Threw? ==>
        && queue == old(queue) && player.timeline == old(player.timeline)
        && prepared == old(prepared) && player.prepareCount == old(player.prepareCount)
      ensures r.Returned? ==>
        && ResolveAll(ctx, tracks, CachingWrapper(cache, cacheMaxSize)).Some?
        && queue == InsertAt(old(queue), index, tracks)
        && player.timeline ==
           InsertClamped(old(player.timeline), index, ResolveAll(ctx, tracks, CachingWrapper(cache, cacheMaxSize)).value)
        && prepared
        && player.prepareCount == old(player.prepareCount) + (if old(prepared) then 0 else 1)
      ensures r != Threw(RuntimeFailure) ==>
        forall t :: t in tracks ==> t.userAgent == Some(EffectiveUserAgent(old(t.userAgent), ctx))
      ensures forall t :: t in tracks ==>
        t.userAgent == old(t.userAgent) || t.userAgent == Some(EffectiveUserAgent(old(t.userAgent), ctx))
      ensures old(InStep()) ==> InStep()
      ensures cache == old(cache) && trace == old(trace)
      ensures lastKnownWindow == old(lastKnownWindow) && lastKnownPosition == old(lastKnownPosition)
      ensures player.currentIndex == old(player.currentIndex) && player.position == old(player.position)
      ensures player.repeatMode == old(player.repeatMode)
    {
      var built := BuildSources(ctx, tracks, CachingWrapper(cache, cacheMaxSize));
      if built.None? {
        return Threw(RuntimeFailure);
      }
      r := Splice(tracks, index, built.value);
    }

    /**
     * Lines 125-129: the tracks and their sources go in at `index`, and the
     * player is prepared; an index outside the queue throws before anything
     * changes.
     */
    method Splice(tracks: seq<Track>, index: int, sources: seq<MediaSource>) returns (r: Outcome<int>)
      requires Valid()
      requires |sources| == |tracks|
      modifies this, player
      ensures Valid()
      ensures !(0 <= index <= old(|queue|)) ==>
        && r == Threw(IndexOutOfBounds)
        && queue == old(queue) && player.timeline == old(player.timeline)
        && prepared == old(prepared) && player.prepareCount == old(player.prepareCount)
      ensures 0 <= index <= old(|queue|) ==>
        && r == Returned(index)
        && queue == InsertAt(old(queue), index, tracks)
        && player.timeline == InsertClamped(old(player.timeline), index, sources)
        && prepared
        && player.prepareCount == old(player.prepareCount) + (if old(prepared) then 0 else 1)
      ensures old(InStep()) ==> InStep()
      ensures cache == old(cache) && trace == old(trace)
      ensures lastKnownWindow == old(lastKnownWindow) && lastKnownPosition == old(lastKnownPosition)
      ensures player.currentIndex == old(player.currentIndex) && player.position == old(player.position)
      ensures player.repeatMode == old(player.repeatMode)
    {
      if !(0 <= index <= |queue|) {
        return Threw(IndexOutOfBounds);
      }
      queue := InsertAt(queue, index, tracks);
      player.AddMediaSources(index, sources);
      r := Returned(index);
      Prepare();
    }

    /**
     * `remove(indexes)`, lines 132-161, as written: the current index is read
     * once, the indexes are sorted, and the loop runs from the highest one
     * down. The effect is `RemoveAll` over the sorted indexes; what that means
     * for the queue, the timeline, the window and the promise is proved in
     * module `Removal` and restated here.
     */
    method Remove(indexes: seq<int>) returns (resolution: Resolution)
      requires Valid()
      modifies this, player
      ensures Valid()
      ensures State(queue, player.timeline, lastKnownWindow) ==
        RemoveAll(old(State(queue, player.timeline, lastKnownWindow)), SortAscending(indexes), old(player.currentIndex))
      ensures resolution ==
        RemoveResolution(old(State(queue, player.timeline, lastKnownWindow)), SortAscending(indexes), old(player.currentIndex))
      ensures cache == old(cache) && prepared == old(prepared) && trace == old(trace)
      ensures lastKnownPosition == old(lastKnownPosition)
      ensures player.currentIndex == old(player.currentIndex) && player.position == old(player.position)
      ensures player.repeatMode == old(player.repeatMode) && player.prepareCount == old(player.prepareCount)
      // What that means for the queue, the timeline, the window and the promise:
      ensures Below(Survivors(old(|queue|), SortAscending(indexes), old(player.currentIndex)), old(|queue|))
      ensures queue == Pick(old(queue), Survivors(old(|queue|), SortAscending(indexes), old(player.currentIndex)))
      ensures Distinct(indexes) ==>
        forall p :: p in Survivors(old(|queue|), SortAscending(indexes), old(player.currentIndex)) <==>
          0 <= p < old(|queue|) && (p !in indexes || p == old(player.currentIndex))
      ensures old(InStep()) ==> InStep()
      ensures old(lastKnownWindow) <= 0 ==> lastKnownWindow == old(lastKnownWindow)
      ensures 0 <= old(lastKnownWindow) < old(|queue|) &&
              old(lastKnownWindow) in Survivors(old(|queue|), SortAscending(indexes), old(player.currentIndex)) ==>
        0 <= lastKnownWindow < |queue| && queue[lastKnownWindow] == old(queue)[old(lastKnownWindow)]
      ensures Distinct(indexes) ==>
        resolution == (if indexes == [] then Unresolved
                       else if Skipped(SortAscending(indexes)[0], old(player.currentIndex), old(|queue|)) then ResolvedNull
                       else ResolvedIndex(SortAscending(indexes)[0]))
      ensures Distinct(indexes) ==>
        lastKnownWindow == old(lastKnownWindow) -
          |set k | k in indexes && RemovedBelow(k, old(player.currentIndex), old(|queue|), old(lastKnownWindow))|
    {
      var currentIndex := player.currentIndex;
      var sorted := SortAscending(indexes);
      ghost var start := State(queue, player.timeline, lastKnownWindow);
      resolution := RemoveSorted(sorted, currentIndex);
      SortedRemoval(start, indexes, currentIndex);
    }

    /** Lines 139-160: the loop over the sorted indexes, highest first. */
    method RemoveSorted(sorted: seq<int>, currentIndex: int) returns (resolution: Resolution)
      requires Valid()
      modifies this, player
      ensures Valid()
      ensures cache == old(cache) && prepared == old(prepared) && trace == old(trace)
      ensures lastKnownPosition == old(lastKnownPosition)
      ensures player.currentIndex == old(player.currentIndex) && player.position == old(player.position)
      ensures player.repeatMode == old(player.repeatMode) && player.prepareCount == old(player.prepareCount)
      ensures State(queue, player.timeline, lastKnownWindow) ==
        RemoveAll(old(State(queue, player.timeline, lastKnownWindow)), sorted, currentIndex)
      ensures resolution == RemoveResolution(old(State(queue, player.timeline, lastKnownWindow)), sorted, currentIndex)
    {
      ghost var start := State(queue, player.timeline, lastKnownWindow);
      resolution := Unresolved;
      var i := |sorted| - 1;
      assert RemoveAll(start, sorted[i + 1..], currentIndex) == start by {
        assert sorted[i + 1..] == [];
      }
      while i >= 0
        invariant -1 <= i < |sorted|
        invariant Valid()
        invariant player.currentIndex == old(player.currentIndex) && player.position == old(player.position)
        invariant player.repeatMode == old(player.repeatMode) && player.prepareCount == old(player.prepareCount)
        invariant cache == old(cache) && prepared == old(prepared) && trace == old(trace)
        invariant lastKnownPosition == old(lastKnownPosition)
        invariant var r := RemoveAll(start, sorted[i + 1..], currentIndex);
          queue == r.queue && player.timeline == r.timeline && lastKnownWindow == r.window
        invariant i >= 0 ==> resolution == Unresolved
        invariant i < 0 ==> resolution == RemoveResolution(start, sorted, currentIndex)
        decreases i
      {
        var index := sorted[i];
        RemoveAllSuffix(start, sorted, i, currentIndex);
        var removed := RemoveIndex(index, currentIndex);
        if i == 0 {
          resolution := if removed then ResolvedIndex(index) else ResolvedNull;
        }
        i := i - 1;
      }
      assert i == -1;
      assert sorted[i + 1..] == sorted;
      assert queue == RemoveAll(start, sorted, currentIndex).queue;
      assert start == old(State(queue, player.timeline, lastKnownWindow));
    }

    /**
     * Lines 140-159, one iteration: an index that is current or outside the
     * queue is skipped; otherwise the track and its timeline entry are
     * removed and a window above it moves down by one.
     */
    method RemoveIndex(index: int, currentIndex: int) returns (removed: bool)
      requires Valid()
      modifies this, player
      ensures Valid()
      ensures removed == !Skipped(index, currentIndex, old(|queue|))
      ensures State(queue, player.timeline, lastKnownWindow) ==
        Step(old(State(queue, player.timeline, lastKnownWindow)), index, currentIndex)
      ensures cache == old(cache) && prepared == old(prepared) && trace == old(trace)
      ensures lastKnownPosition == old(lastKnownPosition)
      ensures player.currentIndex == old(player.currentIndex) && player.position == old(player.position)
      ensures player.repeatMode == old(player.repeatMode) && player.prepareCount == old(player.prepareCount)
    {
      if index == currentIndex || index < 0 || index >= |queue| {
        return false;
      }
      queue := Delete(queue, index);
      player.RemoveMediaItem(index);
      if index < lastKnownWindow {
        lastKnownWindow := lastKnownWindow - 1;
      }
      return true;
    }

    /**
     * `removeUpcomingTracks()`, lines 163-172: with a current index, every
     * track after it is removed, last first; without one nothing changes.
     */
    method RemoveUpcomingTracks()
      requires Valid()
      modifies this, player
      ensures Valid()
      ensures old(player.currentIndex) == IndexUnset ==> queue == old(queue) && player.timeline == old(player.timeline)
      ensures old(player.currentIndex) != IndexUnset ==>
        var keep := if old(player.currentIndex) + 1 < old(|queue|) then old(player.currentIndex) + 1 else old(|queue|);
        var t := old(player.timeline);
        && queue == old(queue)[..keep]
        && player.timeline == t[..if keep < |t| then keep else |t|] + t[if old(|queue|) < |t| then old(|queue|) else |t|..]
        && (old(InStep()) ==> player.timeline == t[..keep])
      ensures old(InStep()) ==> InStep()
      ensures cache == old(cache) && prepared == old(prepared) && trace == old(trace)
      ensures lastKnownWindow == old(lastKnownWindow) && lastKnownPosition == old(lastKnownPosition)
      ensures player.currentIndex == old(player.currentIndex) && player.position == old(player.position)
      ensures player.repeatMode == old(player.repeatMode) && player.prepareCount == old(player.prepareCount)
    {
      var currentIndex := player.currentIndex;
      if currentIndex == IndexUnset {
        return;
      }
      ghost var q := queue;
      ghost var t := player.timeline;
      ghost var tail := if |q| < |t| then |q| else |t|;
      var i := |queue| - 1;
      while i > currentIndex
        invariant currentIndex <= i <= |q| - 1 || i == |q| - 1
        invariant queue == q[..i + 1]
        invariant player.timeline == t[..if i + 1 < |t| then i + 1 else |t|] + t[tail..]
        invariant player.currentIndex == currentIndex && player.position == old(player.position)
        invariant player.repeatMode == old(player.repeatMode) && player.prepareCount == old(player.prepareCount)
        invariant cache == old(cache) && prepared == old(prepared) && trace == old(trace)
        invariant lastKnownWindow == old(lastKnownWindow) && lastKnownPosition == old(lastKnownPosition)
        decreases i
      {
        queue := Delete(queue, i);
        player.RemoveMediaItem(i);
        i := i - 1;
      }
    }

    /** `setRepeatMode(mode)`, lines 174-177. */
    method SetRepeatMode(mode: int)
      requires Valid()
      modifies player
      ensures Valid()
      ensures player.repeatMode == mode
      ensures player.timeline == old(player.timeline) && player.currentIndex == old(player.currentIndex)
      ensures player.position == old(player.position) && player.prepareCount == old(player.prepareCount)
    {
      player.SetRepeatMode(mode);
    }

    /** `getRepeatMode()`, lines 179-181. */
    method GetRepeatMode() returns (mode: int)
      ensures mode == player.repeatMode
    {
      mode := player.repeatMode;
    }

    /**
     * `resetQueue()`, lines 183-195: both lists are emptied, the player is
     * told to prepare, the flag is cleared, the trackers are unset, and the
     * manager is told.
     */
    method ResetQueue()
      requires Valid()
      modifies this, player
      ensures Valid() && InStep()
      ensures queue == [] && player.timeline == [] && !prepared
      ensures lastKnownWindow == IndexUnset && lastKnownPosition == IndexUnset
      ensures player.prepareCount == old(player.prepareCount) + 1
      ensures player.currentIndex == old(player.currentIndex) && player.position == old(player.position)
      ensures player.repeatMode == old(player.repeatMode)
      ensures cache == old(cache) && trace == old(trace) + [ManagerReset]
    {
      queue := [];
      player.ClearMediaItems();
      player.Prepare();
      prepared := false;
      lastKnownWindow := IndexUnset;
      lastKnownPosition := IndexUnset;
      trace := trace + [ManagerReset];
    }

    /** `play()`, lines 197-201. */
    method Play()
      requires Valid()
      modifies this, player
      ensures Valid()
      ensures prepared
      ensures player.prepareCount == old(player.prepareCount) + (if old(prepared) then 0 else 1)
      ensures trace == old(trace) + [SuperPlay]
      ensures queue == old(queue) && player.timeline == old(player.timeline) && cache == old(cache)
      ensures lastKnownWindow == old(lastKnownWindow) && lastKnownPosition == old(lastKnownPosition)
      ensures player.currentIndex == old(player.currentIndex) && player.position == old(player.position)
      ensures player.repeatMode == old(player.repeatMode)
    {
      Prepare();
      trace := trace + [SuperPlay];
    }

    /** `stop()`, lines 203-207. */
    method Stop()
      modifies this
      ensures !prepared
      ensures trace == old(trace) + [SuperStop]
      ensures queue == old(queue) && cache == old(cache)
      ensures lastKnownWindow == old(lastKnownWindow) && lastKnownPosition == old(lastKnownPosition)
    {
      trace := trace + [SuperStop];
      prepared := false;
    }

    /** `seekTo(time)`, lines 209-213. */
    method SeekTo(time: int)
      requires Valid()
      modifies this, player
      ensures Valid()
      ensures prepared
      ensures player.prepareCount == old(player.prepareCount) + (if old(prepared) then 0 else 1)
      ensures trace == old(trace) + [SuperSeekTo(time)]
      ensures queue == old(queue) && player.timeline == old(player.timeline) && cache == old(cache)
      ensures lastKnownWindow == old(lastKnownWindow) && lastKnownPosition == old(lastKnownPosition)
      ensures player.currentIndex == old(player.currentIndex) && player.position == old(player.position)
      ensures player.repeatMode == old(player.repeatMode)
    {
      Prepare();
      trace := trace + [SuperSeekTo(time)];
    }

    /**
     * `reset()`, lines 215-224. `currentTrack` is what the superclass's
     * `getCurrentTrackIndex()` answers on entry.
     */
    method Reset(currentTrack: Option<int>)
      requires Valid()
      modifies this, player
      ensures Valid() && InStep()
      ensures queue == [] && player.timeline == [] && !prepared
      ensures lastKnownWindow == IndexUnset && lastKnownPosition == IndexUnset
      ensures player.prepareCount == old(player.prepareCount) + 1
      ensures trace == old(trace) + [SuperReset, ManagerReset, ManagerTrackUpdate(currentTrack, old(player.position))]
      ensures cache == old(cache)
      ensures player.currentIndex == old(player.currentIndex) && player.position == old(player.position)
      ensures player.repeatMode == old(player.repeatMode)
    {
      var position := player.position;
      trace := trace + [SuperReset];
      ResetQueue();
      trace := trace + [ManagerTrackUpdate(currentTrack, position)];
    }

    /** `onPlaybackStateChanged(state)`, lines 236-243: the ended state clears the flag. */
    method OnPlaybackStateChanged(state: int)
      modifies this
      ensures prepared == (old(prepared) && state != StateEnded)
      ensures trace == old(trace) + [SuperPlaybackStateChanged(state)]
      ensures queue == old(queue) && cache == old(cache)
      ensures lastKnownWindow == old(lastKnownWindow) && lastKnownPosition == old(lastKnownPosition)
    {
      if state == StateEnded {
        prepared := false;
      }
      trace := trace + [SuperPlaybackStateChanged(state)];
    }

    /** `onPlayerError(error)`, lines 245-249. */
    method OnPlayerError(error: int)
      modifies this
      ensures !prepared
      ensures trace == old(trace) + [SuperPlayerError(error)]
      ensures queue == old(queue) && cache == old(cache)
      ensures lastKnownWindow == old(lastKnownWindow) && lastKnownPosition == old(lastKnownPosition)
    {
      prepared := false;
      trace := trace + [SuperPlayerError(error)];
    }

    /**
     * `destroy()`, lines 251-263: the cache is released (recorded in `trace`)
     * and dropped; when the release throws (`releaseFails`) it is logged and
     * the cache is kept.
     */
    method Destroy(releaseFails: bool)
      requires Valid()
      modifies this
      ensures Valid()
      ensures cache == if releaseFails then old(cache) else None
      ensures trace == old(trace) + [SuperDestroy] + (if old(cache).Some? then [CacheRelease] else [])
      ensures queue == old(queue) && prepared == old(prepared)
      ensures lastKnownWindow == old(lastKnownWindow) && lastKnownPosition == old(lastKnownPosition)
    {
      trace := trace + [SuperDestroy];
      if cache.Some? {
        trace := trace + [CacheRelease];
        if !releaseFails {
          cache := None;
        }
      }
    }
  }
}

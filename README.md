# Playback queue controller and track resolver

A model of the Android playback core of react-native-track-player, written in Dafny.

The model has two parts.

**`LocalPlayback`** is the queue controller. It keeps a queue of tracks in step with the media player's timeline. It decides when the player is told to prepare. It moves the last known window when tracks are removed. It owns the optional on-disk media cache.

**`Track`** is the track descriptor. It derives a track's URI, type, user agent and headers from the host's bundle. It resolves the track to a media source: a data path (embedded resource, local file, or network through the cache) with a streaming adapter chosen by the track type.

Modules:

- `Options`: the stand-in for a nullable reference.
- `Sequences`: list insertion and removal as the Java lists do them, and `Collections.sort`.
- `Bundles`: the parts of `android.os.Bundle` that are read.
- `Uris`: the decimal rendering of a resource id and its round trip.
- `TrackTypes`: the track types and the case-insensitive lookup.
- `MediaSources`: the resolver's pure decision. ExoPlayer objects become descriptors.
- `Tracks`: the `Track` class, `createTracks`, and the resolution of a list of tracks.
- `Engine`: the player, reduced to a timeline, a current index, a position, a repeat mode and a count of prepare requests.
- `CacheStores`: the cache index, an entry list from keys to cached byte spans.
- `Removal`: the loop of `remove` as a function of its inputs, with the lemmas about what it removes, where the window ends up and what the promise gets.
- `Playback`: the `LocalPlayback` class.

The class methods change their fields in place. Each one states its whole new state.

The removal loop is proved against `Removal.RemoveAll`. The lemmas in `Removal` give that function its meaning, and `LocalPlayback.Remove` restates them in its own contract.

A promise becomes a return value. A thrown exception becomes an `Outcome` that records which failure escaped.

Calls into the superclass (`ExoPlayback`) and into the manager are recorded, in order, in the `trace` field.

## Model

| member | source | states |
|---|---|---|
| Bundles.Bundle.GetString | android/src/main/java/com/guichaguri/trackplayer/service/models/Track.java:92-93 | a string exactly when the key is present and holds a string, and then that string; null otherwise |
| Bundles.Bundle.GetStringOr | android/src/main/java/com/guichaguri/trackplayer/service/models/Track.java:83 | the default replaces a missing or non-string value; a present string is returned as is |
| Bundles.Bundle.GetBundle | android/src/main/java/com/guichaguri/trackplayer/service/models/Track.java:95 | a nested bundle exactly when the key holds one; null otherwise |
| Bundles.Bundle.PutAll | android/src/main/java/com/guichaguri/trackplayer/service/models/Track.java:113-114 | the merged bundle has the union of both key sets; the incoming bundle wins on shared keys and the rest keep their values |
| Uris.DigitsRoundTrip | android/src/main/java/com/guichaguri/trackplayer/service/models/Track.java:80 | reading back the decimal digits of a natural number gives that number |
| Uris.DecimalRoundTrip | android/src/main/java/com/guichaguri/trackplayer/service/models/Track.java:80 | parsing the decimal rendering of any integer, negative ones included, gives that integer |
| Uris.ResourceUri | android/src/main/java/com/guichaguri/trackplayer/service/models/Track.java:79-80 | a resource URI has the android-resource scheme and a path that parses back to the resource id |
| Uris.ResourceUriInjective | android/src/main/java/com/guichaguri/trackplayer/service/models/Track.java:79-80 | different resource ids give different URIs |
| TrackTypes.MatchIsUnique | android/src/main/java/com/guichaguri/trackplayer/service/models/Track.java:85-89 | no type name matches two types ignoring case, so stopping at the first match picks the only one |
| TrackTypes.MatchIgnoresCase | android/src/main/java/com/guichaguri/trackplayer/service/models/Track.java:86 | for every type and every string, the string names the type exactly when its capitalised form does |
| TrackTypes.ParseType | android/src/main/java/com/guichaguri/trackplayer/service/models/Track.java:83-90 | the type whose name equals the given string ignoring case, or DEFAULT when no type matches |
| MediaSources.DefaultUserAgent | android/src/main/java/com/guichaguri/trackplayer/service/models/Track.java:140 | the default user agent starts with the application name |
| MediaSources.EffectiveUserAgent | android/src/main/java/com/guichaguri/trackplayer/service/models/Track.java:139-140 | the user agent is never empty; a non-empty one is kept, and a null or empty one becomes the default |
| MediaSources.EffectiveUserAgentIdempotent | android/src/main/java/com/guichaguri/trackplayer/service/models/Track.java:139-140 | filling in the user agent a second time changes nothing |
| MediaSources.DataPath | android/src/main/java/com/guichaguri/trackplayer/service/models/Track.java:144-175 | an embedded resource is read as that raw resource, a local URI through the local-file factory, and anything else through the caching wrapper applied to an HTTP factory with the user agent, the default timeouts, cross-protocol redirects and the headers |
| MediaSources.SourceFor | android/src/main/java/com/guichaguri/trackplayer/service/models/Track.java:177-204 | the source kind names the track type, the source is over the given data path and URI, and a progressive source seeks at constant bitrate |
| MediaSources.Resolve | android/src/main/java/com/guichaguri/trackplayer/service/models/Track.java:137-189 | resolution fails exactly for an embedded resource that cannot be opened; otherwise the source is for the track URI, reads through the track data path, its kind names the track type, and a progressive source seeks at constant bitrate |
| MediaSources.CachingOnlyOnNetworkPath | android/src/main/java/com/guichaguri/trackplayer/service/models/Track.java:144-175 | the caching wrapper makes no difference on the raw-resource or local path; on the network path the data factory is the wrapper applied to an HTTP factory with the user agent, the default timeouts, cross-protocol redirects and the headers |
| Tracks.CopyHeaders | android/src/main/java/com/guichaguri/trackplayer/service/models/Track.java:97-100 | the copy has exactly the header bundle keys, and each maps to what `getString` answers for it |
| Tracks.Track.constructor | android/src/main/java/com/guichaguri/trackplayer/service/models/Track.java:74-107 | the new track is built from the bundle (`BuiltFrom`): resource id from the bundle; resource URI when the id is non-zero, otherwise the bundle URI; type matched ignoring case or DEFAULT; content type and user agent as read; headers absent without a headers bundle and a full copy with one; the original bundle is remembered |
| Tracks.Track.SetMetadata | android/src/main/java/com/guichaguri/trackplayer/service/models/Track.java:109-115 | the new bundle is merged into the original one only when there is one and it is a different object; otherwise nothing changes |
| Tracks.Track.MediaSourceFor | android/src/main/java/com/guichaguri/trackplayer/service/models/Track.java:137-189 | resolution fails exactly when the track is an embedded resource that cannot be opened; a built source is for the track URI and its kind names the track type |
| Tracks.Track.ToMediaSource | android/src/main/java/com/guichaguri/trackplayer/service/models/Track.java:137-189 | the stored user agent is filled in and kept; the result is the same resolution the track has before and after the call, and fails exactly when the track is unreadable |
| Tracks.ResolveAll | android/src/main/java/com/guichaguri/trackplayer/service/player/LocalPlayback.java:119-123 | no sources exactly when some track is unreadable; otherwise one source per track, in order, each the resolution of that track |
| Tracks.CreateTracks | android/src/main/java/com/guichaguri/trackplayer/service/models/Track.java:46-58 | null exactly when some element is not a bundle; otherwise one track per element, in order, each built from that element in the sense of the constructor (`BuiltFrom`) |
| Engine.Player.Prepare | android/src/main/java/com/guichaguri/trackplayer/service/player/LocalPlayback.java:103 | one more prepare request; the timeline, current index, position and repeat mode are unchanged |
| Engine.Player.AddMediaSources | android/src/main/java/com/guichaguri/trackplayer/service/player/LocalPlayback.java:112 | the sources are inserted at the index, or appended when the index is past the end; nothing else changes |
| Engine.Player.RemoveMediaItem | android/src/main/java/com/guichaguri/trackplayer/service/player/LocalPlayback.java:151 | the entry at the index is removed, or nothing happens past the end; nothing else changes |
| Engine.Player.ClearMediaItems | android/src/main/java/com/guichaguri/trackplayer/service/player/LocalPlayback.java:187 | the timeline is emptied; nothing else changes |
| Engine.Player.SetRepeatMode | android/src/main/java/com/guichaguri/trackplayer/service/player/LocalPlayback.java:176 | the repeat mode is set; nothing else changes |
| CacheStores.Keys | android/src/main/java/com/guichaguri/trackplayer/service/player/LocalPlayback.java:87 | the keys are exactly those of the entries |
| CacheStores.Keep | android/src/main/java/com/guichaguri/trackplayer/service/player/LocalPlayback.java:85-98 | the restricted index holds exactly the entries whose key is kept |
| CacheStores.RemoveResource | android/src/main/java/com/guichaguri/trackplayer/service/player/LocalPlayback.java:89 | exactly the entries for the removed key are gone |
| CacheStores.KeepMinus | android/src/main/java/com/guichaguri/trackplayer/service/player/LocalPlayback.java:87-93 | removing one more key from a restricted index is the same as restricting to one key fewer |
| CacheStores.KeepOnlyChangesNothing | android/src/main/java/com/guichaguri/trackplayer/service/player/LocalPlayback.java:87-93 | two key sets that agree on the keys present restrict the index the same way |
| CacheStores.KeepAll | android/src/main/java/com/guichaguri/trackplayer/service/player/LocalPlayback.java:87 | restricting an index to a superset of its keys keeps every entry |
| CacheStores.CachedSpansOfEntry | android/src/main/java/com/guichaguri/trackplayer/service/player/LocalPlayback.java:72-75 | with one entry per key, the spans looked up for a key are exactly those of its entry |
| CacheStores.KeepUnique | android/src/main/java/com/guichaguri/trackplayer/service/player/LocalPlayback.java:85-98 | removing keys from an index with one entry per key keeps one entry per key |
| CacheStores.KeepDropsOthers | android/src/main/java/com/guichaguri/trackplayer/service/player/LocalPlayback.java:85-98 | after a clear, a key that was removed has no cached spans, so `isCached` answers false for it |
| CacheStores.EmptyRestriction | android/src/main/java/com/guichaguri/trackplayer/service/player/LocalPlayback.java:77-98 | a clear in which no removal fails leaves no spans for any key and a size of 0 |
| Sequences.SortAscending | android/src/main/java/com/guichaguri/trackplayer/service/player/LocalPlayback.java:137 | the sorted indexes are in ascending order and are a permutation of the input |
| Sequences.DistinctSortsStrictly | android/src/main/java/com/guichaguri/trackplayer/service/player/LocalPlayback.java:137 | sorting indexes without repeats gives a strictly increasing sequence |
| Sequences.Dedup | android/src/main/java/com/guichaguri/trackplayer/service/player/LocalPlayback.java:137-139 | the corrected loop input is strictly increasing, has the same values, and starts with the lowest one |
| Removal.Step | android/src/main/java/com/guichaguri/trackplayer/service/player/LocalPlayback.java:140-159 | one iteration removes one entry exactly when the index is not skipped, and moves the window down by at most one; a window at or below 0 stays |
| Removal.RemoveAll | android/src/main/java/com/guichaguri/trackplayer/service/player/LocalPlayback.java:139-160 | the loop removes at most one entry per index and never grows the queue; the window moves down by at most one per index |
| Removal.RemoveResolution | android/src/main/java/com/guichaguri/trackplayer/service/player/LocalPlayback.java:139-154 | the promise stays unresolved exactly when there are no indexes; a resolved index is the first sorted index, lies in the queue and is not current |
| Removal.RemoveAllSuffix | android/src/main/java/com/guichaguri/trackplayer/service/player/LocalPlayback.java:139-160 | the loop handles the later indexes first: after the indexes from position i on, index i is the last one handled |
| Removal.SurvivorsShape | android/src/main/java/com/guichaguri/trackplayer/service/player/LocalPlayback.java:139-160 | the surviving original positions are strictly increasing and lie within the queue |
| Removal.RemoveAllPicksSurvivors | android/src/main/java/com/guichaguri/trackplayer/service/player/LocalPlayback.java:139-160 | the queue after the loop is the original queue read at the surviving positions |
| Removal.TimelineStaysInStep | android/src/main/java/com/guichaguri/trackplayer/service/player/LocalPlayback.java:149-151 | a timeline as long as the queue is cut at the same positions and stays as long |
| Removal.PrefixIntact | android/src/main/java/com/guichaguri/trackplayer/service/player/LocalPlayback.java:139-150 | removing only indexes above m leaves positions 0 to m in place |
| Removal.RemovesExactlyTheIndexes | android/src/main/java/com/guichaguri/trackplayer/service/player/LocalPlayback.java:139-150 | for indexes without repeats, a position survives exactly when it is in the queue and is either not requested or current |
| Removal.CurrentTrackSurvives | android/src/main/java/com/guichaguri/trackplayer/service/player/LocalPlayback.java:143 | for indexes without repeats, the track playing on entry is still in the queue |
| Removal.WindowFollowsItsTrack | android/src/main/java/com/guichaguri/trackplayer/service/player/LocalPlayback.java:156-159 | when the window position survives, the window ends on the new position of that same original position |
| Removal.WindowStillNamesItsTrack | android/src/main/java/com/guichaguri/trackplayer/service/player/LocalPlayback.java:156-159 | when the window track survives, the window still names that track |
| Removal.UnsetWindowStays | android/src/main/java/com/guichaguri/trackplayer/service/player/LocalPlayback.java:156-159 | an unset window, or a window at position 0, never moves |
| Removal.CountRemovedBelowBound | android/src/main/java/com/guichaguri/trackplayer/service/player/LocalPlayback.java:156-159 | increasing indexes above lo that are removed below the window number at most the positions strictly between lo and the window |
| Removal.CountIsCardinality | android/src/main/java/com/guichaguri/trackplayer/service/player/LocalPlayback.java:156-159 | for increasing indexes, the removal count equals the size of the set of removed indexes below the window |
| Removal.WindowDrift | android/src/main/java/com/guichaguri/trackplayer/service/player/LocalPlayback.java:156-159 | for increasing indexes, the window drops by exactly the number of removed indexes below it |
| Removal.ResolvesWithLowestIndex | android/src/main/java/com/guichaguri/trackplayer/service/player/LocalPlayback.java:139-154 | for indexes without repeats, the promise gets the lowest index when it is in the queue and not current, null when it is not, and nothing when there are no indexes |
| Removal.RepeatedIndexRemovesNeighbour | android/src/main/java/com/guichaguri/trackplayer/service/player/LocalPlayback.java:137-150 | as written, removing position 1 of three twice also removes position 2, which was never requested |
| Removal.RepeatedIndexRemovesCurrent | android/src/main/java/com/guichaguri/trackplayer/service/player/LocalPlayback.java:137-150 | as written, index 0 given three times removes the track at position 2 of four even though it is playing |
| Removal.DistinctRemovalIsExact | android/src/main/java/com/guichaguri/trackplayer/service/player/LocalPlayback.java:137-154 | with repeats dropped, exactly the requested in-queue, non-current positions are removed, and the promise gets the lowest index, or null when that index is skipped |
| Removal.SortedRemoval | android/src/main/java/com/guichaguri/trackplayer/service/player/LocalPlayback.java:133-161 | one run over the sorted indexes: the queue keeps the survivors and, without repeats, exactly the requested positions are gone; the timeline keeps step; the window follows its track and drops by the removals below it; the promise gets the lowest index |
| Removal.DistinctSortedRemoval | android/src/main/java/com/guichaguri/trackplayer/service/player/LocalPlayback.java:133-161 | for indexes without repeats: exactly the requested in-queue, non-current positions are removed, the window drops by the number removed below it, and the promise gets the lowest index or null |
| Playback.EnableCaching | android/src/main/java/com/guichaguri/trackplayer/service/player/LocalPlayback.java:63-70 | a pass-through without a cache or with a non-positive size; otherwise a cached factory over the given one that ignores the cache on errors |
| Playback.BuildSources | android/src/main/java/com/guichaguri/trackplayer/service/player/LocalPlayback.java:119-123 | no sources exactly when some track is unreadable; otherwise every track's source in order, with every user agent filled in; a user agent is only ever unchanged or filled in |
| Playback.RetainedStep | android/src/main/java/com/guichaguri/trackplayer/service/player/LocalPlayback.java:87-93 | visiting one key keeps the retained key set when that removal fails, and drops the key otherwise |
| Playback.LocalPlayback.constructor | android/src/main/java/com/guichaguri/trackplayer/service/player/LocalPlayback.java:42-46 | no cache, not prepared, empty queue, trackers unset |
| Playback.LocalPlayback.Initialize | android/src/main/java/com/guichaguri/trackplayer/service/player/LocalPlayback.java:49-61 | the cache is opened only for a positive size; then the queue is reset: both lists empty, not prepared, trackers unset, one prepare request, and the manager is told |
| Playback.LocalPlayback.IsCached | android/src/main/java/com/guichaguri/trackplayer/service/player/LocalPlayback.java:72-75 | a null-pointer failure without a cache; otherwise whether any span is held for the URL |
| Playback.LocalPlayback.GetCacheSize | android/src/main/java/com/guichaguri/trackplayer/service/player/LocalPlayback.java:77-83 | 0 without a cache; otherwise the bytes held under every key |
| Playback.LocalPlayback.ClearCache | android/src/main/java/com/guichaguri/trackplayer/service/player/LocalPlayback.java:85-98 | every key held on entry is removed except those whose removal fails, and the cache still holds one entry per key; with no cache nothing happens |
| Playback.LocalPlayback.Prepare | android/src/main/java/com/guichaguri/trackplayer/service/player/LocalPlayback.java:100-106 | afterwards prepared; the player is told to prepare only when it was not prepared, so a second call does nothing |
| Playback.LocalPlayback.Add | android/src/main/java/com/guichaguri/trackplayer/service/player/LocalPlayback.java:108-115 | an index outside the queue throws and changes nothing; otherwise the track is in the queue at the index and only its user agent changes, and its source is inserted there too unless its resource cannot be opened, which throws with the queue one longer than the timeline |
| Playback.LocalPlayback.AddTracks | android/src/main/java/com/guichaguri/trackplayer/service/player/LocalPlayback.java:117-130 | an unreadable track throws before either list changes; an index outside the queue throws with nothing but user agents changed; otherwise tracks and their sources are spliced in at the index in order, both lists grow by the same amount, and the player is prepared |
| Playback.LocalPlayback.Splice | android/src/main/java/com/guichaguri/trackplayer/service/player/LocalPlayback.java:125-129 | an index outside the queue throws and changes nothing; otherwise both lists take the new entries at the index and the player is prepared |
| Playback.LocalPlayback.Remove | android/src/main/java/com/guichaguri/trackplayer/service/player/LocalPlayback.java:132-161 | the queue keeps its survivors in order; without repeats, exactly the requested in-queue, non-current indexes are removed; lengths stay in step; the window follows its track, drops by the removals below it, and stays put when unset; the promise gets the lowest sorted index or null |
| Playback.LocalPlayback.RemoveSorted | android/src/main/java/com/guichaguri/trackplayer/service/player/LocalPlayback.java:139-160 | the queue, timeline, window and resolution are those of the loop over the sorted indexes; nothing else changes |
| Playback.LocalPlayback.RemoveIndex | android/src/main/java/com/guichaguri/trackplayer/service/player/LocalPlayback.java:140-159 | an index that is current or outside the queue is skipped; otherwise it is removed from both lists and a window above it moves down |
| Playback.LocalPlayback.RemoveUpcomingTracks | android/src/main/java/com/guichaguri/trackplayer/service/player/LocalPlayback.java:163-172 | nothing changes without a current index; otherwise the queue is cut to the entries up to the current one, which are unchanged, and the timeline loses the same positions where it has them (when the two were in step, it is cut the same way) |
| Playback.LocalPlayback.SetRepeatMode | android/src/main/java/com/guichaguri/trackplayer/service/player/LocalPlayback.java:174-177 | the player repeat mode is set; nothing else changes |
| Playback.LocalPlayback.GetRepeatMode | android/src/main/java/com/guichaguri/trackplayer/service/player/LocalPlayback.java:179-181 | the player repeat mode |
| Playback.LocalPlayback.ResetQueue | android/src/main/java/com/guichaguri/trackplayer/service/player/LocalPlayback.java:183-195 | both lists empty, not prepared, trackers unset, one prepare request, and the manager is told of the reset |
| Playback.LocalPlayback.Play | android/src/main/java/com/guichaguri/trackplayer/service/player/LocalPlayback.java:197-201 | prepared before the superclass plays |
| Playback.LocalPlayback.Stop | android/src/main/java/com/guichaguri/trackplayer/service/player/LocalPlayback.java:203-207 | the superclass stops, then the flag is cleared |
| Playback.LocalPlayback.SeekTo | android/src/main/java/com/guichaguri/trackplayer/service/player/LocalPlayback.java:209-213 | prepared before the superclass seeks |
| Playback.LocalPlayback.Reset | android/src/main/java/com/guichaguri/trackplayer/service/player/LocalPlayback.java:215-224 | the queue is reset after the superclass resets, and the manager then gets the track and position from before the reset |
| Playback.LocalPlayback.OnPlaybackStateChanged | android/src/main/java/com/guichaguri/trackplayer/service/player/LocalPlayback.java:236-243 | the flag is cleared exactly for the ended state, and kept otherwise |
| Playback.LocalPlayback.OnPlayerError | android/src/main/java/com/guichaguri/trackplayer/service/player/LocalPlayback.java:245-249 | the flag is cleared |
| Playback.LocalPlayback.Destroy | android/src/main/java/com/guichaguri/trackplayer/service/player/LocalPlayback.java:251-263 | after the superclass destroy, a present cache is released and dropped, unless the release throws, in which case it is kept |

## Left out

- Four behaviours of the source are kept as written, although a caller would expect otherwise:
  - `remove` resolves with the lowest sorted index when that index was removed, and with null when it was skipped, even if other indexes were removed (`Removal.RemoveResolution`).
  - In the single-track `add`, a track whose embedded resource cannot be opened leaves the queue one longer than the timeline (`Playback.LocalPlayback.Add`).
  - With repeated indexes, `remove` can remove an index that was not requested, and even the playing track (see Findings).
  - `isCached` reads the cache without checking for null, so without a cache it throws rather than answering "not cached" (`Playback.LocalPlayback.IsCached`).
- TrackType.java is not part of this model. The type names are taken to be `default`, `dash`, `hls` and `smoothstreaming`, in that declaration order.
- `TrackTypes.EqualsIgnoreCase`: case folding covers ASCII letters only, not the full Unicode folding of `String.equalsIgnoreCase`.
- `Utils.getRawResourceId`, `Utils.getUri` and `Utils.isLocal`, and whether opening a raw resource succeeds, are not visible. They are uninterpreted fields of `MediaSources.Context`.
- `MediaSources.DefaultUserAgent`: `Util.getUserAgent` is modelled as the application name, a slash, and a context-given suffix. The library's exact format is not modelled.
- The media player's internals are not modelled, including how its current index moves when the timeline is edited. The model keeps the index as it was.
- The superclass's own work is not modelled: `ExoPlayback` initialize, play, stop, seekTo, reset and destroy, and the state-change and error callbacks. Neither are the manager's callbacks. Each call is recorded in `trace`, in order.
- `getCurrentTrackIndex` belongs to the superclass and is a parameter of `Playback.LocalPlayback.Reset`.
- `Playback.LocalPlayback.constructor` assumes that the superclass starts with an empty queue and unset trackers.
- Volume get and set are float pass-throughs and are not modelled.
- `toMediaMetadata` and `toQueueItem` are not modelled. Neither is the rating type passed to the superclass's `setMetadata` (`TrackMetadata` is not part of this model).
- `queueId` is not modelled, because it depends on the clock.
- Cache eviction (least recently used) is done by the cache itself and is not modelled. Neither is the cache directory, the database provider or the file system. `Initialize` receives the store found on disk as a parameter, and that store is taken to hold one entry per key, as the cache's index does.
- Logging is not modelled.
- `Collections.sort` sorts the caller's list in place. The model sorts a copy, so the caller does not see the reordering.
- `Playback.BuildSources`: when a later track fails, the earlier tracks' user agents have been filled in. The contract states only that each user agent is unchanged or filled in, not which ones were filled.
- `Playback.LocalPlayback.AddTracks`: `List.addAll` rejects a bad index only after the sources have been built. The model keeps that order, so user agents may already be filled in when that failure is reported, and the contract says so.
- `Playback.LocalPlayback.ClearCache`: which removals throw is not known, so it is a parameter (`failing`). The order of removal within the key set does not affect the result and is not modelled.
- `Playback.LocalPlayback.Destroy`: whether the cache's release throws is a parameter. Without a cache, nothing is released.

## Findings

| source | as written | input that shows it | evidently intended | confidence | as-written member | corrected member |
|---|---|---|---|---|---|---|
| android/src/main/java/com/guichaguri/trackplayer/service/player/LocalPlayback.java:137-150 | after sorting, each index is removed against the queue as already shortened, so a repeated index removes the track that moved into its place | `remove([1, 1])` on three tracks while track 0 plays leaves only track 0, so track 2 was removed without being requested; `remove([0, 0, 0])` on four tracks while track 2 plays removes the playing track | each requested index removes the track that was at that position on entry, and the playing track is never removed (repeats dropped before the loop) | not executed | Removal.RepeatedIndexRemovesNeighbour, Removal.RepeatedIndexRemovesCurrent | Removal.DistinctRemovalIsExact |

The class method `Playback.LocalPlayback.Remove` keeps the code as written. Its exactness, window-drift and resolution clauses are stated for indexes without repeats, where the as-written loop and the corrected one agree.

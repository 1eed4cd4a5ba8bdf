/**
 * The media engine the controller drives (an `ExoPlayer`), reduced to the
 * state the controller reads and edits: the timeline of media sources, the
 * current item index, the playback position, the repeat mode, and how many
 * times it has been told to prepare. Argument handling of the timeline edits
 * follows the engine's: an insertion index past the end appends, and removing
 * an index past the end does nothing.
 */
module Engine {
  import opened MediaSources
  import opened Sequences

  /** `C.INDEX_UNSET`. */
  const IndexUnset: int := -1

  class Player {
    var timeline: seq<MediaSource>
    var currentIndex: int
    var position: int
    var repeatMode: int
    var prepareCount: nat

    /** The current index is an item index or `IndexUnset`. */
    ghost predicate Valid()
      reads this
    {
      currentIndex >= IndexUnset
    }

    constructor (timeline: seq<MediaSource>, currentIndex: int, position: int, repeatMode: int)
      requires currentIndex >= IndexUnset
      ensures Valid()
      ensures this.timeline == timeline && this.currentIndex == currentIndex
      ensures this.position == position && this.repeatMode == repeatMode && prepareCount == 0
    {
      this.timeline := timeline;
      this.currentIndex := currentIndex;
      this.position := position;
      this.repeatMode := repeatMode;
      prepareCount := 0;
    }

    /** `prepare()`. */
    method Prepare()
      modifies this
      ensures prepareCount == old(prepareCount) + 1
      ensures timeline == old(timeline) && currentIndex == old(currentIndex)
      ensures position == old(position) && repeatMode == old(repeatMode)
    {
      prepareCount := prepareCount + 1;
    }

    /** `addMediaSources(index, sources)` (and `addMediaSource` for one source). */
    method AddMediaSources(index: int, sources: seq<MediaSource>)
      requires index >= 0
      modifies this
      ensures timeline == InsertClamped(old(timeline), index, sources)
      ensures currentIndex == old(currentIndex) && position == old(position)
      ensures repeatMode == old(repeatMode) && prepareCount == old(prepareCount)
    {
      timeline := InsertClamped(timeline, index, sources);
    }

    /** `removeMediaItem(index)`. */
    method RemoveMediaItem(index: int)
      requires index >= 0
      modifies this
      ensures timeline == DeleteIfPresent(old(timeline), index)
      ensures currentIndex == old(currentIndex) && position == old(position)
      ensures repeatMode == old(repeatMode) && prepareCount == old(prepareCount)
    {
      timeline := DeleteIfPresent(timeline, index);
    }

    /** `clearMediaItems()`. */
    method ClearMediaItems()
      modifies this
      ensures timeline == []
      ensures currentIndex == old(currentIndex) && position == old(position)
      ensures repeatMode == old(repeatMode) && prepareCount == old(prepareCount)
    {
      timeline := [];
    }

    /** `setRepeatMode(mode)`. */
    method SetRepeatMode(mode: int)
      modifies this
      ensures repeatMode == mode
      ensures timeline == old(timeline) && currentIndex == old(currentIndex)
      ensures position == old(position) && prepareCount == old(prepareCount)
    {
      repeatMode := mode;
    }
  }
}

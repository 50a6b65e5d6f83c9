/** The page shell: the current frame index with its Previous/Next buttons,
    the page's own copy of the current frame's boxes, and deletion of a box
    from the list beside the frame. The video metadata is taken as already
    loaded; only its `frame_count` is used here. */
module VideoLabelingTool {
  import opened Geometry
  import opened BoundingBoxesContext

  /** The updater of `handleNextFrame`: `Math.min(i + 1, frame_count - 1)`. */
  function NextFrame(i: int, frameCount: int): (r: int)
    // before the last frame it advances by one
    ensures i < frameCount - 1 ==> r == i + 1
    // from the last frame (or past it) it goes to the last frame
    ensures i >= frameCount - 1 ==> r == frameCount - 1
  {
    Min(i + 1, frameCount - 1)
  }

  /** The updater of `handlePreviousFrame`: `Math.max(i - 1, 0)`. */
  function PreviousFrame(i: int): (r: int)
    ensures i > 0 ==> r == i - 1
    ensures i <= 0 ==> r == 0
  {
    Max(i - 1, 0)
  }

  /** `disabled={currentFrameIndex === 0}` on "Previous Frame". */
  predicate PreviousDisabled(i: int) {
    i == 0
  }

  /** `disabled={currentFrameIndex === frame_count - 1}` on "Next Frame". */
  predicate NextDisabled(i: int, frameCount: int) {
    i == frameCount - 1
  }

  /** Within the frame range, a button is disabled exactly when pressing it
      would leave the index where it is. */
  lemma DisabledIffNoMove(i: int, frameCount: int)
    requires 0 <= i <= frameCount - 1
    ensures PreviousDisabled(i) <==> PreviousFrame(i) == i
    ensures NextDisabled(i, frameCount) <==> NextFrame(i, frameCount) == i
  {
  }

  /** In the range, Next and Previous undo each other away from the ends. */
  lemma NextPreviousInverse(i: int, frameCount: int)
    requires 0 <= i < frameCount - 1
    ensures PreviousFrame(NextFrame(i, frameCount)) == i
    ensures NextFrame(PreviousFrame(i + 1), frameCount) == i + 1
  {
  }

  /** A video whose metadata reports no frames: Next from frame 0 gives -1. */
  lemma NextWithoutFrames()
    ensures NextFrame(0, 0) == -1 && !NextDisabled(0, 0)
  {
  }

  datatype Navigation = Next | Previous

  /** The frame index after pressing the buttons in `presses`, in order. */
  function Navigate(i: int, frameCount: int, presses: seq<Navigation>): int
    decreases |presses|
  {
    if presses == [] then i
    else
      var j := match presses[0]
        case Next => NextFrame(i, frameCount)
        case Previous => PreviousFrame(i);
      Navigate(j, frameCount, presses[1..])
  }

  /** With at least one frame, any presses from an index in range stay in
      range; in particular from the initial index 0. */
  lemma {:induction false} NavigateStaysInRange(i: int, frameCount: int, presses: seq<Navigation>)
    requires frameCount >= 1 && 0 <= i <= frameCount - 1
    ensures 0 <= Navigate(i, frameCount, presses) <= frameCount - 1
    decreases |presses|
  {
    if presses != [] {
      var j := match presses[0]
        case Next => NextFrame(i, frameCount)
        case Previous => PreviousFrame(i);
      NavigateStaysInRange(j, frameCount, presses[1..]);
    }
  }

  /** `updatedBoxes.splice(index, 1)` on a copy, for a non-negative index:
      the element at `index` is removed and the later ones shift down by one;
      an index at or past the end removes nothing. */
  function SpliceOne(boxes: seq<Box>, index: nat): (r: seq<Box>)
    ensures index < |boxes| ==> |r| == |boxes| - 1
    ensures index < |boxes| ==> forall k :: 0 <= k < index ==> r[k] == boxes[k]
    ensures index < |boxes| ==> forall k :: index <= k < |r| ==> r[k] == boxes[k + 1]
    ensures index >= |boxes| ==> r == boxes
  {
    if index < |boxes| then boxes[..index] + boxes[index + 1..] else boxes
  }

  /** Deleting takes exactly one occurrence of the deleted box out of the
      frame's boxes and leaves the rest. */
  lemma SpliceOneRemovesOne(boxes: seq<Box>, index: nat)
    requires index < |boxes|
    ensures multiset(SpliceOne(boxes, index)) + multiset{boxes[index]} == multiset(boxes)
  {
    assert boxes == boxes[..index] + [boxes[index]] + boxes[index + 1..];
  }

  /** Deleting with an index past the end any number of times is the same as
      not deleting. */
  lemma SpliceOnePastEndIdempotent(boxes: seq<Box>, index: nat)
    requires index >= |boxes|
    ensures SpliceOne(SpliceOne(boxes, index), index) == SpliceOne(boxes, index) == boxes
  {
  }

  /** The state cells of the mounted page. */
  class LabelingTool {
    /** `videoMetaData.frame_count`. */
    const frameCount: int
    var frameIndex: int
    /** The page's copy of the current frame's boxes. */
    var boxes: seq<Box>
    /** The annotation cache provider from the context. */
    const provider: Provider

    /** The local copy agrees with the cache for the current frame. */
    ghost predicate Synced()
      reads this, provider
    {
      boxes == BoxesFor(provider.cache, frameIndex)
    }

    ghost predicate InRange()
      reads this
    {
      0 <= frameIndex <= frameCount - 1
    }

    /** Mounting: `useState(0)` for the index and `useState([])` for the boxes. */
    constructor (frameCount: int, provider: Provider)
      ensures this.frameCount == frameCount && this.provider == provider
      ensures frameIndex == 0 && boxes == []
      ensures frameCount >= 1 ==> InRange()
    {
      this.frameCount := frameCount;
      this.provider := provider;
      frameIndex := 0;
      boxes := [];
    }

    /** The effect run on a change of frame index or cache. */
    method SyncFromCache()
      modifies this
      ensures Synced()
      ensures boxes == BoxesFor(provider.cache, frameIndex)
      ensures frameIndex == old(frameIndex)
    {
      boxes := BoxesFor(provider.cache, frameIndex);
    }

    /** Whether the "Previous Frame" and "Next Frame" buttons are disabled. */
    function ButtonsDisabled(): (r: (bool, bool))
      reads this
      ensures r.0 <==> frameIndex == 0
      ensures r.1 <==> frameIndex == frameCount - 1
    {
      (PreviousDisabled(frameIndex), NextDisabled(frameIndex, frameCount))
    }

    method HandleNextFrame()
      modifies this
      ensures frameIndex == NextFrame(old(frameIndex), frameCount)
      ensures old(InRange()) ==> InRange()
      ensures boxes == old(boxes)
    {
      frameIndex := Min(frameIndex + 1, frameCount - 1);
    }

    method HandlePreviousFrame()
      modifies this
      ensures frameIndex == PreviousFrame(old(frameIndex))
      ensures old(InRange()) ==> InRange()
      ensures boxes == old(boxes)
    {
      frameIndex := Max(frameIndex - 1, 0);
    }

    /** `handleDeleteBox(index)`: splice a copy of the local boxes, keep it
        locally and write it back to the cache entry of the current frame. */
    method HandleDeleteBox(index: nat)
      modifies this, provider
      ensures boxes == SpliceOne(old(boxes), index)
      ensures provider.cache == Update(old(provider.cache), frameIndex, boxes)
      ensures old(Synced()) ==> Synced()
      ensures frameIndex == old(frameIndex)
      ensures provider.storage == old(provider.storage)
    {
      var updatedBoxes := boxes;
      if index < |updatedBoxes| {
        updatedBoxes := updatedBoxes[..index] + updatedBoxes[index + 1..];
      }
      boxes := updatedBoxes;
      provider.UpdateBoundingBoxesCache(frameIndex, updatedBoxes);
    }
  }

  /** Deleting the middle of three boxes on frame 2 leaves the other two, in
      order, for that frame, and frame 5 keeps its boxes. */
  method DeleteMiddleBox(a: Box, b: Box, c: Box, other: seq<Box>) returns (frame2: seq<Box>, frame5: seq<Box>)
    ensures frame2 == [a, c]
    ensures frame5 == other
  {
    var provider := new Provider(map[]);
    provider.UpdateBoundingBoxesCache(2, [a, b, c]);
    provider.UpdateBoundingBoxesCache(5, other);
    var tool := new LabelingTool(10, provider);
    tool.HandleNextFrame();
    tool.HandleNextFrame();
    tool.SyncFromCache();
    tool.HandleDeleteBox(1);
    frame2 := BoxesFor(provider.cache, 2);
    frame5 := BoxesFor(provider.cache, 5);
  }
}

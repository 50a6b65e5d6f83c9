/** The frame viewer component: the drag-to-draw pointer state machine over
    the frame image, its copy of the current frame's boxes, and the
    zero-padded frame file name. */
module FrameViewer {
  import opened Geometry
  import opened JsText
  import opened BoundingBoxesContext

  /** The name of frame `i` in the frame store: `String(i).padStart(5, '0')`. */
  function FrameName(i: int): string {
    PadStart(JsString(i), 5, '0')
  }

  /** For a frame index that is not negative the name is all digits, five
      long or as long as the numeral if that is longer, and reads back as
      the index. */
  lemma FrameNameDigits(i: int)
    requires i >= 0
    ensures AllDigits(FrameName(i))
    ensures |FrameName(i)| == Max(5, |Decimal(i)|)
    ensures ParseDecimal(FrameName(i)) == i
  {
    var d := Decimal(i);
    var name := FrameName(i);
    var z := name[..|name| - |d|];
    assert name == z + d;
    ParseDecimalLeadingZeros(z, d);
    ParseDecimalOfDecimal(i);
  }

  /** Every index below 100000 gets a name of exactly five characters. */
  lemma FrameNameFiveLong(i: int)
    requires 0 <= i < 100000
    ensures |FrameName(i)| == 5
  {
    assert Pow10(5) == 100000;
    DecimalLength(i, 5);
  }

  /** Two frames share a name exactly when they are the same frame. */
  lemma FrameNameInjective(i: int, j: int)
    requires i >= 0 && j >= 0
    ensures FrameName(i) == FrameName(j) <==> i == j
  {
    FrameNameDigits(i);
    FrameNameDigits(j);
  }

  lemma FrameNameOfZero()
    ensures FrameName(0) == "00000"
  {
    assert JsString(0) == "0";
    assert PadStart("0", 5, '0') == PadStart("00", 5, '0');
    assert PadStart("00", 5, '0') == PadStart("000", 5, '0');
    assert PadStart("000", 5, '0') == PadStart("0000", 5, '0');
    assert PadStart("0000", 5, '0') == PadStart("00000", 5, '0');
  }

  /** A negative index is padded after its sign is written. */
  lemma FrameNameOfMinusOne()
    ensures FrameName(-1) == "000-1"
  {
    assert JsString(-1) == "-1";
    assert PadStart("-1", 5, '0') == PadStart("0-1", 5, '0');
    assert PadStart("0-1", 5, '0') == PadStart("00-1", 5, '0');
    assert PadStart("00-1", 5, '0') == PadStart("000-1", 5, '0');
  }

  /** The state cells of one mounted FrameViewer. */
  class Viewer {
    /** The `currentFrameIndex` property. */
    var frameIndex: int
    var drawing: bool
    var startPoint: Point
    var endPoint: Point
    /** The local copy of the current frame's boxes. */
    var boxes: seq<Box>
    /** The annotation cache provider from the context. */
    const provider: Provider

    /** The local copy agrees with the cache for the current frame. */
    ghost predicate Synced()
      reads this, provider
    {
      boxes == BoxesFor(provider.cache, frameIndex)
    }

    /** Mounting: not drawing, both points at (0, 0), no local boxes. */
    constructor (frameIndex: int, provider: Provider)
      ensures this.frameIndex == frameIndex && this.provider == provider
      ensures !drawing && startPoint == Point(0, 0) && endPoint == Point(0, 0)
      ensures boxes == []
    {
      this.frameIndex := frameIndex;
      this.provider := provider;
      drawing := false;
      startPoint := Point(0, 0);
      endPoint := Point(0, 0);
      boxes := [];
    }

    /** The parent re-renders the viewer with a new `currentFrameIndex`. */
    method SetFrameIndex(i: int)
      modifies this
      ensures frameIndex == i
      ensures drawing == old(drawing) && startPoint == old(startPoint) && endPoint == old(endPoint)
      ensures boxes == old(boxes)
    {
      frameIndex := i;
    }

    /** The effect run on a change of frame index or cache. */
    method SyncFromCache()
      modifies this
      ensures Synced()
      ensures boxes == BoxesFor(provider.cache, frameIndex)
      ensures frameIndex == old(frameIndex) && drawing == old(drawing)
      ensures startPoint == old(startPoint) && endPoint == old(endPoint)
    {
      boxes := BoxesFor(provider.cache, frameIndex);
    }

    /** Pointer press at `client`, with the image's rectangle at `origin`.
        The end point is left as it was. */
    method HandleMouseDown(client: Point, origin: Point)
      modifies this
      ensures drawing && startPoint == SurfaceLocal(client, origin)
      ensures endPoint == old(endPoint) && boxes == old(boxes) && frameIndex == old(frameIndex)
    {
      drawing := true;
      startPoint := SurfaceLocal(client, origin);
    }

    /** Pointer move: ignored unless a drag is in progress. */
    method HandleMouseMove(client: Point, origin: Point)
      modifies this
      ensures old(drawing) ==> endPoint == SurfaceLocal(client, origin)
      ensures !old(drawing) ==> endPoint == old(endPoint)
      ensures drawing == old(drawing) && startPoint == old(startPoint)
      ensures boxes == old(boxes) && frameIndex == old(frameIndex)
    {
      if !drawing {
        return;
      }
      endPoint := SurfaceLocal(client, origin);
    }

    /** Pointer release: during a drag, the normalised box of the start and
        end points is appended to the local boxes and written to the cache
        for the current frame; otherwise nothing happens. */
    method HandleMouseUp()
      modifies this, provider
      ensures !drawing
      ensures old(drawing) ==> boxes == old(boxes) + [Normalize(old(startPoint), old(endPoint))]
      ensures old(drawing) ==> provider.cache == Update(old(provider.cache), frameIndex, boxes)
      ensures !old(drawing) ==> boxes == old(boxes) && provider.cache == old(provider.cache)
      ensures old(Synced()) && old(drawing) ==>
                provider.cache == CommitBox(old(provider.cache), frameIndex, Normalize(old(startPoint), old(endPoint)))
      ensures old(Synced()) ==> Synced()
      ensures startPoint == old(startPoint) && endPoint == old(endPoint) && frameIndex == old(frameIndex)
      ensures provider.storage == old(provider.storage)
    {
      if drawing {
        drawing := false;
        var newBox := Normalize(startPoint, endPoint);
        var updatedBoxes := boxes + [newBox];
        boxes := updatedBoxes;
        provider.UpdateBoundingBoxesCache(frameIndex, updatedBoxes);
      }
    }

    /** Pointer leaving the surface: the drag ends and nothing is committed. */
    method HandleMouseOut()
      modifies this
      ensures !drawing
      ensures startPoint == old(startPoint) && endPoint == old(endPoint)
      ensures boxes == old(boxes) && frameIndex == old(frameIndex)
    {
      drawing := false;
    }
  }

  /** A press and release with no move in between on a fresh viewer commits
      the box between the press point and (0, 0), the end point's initial
      value, not a zero-size box at the press point. */
  method ClickWithoutMove() returns (committed: seq<Box>)
    ensures committed == [Box(0, 0, 100, 100)]
  {
    var provider := new Provider(map[]);
    var viewer := new Viewer(3, provider);
    viewer.HandleMouseDown(Point(100, 100), Point(0, 0));
    viewer.HandleMouseUp();
    committed := BoxesFor(provider.cache, 3);
  }

  /** The end point of one gesture carries over into the next: after a drag
      to (30, 40), a click at (100, 100) commits the box from (30, 40) to
      (100, 100). */
  method ClickAfterDrag() returns (committed: seq<Box>)
    ensures committed == [Box(10, 10, 20, 30), Box(30, 40, 70, 60)]
  {
    var provider := new Provider(map[]);
    var viewer := new Viewer(3, provider);
    viewer.HandleMouseDown(Point(15, 12), Point(5, 2));
    viewer.HandleMouseMove(Point(35, 42), Point(5, 2));
    viewer.HandleMouseUp();
    viewer.HandleMouseDown(Point(105, 102), Point(5, 2));
    viewer.HandleMouseUp();
    committed := BoxesFor(provider.cache, 3);
  }

  /** Leaving the surface mid-drag commits nothing, and a later release is
      ignored. */
  method LeaveMidDrag(existing: seq<Box>) returns (committed: seq<Box>)
    ensures committed == existing
  {
    var provider := new Provider(map[]);
    provider.UpdateBoundingBoxesCache(3, existing);
    var viewer := new Viewer(3, provider);
    viewer.SyncFromCache();
    viewer.HandleMouseDown(Point(100, 100), Point(0, 0));
    viewer.HandleMouseMove(Point(150, 120), Point(0, 0));
    viewer.HandleMouseOut();
    viewer.HandleMouseMove(Point(170, 130), Point(0, 0));
    viewer.HandleMouseUp();
    committed := BoxesFor(provider.cache, 3);
  }
}

/** The canvas overlay component: the same drag-to-draw state machine as the
    frame viewer, and the ordered list of rectangles its redraw effect asks
    the canvas to draw. Each draw request is reduced to the rectangle, its
    "Box k" label and whether the translucent fill is on; clearing, stroke
    styles, fonts and text measurement are canvas calls left out. */
module BoundingBoxCanvas {
  import opened Geometry
  import opened JsText
  import opened BoundingBoxesContext

  /** One `drawBoundingBox` call: the outlined rectangle, the label drawn by
      `drawTextBG` at its top-left corner, and whether it is filled (only the
      in-progress box, marked `isDrawing`, is). */
  datatype DrawItem = DrawItem(box: Box, text: string, filled: bool)

  /** The label `drawTextBG` writes for draw index `index`: `Box ${index + 1}`. */
  function Label(index: int): string {
    "Box " + JsString(index + 1)
  }

  /** `drawBoundingBox(ctx, box, index)`. */
  function DrawCall(box: Box, index: int, filled: bool): DrawItem {
    DrawItem(box, Label(index), filled)
  }

  /** The draws of the `forEach` over the committed boxes, in order. */
  function CommittedItems(boxes: seq<Box>): seq<DrawItem>
    decreases |boxes|
  {
    if boxes == [] then []
    else CommittedItems(boxes[..|boxes| - 1]) + [DrawCall(boxes[|boxes| - 1], |boxes| - 1, false)]
  }

  /** Everything the redraw effect draws after clearing the canvas: the
      committed boxes, then the in-progress box while a drag is on. */
  function DrawList(boxes: seq<Box>, drawing: bool, startPoint: Point, endPoint: Point): seq<DrawItem> {
    CommittedItems(boxes)
      + if drawing then [DrawCall(Normalize(startPoint, endPoint), |boxes|, true)] else []
  }

  /** The committed part lists each box at its own position, labelled with
      its 1-based position, and unfilled. */
  lemma {:induction false} CommittedItemsAt(boxes: seq<Box>, i: int)
    requires 0 <= i < |boxes|
    ensures |CommittedItems(boxes)| == |boxes|
    ensures CommittedItems(boxes)[i] == DrawItem(boxes[i], "Box " + Decimal(i + 1), false)
    decreases |boxes|
  {
    if i < |boxes| - 1 {
      CommittedItemsAt(boxes[..|boxes| - 1], i);
    } else if i > 0 {
      CommittedItemsAt(boxes[..|boxes| - 1], 0);
    }
  }

  lemma {:induction false} CommittedItemsLength(boxes: seq<Box>)
    ensures |CommittedItems(boxes)| == |boxes|
    decreases |boxes|
  {
    if boxes != [] {
      CommittedItemsLength(boxes[..|boxes| - 1]);
    }
  }

  /** The draw list: one unfilled entry per committed box, in sequence
      order, the box at position i labelled "Box i+1"; then, exactly when a
      drag is on, one filled entry for the normalised rectangle of the drag,
      labelled one past the committed boxes. */
  lemma DrawListShape(boxes: seq<Box>, drawing: bool, s: Point, e: Point)
    ensures |DrawList(boxes, drawing, s, e)| == |boxes| + (if drawing then 1 else 0)
    ensures forall i :: 0 <= i < |boxes| ==>
              DrawList(boxes, drawing, s, e)[i] == DrawItem(boxes[i], "Box " + Decimal(i + 1), false)
    ensures drawing ==>
              DrawList(boxes, drawing, s, e)[|boxes|] == DrawItem(Normalize(s, e), "Box " + Decimal(|boxes| + 1), true)
    ensures !drawing ==> forall k :: 0 <= k < |DrawList(boxes, drawing, s, e)| ==> !DrawList(boxes, drawing, s, e)[k].filled
  {
    CommittedItemsLength(boxes);
    forall i | 0 <= i < |boxes|
      ensures DrawList(boxes, drawing, s, e)[i] == DrawItem(boxes[i], "Box " + Decimal(i + 1), false)
    {
      CommittedItemsAt(boxes, i);
    }
  }

  /** Labels of different non-negative draw indices differ. */
  lemma LabelInjective(i: int, j: int)
    requires i >= 0 && j >= 0
    requires Label(i) == Label(j)
    ensures i == j
  {
    assert JsString(i + 1) == Label(i)[4..];
    assert JsString(j + 1) == Label(j)[4..];
    DecimalInjective(i + 1, j + 1);
  }

  /** Every entry of a draw list is labelled from its own position. */
  lemma DrawListTextAt(boxes: seq<Box>, drawing: bool, s: Point, e: Point, k: int)
    requires 0 <= k < |DrawList(boxes, drawing, s, e)|
    ensures DrawList(boxes, drawing, s, e)[k].text == Label(k)
  {
    CommittedItemsLength(boxes);
    if k < |boxes| {
      CommittedItemsAt(boxes, k);
    }
  }

  /** No two entries of a draw list carry the same label. */
  lemma DrawListLabelsDistinct(boxes: seq<Box>, drawing: bool, s: Point, e: Point, i: int, j: int)
    requires 0 <= i < j < |DrawList(boxes, drawing, s, e)|
    ensures DrawList(boxes, drawing, s, e)[i].text != DrawList(boxes, drawing, s, e)[j].text
  {
    DrawListTextAt(boxes, drawing, s, e, i);
    DrawListTextAt(boxes, drawing, s, e, j);
    if Label(i) == Label(j) {
      LabelInjective(i, j);
    }
  }

  /** The immediate draw on release uses index `updatedBoxes.length`, so the
      new box at position n (n the number of boxes before the release) is
      labelled "Box n+2", while the redraw labels the same box "Box n+1". */
  lemma ReleaseLabelOneHigher(boxes: seq<Box>, newBox: Box, s: Point, e: Point)
    ensures DrawCall(newBox, |boxes + [newBox]|, false).text == "Box " + Decimal(|boxes| + 2)
    ensures |DrawList(boxes + [newBox], false, s, e)| == |boxes| + 1
    ensures DrawList(boxes + [newBox], false, s, e)[|boxes|].text == "Box " + Decimal(|boxes| + 1)
    ensures DrawCall(newBox, |boxes + [newBox]|, false).text != DrawList(boxes + [newBox], false, s, e)[|boxes|].text
  {
    DrawListShape(boxes + [newBox], false, s, e);
    if Label(|boxes| + 1) == Label(|boxes|) {
      LabelInjective(|boxes| + 1, |boxes|);
    }
  }

  /** The state cells of one mounted BoundingBoxCanvas. */
  class Canvas {
    /** The `currentFrameIndex` property. */
    var frameIndex: int
    var drawing: bool
    var startPoint: Point
    var endPoint: Point
    /** The local copy of the current frame's boxes. */
    var boxes: seq<Box>
    /** The annotation cache provider from the context. */
    const provider: Provider

    /** The local copy agrees with the cache for the current frame. */
    ghost predicate Synced()
      reads this, provider
    {
      boxes == BoxesFor(provider.cache, frameIndex)
    }

    /** Mounting: not drawing, both points at (0, 0), no local boxes. */
    constructor (frameIndex: int, provider: Provider)
      ensures this.frameIndex == frameIndex && this.provider == provider
      ensures !drawing && startPoint == Point(0, 0) && endPoint == Point(0, 0)
      ensures boxes == []
    {
      this.frameIndex := frameIndex;
      this.provider := provider;
      drawing := false;
      startPoint := Point(0, 0);
      endPoint := Point(0, 0);
      boxes := [];
    }

    /** The effect run on a change of frame index or cache. */
    method SyncFromCache()
      modifies this
      ensures Synced()
      ensures boxes == BoxesFor(provider.cache, frameIndex)
      ensures frameIndex == old(frameIndex) && drawing == old(drawing)
      ensures startPoint == old(startPoint) && endPoint == old(endPoint)
    {
      boxes := BoxesFor(provider.cache, frameIndex);
    }

    /** The redraw effect: the `forEach` over the committed boxes, then the
        in-progress box while drawing. */
    method Redraw() returns (items: seq<DrawItem>)
      ensures items == DrawList(boxes, drawing, startPoint, endPoint)
    {
      items := [];
      var index := 0;
      while index < |boxes|
        invariant 0 <= index <= |boxes|
        invariant items == CommittedItems(boxes[..index])
      {
        assert boxes[..index + 1][..index] == boxes[..index];
        items := items + [DrawCall(boxes[index], index, false)];
        index := index + 1;
      }
      assert boxes[..index] == boxes;
      if drawing {
        items := items + [DrawCall(Normalize(startPoint, endPoint), |boxes|, true)];
      }
    }

    /** Pointer press at `client`, with the canvas rectangle at `origin`.
        The end point is left as it was. */
    method HandleMouseDown(client: Point, origin: Point)
      modifies this
      ensures drawing && startPoint == SurfaceLocal(client, origin)
      ensures endPoint == old(endPoint) && boxes == old(boxes) && frameIndex == old(frameIndex)
    {
      drawing := true;
      startPoint := SurfaceLocal(client, origin);
    }

    /** Pointer move: ignored unless a drag is in progress. */
    method HandleMouseMove(client: Point, origin: Point)
      modifies this
      ensures old(drawing) ==> endPoint == SurfaceLocal(client, origin)
      ensures !old(drawing) ==> endPoint == old(endPoint)
      ensures drawing == old(drawing) && startPoint == old(startPoint)
      ensures boxes == old(boxes) && frameIndex == old(frameIndex)
    {
      if !drawing {
        return;
      }
      endPoint := SurfaceLocal(client, origin);
    }

    /** Pointer release: during a drag, the normalised box is appended to the
        local boxes and written to the cache for the current frame, and after
        clearing the canvas that box alone is drawn, with draw index
        `updatedBoxes.length`. Otherwise nothing happens and nothing is drawn. */
    method HandleMouseUp() returns (drawn: seq<DrawItem>)
      modifies this, provider
      ensures !drawing
      ensures old(drawing) ==> boxes == old(boxes) + [Normalize(old(startPoint), old(endPoint))]
      ensures old(drawing) ==> provider.cache == Update(old(provider.cache), frameIndex, boxes)
      ensures old(drawing) ==> drawn == [DrawCall(Normalize(old(startPoint), old(endPoint)), |boxes|, false)]
      ensures !old(drawing) ==> boxes == old(boxes) && provider.cache == old(provider.cache) && drawn == []
      ensures old(Synced()) ==> Synced()
      ensures startPoint == old(startPoint) && endPoint == old(endPoint) && frameIndex == old(frameIndex)
      ensures provider.storage == old(provider.storage)
    {
      drawn := [];
      if drawing {
        drawing := false;
        var newBox := Normalize(startPoint, endPoint);
        var updatedBoxes := boxes + [newBox];
        boxes := updatedBoxes;
        provider.UpdateBoundingBoxesCache(frameIndex, updatedBoxes);
        drawn := [DrawCall(newBox, |updatedBoxes|, false)];
      }
    }

    /** Pointer leaving the canvas: the drag ends and nothing is committed. */
    method HandleMouseOut()
      modifies this
      ensures !drawing
      ensures startPoint == old(startPoint) && endPoint == old(endPoint)
      ensures boxes == old(boxes) && frameIndex == old(frameIndex)
    {
      drawing := false;
    }
  }

  /** A full gesture on a canvas over a frame that already has two boxes:
      while dragging, the redraw shows the two boxes and a filled third; on
      release the new box is drawn alone as "Box 4"; the next redraw shows
      three unfilled boxes, the new one labelled "Box 3". */
  method DragOnCanvas(first: Box, second: Box)
    returns (whileDragging: seq<DrawItem>, onRelease: seq<DrawItem>, afterRelease: seq<DrawItem>)
    ensures |whileDragging| == 3 && whileDragging[2] == DrawItem(Box(10, 20, 40, 30), "Box 3", true)
    ensures onRelease == [DrawItem(Box(10, 20, 40, 30), "Box 4", false)]
    ensures |afterRelease| == 3 && afterRelease[2] == DrawItem(Box(10, 20, 40, 30), "Box 3", false)
  {
    var provider := new Provider(map[]);
    provider.UpdateBoundingBoxesCache(3, [first, second]);
    var canvas := new Canvas(3, provider);
    canvas.SyncFromCache();
    canvas.HandleMouseDown(Point(50, 50), Point(0, 0));
    canvas.HandleMouseMove(Point(10, 20), Point(0, 0));
    whileDragging := canvas.Redraw();
    DrawListShape([first, second], true, Point(50, 50), Point(10, 20));
    assert Decimal(3) == "3";
    onRelease := canvas.HandleMouseUp();
    assert canvas.boxes == [first, second, Box(10, 20, 40, 30)];
    assert Label(3) == "Box 4" by { assert Decimal(4) == "4"; }
    afterRelease := canvas.Redraw();
    DrawListShape([first, second, Box(10, 20, 40, 30)], false, Point(50, 50), Point(10, 20));
  }
}

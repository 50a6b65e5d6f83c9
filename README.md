# frame-labeler core in Dafny

A model of the annotation core of a browser tool for labelling video frames.
The user steps through the frames of a video and drags rectangles
("bounding boxes") over the current frame. The boxes are kept per frame
in a shared annotation cache, and the cache is mirrored to local storage.

The model covers four pieces:

- **The annotation cache** (`bounding_boxes_context.dfy`, module
  `BoundingBoxesContext`). The cache is a `map<int, seq<Box>>` from frame
  index to that frame's boxes. `Update` is the `{...prev, [frame]: boxes}`
  updater. The class `Provider` holds the cache state cell and the
  local-storage area. Its load and save effects are separate methods. The
  storage area is a map from key to stored cache, so the JSON text in
  between is not modelled. The save effect writes only a non-empty cache,
  and only under the key `bounding-boxes-cache`.
- **The drag-to-draw state machine** (`frame_viewer.dfy`, module
  `FrameViewer`, class `Viewer`; and `bounding_box_canvas.dfy`, module
  `BoundingBoxCanvas`, class `Canvas`). The fields are the state cells
  `drawing`, `startPoint`, `endPoint` and the local copy of the frame's
  boxes. There is one method per pointer handler, and each handler is one
  atomic step. The surface rectangle's origin is a parameter. On release
  the box is normalised with `min` and `abs` (`Geometry.Normalize`).
- **The canvas draw list** (`BoundingBoxCanvas.DrawList`). This is what the
  canvas redraw effect draws, in order. Each committed box gets the label
  "Box k", where k is its 1-based position. While dragging, one filled
  preview box follows. `Canvas.Redraw` is the `forEach` loop, proved to
  produce that list.
- **The page shell** (`video_labeling_tool.dfy`, module `VideoLabelingTool`).
  Next and Previous clamp the frame index, and each button is disabled on
  one condition. `handleDeleteBox` does `splice(index, 1)` on a copy of the
  boxes and writes the result back to the cache.

`geometry.dfy` holds points and boxes. `js_text.dfy` holds JavaScript's
`String(n)` and `padStart`, which give the frame file name
`String(i).padStart(5, '0')` and the "Box k" labels. `wrappers.dfy`
holds `Option`. Coordinates are integers, because the code only
subtracts them and takes `Math.min` and `Math.abs`.

The model follows the code in these places:

- Mouse-down does not reset `endPoint`. A press and release with no move
  in between therefore commits the box between the press point and the
  previous gesture's end point. On a fresh component that end point is
  (0, 0). A press at (100, 100) then commits (0, 0, 100, 100), not a
  zero-size box at (100, 100) (`FrameViewer.ClickWithoutMove`,
  `FrameViewer.ClickAfterDrag`).
- Mouse-out only clears `drawing`. The start and end points stay as they
  were.
- On release, the canvas clears itself and draws the new box alone, with
  draw index `updatedBoxes.length`. Its label is therefore one higher than
  its position: "Box n+2" for the box at position n. The next redraw labels
  it "Box n+1" (`BoundingBoxCanvas.ReleaseLabelOneHigher`).
- The load effect replaces the cache whenever the storage key is present.
  A present item is the JSON text of an object, and that text is never
  empty, so the source's `Object.keys(...).length > 0` test always passes
  for it. A stored `{}` therefore also hydrates.
- If the metadata reports zero frames, Next from frame 0 gives -1, because
  its button is not disabled (`VideoLabelingTool.NextWithoutFrames`). The
  name of frame -1 is `000-1` (`FrameViewer.FrameNameOfMinusOne`).

## Model

| member | source | states |
|---|---|---|
| `Geometry.SurfaceLocal` | src/FrameViewer/FrameViewer.jsx:56-59 | the surface-local point plus the surface origin is the client point |
| `Geometry.Normalize` | src/FrameViewer/FrameViewer.jsx:87-92 | the committed box has non-negative width and height, and its horizontal and vertical extents are exactly the spans between the two points |
| `Geometry.NormalizeCorners` | src/FrameViewer/FrameViewer.jsx:87-92 | the top-left corner is the componentwise min of start and end; the far corner (x+width, y+height) is the componentwise max |
| `Geometry.NormalizeSymmetric` | src/FrameViewer/FrameViewer.jsx:87-92 | dragging from S to E and from E to S commit the same box |
| `Geometry.NormalizeIsBoundingRectangle` | src/FrameViewer/FrameViewer.jsx:87-92 | the committed box contains both points and lies inside every non-negative box containing both |
| `Geometry.NormalizeOfCorners` | src/FrameViewer/FrameViewer.jsx:87-92 | every box of non-negative size is committed by the drag between its opposite corners, in either direction |
| `Geometry.NormalizeFourDirections` | src/FrameViewer/FrameViewer.jsx:87-92 | from (50,50), drags toward all four quadrants give the expected box, e.g. to (10,20) gives (10,20,40,30) |
| `JsText.Decimal` | src/FrameViewer/FrameViewer.jsx:29 | `String(n)` of a non-negative integer is a non-empty string of decimal digits |
| `JsText.PadStart` | src/FrameViewer/FrameViewer.jsx:29 | the result is as long as the larger of len and the length of s, ends with s, and every character before s is the fill character |
| `JsText.ParseDecimalOfDecimal` | src/FrameViewer/FrameViewer.jsx:29 | the numeral of n reads back as n |
| `JsText.ParseDecimalLeadingZeros` | src/FrameViewer/FrameViewer.jsx:29 | zero padding in front of a digit string does not change its value |
| `JsText.DecimalLength` | src/FrameViewer/FrameViewer.jsx:29 | the numeral of n has at most k digits iff n < 10^k |
| `JsText.DecimalNoLeadingZero` | src/FrameViewer/FrameViewer.jsx:29 | the numeral of a positive number does not start with '0' |
| `JsText.DecimalInjective` | src/FrameViewer/FrameViewer.jsx:29 | different numbers have different numerals |
| `FrameViewer.FrameNameDigits` | src/FrameViewer/FrameViewer.jsx:29 | for i >= 0 the frame name is all digits, has length max(5, digits of i) and reads back as i |
| `FrameViewer.FrameNameFiveLong` | src/FrameViewer/FrameViewer.jsx:29 | every index below 100000 gets a five-character name |
| `FrameViewer.FrameNameInjective` | src/FrameViewer/FrameViewer.jsx:29 | two non-negative frames have the same name iff they are the same frame |
| `FrameViewer.FrameNameOfZero` | src/FrameViewer/FrameViewer.jsx:29 | frame 0 is named `00000` |
| `FrameViewer.FrameNameOfMinusOne` | src/FrameViewer/FrameViewer.jsx:29 | frame -1 is named `000-1`: the sign is written before the padding |
| `BoundingBoxesContext.Update` | src/utils/BoundingBoxesContext.jsx:30-35 | the frame's entry becomes exactly the given boxes (replacement, not append); every other frame keeps its entry; the key set becomes old keys plus the frame |
| `BoundingBoxesContext.Persisted` | src/utils/BoundingBoxesContext.jsx:23-28 | an empty cache leaves storage as it was; a non-empty cache is stored under `bounding-boxes-cache`; no other key changes |
| `BoundingBoxesContext.Hydrated` | src/utils/BoundingBoxesContext.jsx:13-21 | with no stored item the cache is unchanged; with one the cache becomes the stored value |
| `BoundingBoxesContext.BoxesForUpdate` | src/utils/BoundingBoxesContext.jsx:30-35 | after an update, reading the updated frame gives the new boxes and reading any other frame gives what it gave before |
| `BoundingBoxesContext.UpdateIsPersisted` | src/utils/BoundingBoxesContext.jsx:25-35 | after any update the cache has a key, so the save effect stores exactly that cache |
| `BoundingBoxesContext.EmptyCacheNeverWritten` | src/utils/BoundingBoxesContext.jsx:10-28 | the initial `{}` never overwrites storage |
| `BoundingBoxesContext.PersistHydrateRoundTrip` | src/utils/BoundingBoxesContext.jsx:13-28 | saving a non-empty cache and loading it into a fresh provider gives back the same cache |
| `BoundingBoxesContext.CommitAllInOrder` | src/FrameViewer/FrameViewer.jsx:95-101 | boxes committed one after another on a frame are read back after the frame's old boxes, in call order, and other frames are unchanged |
| `BoundingBoxesContext.Provider.constructor` | src/utils/BoundingBoxesContext.jsx:10-11 | the provider starts with an empty cache over the existing storage |
| `BoundingBoxesContext.Provider.HydrateEffect` | src/utils/BoundingBoxesContext.jsx:13-21 | the cache becomes `Hydrated` of the stored item; storage is unchanged |
| `BoundingBoxesContext.Provider.PersistEffect` | src/utils/BoundingBoxesContext.jsx:23-28 | storage becomes `Persisted` of the current cache; the cache is unchanged |
| `BoundingBoxesContext.Provider.UpdateBoundingBoxesCache` | src/utils/BoundingBoxesContext.jsx:30-35 | the cache becomes `Update` of the old cache; storage is unchanged |
| `BoundingBoxesContext.Mount` | src/utils/BoundingBoxesContext.jsx:10-28 | over the effect sequence of a session start, the stored snapshot (or `{}` if none) becomes the cache and storage ends as it began |
| `FrameViewer.Viewer.constructor` | src/FrameViewer/FrameViewer.jsx:9-12 | not drawing, both points at (0,0), no local boxes |
| `FrameViewer.Viewer.SetFrameIndex` | src/FrameViewer/FrameViewer.jsx:6 | a new `currentFrameIndex` changes nothing else |
| `FrameViewer.Viewer.SyncFromCache` | src/FrameViewer/FrameViewer.jsx:17-21 | the local boxes become the cache entry for the frame, or `[]` if absent |
| `FrameViewer.Viewer.HandleMouseDown` | src/FrameViewer/FrameViewer.jsx:49-60 | sets drawing and the surface-local start point; end point, boxes and frame unchanged |
| `FrameViewer.Viewer.HandleMouseMove` | src/FrameViewer/FrameViewer.jsx:62-76 | changes nothing unless drawing; while drawing sets only the end point to the surface-local position |
| `FrameViewer.Viewer.HandleMouseUp` | src/FrameViewer/FrameViewer.jsx:78-103 | while drawing: clears drawing, appends exactly the normalised box, and writes the new sequence to the frame's cache entry; keeps local boxes in sync with the cache; otherwise commits nothing |
| `FrameViewer.Viewer.HandleMouseOut` | src/FrameViewer/FrameViewer.jsx:105-111 | only clears drawing; nothing is committed |
| `FrameViewer.ClickWithoutMove` | src/FrameViewer/FrameViewer.jsx:49-103 | on a fresh viewer, press and release at (100,100) commit (0,0,100,100), built from the initial end point |
| `FrameViewer.ClickAfterDrag` | src/FrameViewer/FrameViewer.jsx:49-103 | a click after a drag commits a box built from the previous drag's end point |
| `FrameViewer.LeaveMidDrag` | src/FrameViewer/FrameViewer.jsx:62-111 | leaving mid-drag commits nothing and a later release is ignored |
| `BoundingBoxCanvas.CommittedItemsAt` | src/FrameViewer/BoundingBoxCanvas.jsx:28-30 | the committed part of the draw list has one unfilled entry per box, box i at position i labelled "Box i+1" |
| `BoundingBoxCanvas.DrawListShape` | src/FrameViewer/BoundingBoxCanvas.jsx:27-41 | the draw list has the committed boxes in order, then exactly when drawing one filled preview of the normalised drag labelled "Box n+1"; when not drawing nothing is filled |
| `BoundingBoxCanvas.LabelInjective` | src/FrameViewer/BoundingBoxCanvas.jsx:62 | different draw indices give different labels |
| `BoundingBoxCanvas.DrawListTextAt` | src/FrameViewer/BoundingBoxCanvas.jsx:28-41 | every draw-list entry is labelled from its own position |
| `BoundingBoxCanvas.DrawListLabelsDistinct` | src/FrameViewer/BoundingBoxCanvas.jsx:28-41 | no two entries of a draw list share a label |
| `BoundingBoxCanvas.ReleaseLabelOneHigher` | src/FrameViewer/BoundingBoxCanvas.jsx:128-137 | the immediate draw on release labels the new box "Box n+2" while the redraw labels it "Box n+1" |
| `BoundingBoxCanvas.Canvas.constructor` | src/FrameViewer/BoundingBoxCanvas.jsx:7-10 | not drawing, both points at (0,0), no local boxes |
| `BoundingBoxCanvas.Canvas.SyncFromCache` | src/FrameViewer/BoundingBoxCanvas.jsx:14-18 | the local boxes become the cache entry for the frame, or `[]` if absent |
| `BoundingBoxCanvas.Canvas.Redraw` | src/FrameViewer/BoundingBoxCanvas.jsx:20-42 | the redraw loop draws exactly the draw list of the current state |
| `BoundingBoxCanvas.Canvas.HandleMouseDown` | src/FrameViewer/BoundingBoxCanvas.jsx:74-86 | sets drawing and the surface-local start point only |
| `BoundingBoxCanvas.Canvas.HandleMouseMove` | src/FrameViewer/BoundingBoxCanvas.jsx:88-105 | ignored unless drawing; while drawing sets only the end point |
| `BoundingBoxCanvas.Canvas.HandleMouseUp` | src/FrameViewer/BoundingBoxCanvas.jsx:107-139 | while drawing: appends the normalised box, writes it to the cache entry, and draws that box alone with draw index `updatedBoxes.length`; otherwise commits and draws nothing |
| `BoundingBoxCanvas.Canvas.HandleMouseOut` | src/FrameViewer/BoundingBoxCanvas.jsx:141-147 | clears drawing without committing |
| `BoundingBoxCanvas.DragOnCanvas` | src/FrameViewer/BoundingBoxCanvas.jsx:20-139 | over a frame with two boxes, a drag shows a filled "Box 3", the release draws "Box 4", and the next redraw shows it as an unfilled "Box 3" |
| `VideoLabelingTool.NextFrame` | src/VideoLabelingTool/VideoLabelingTool.jsx:25-27 | before the last frame it advances by one; at or past the last frame it gives the last frame, a fixed point |
| `VideoLabelingTool.PreviousFrame` | src/VideoLabelingTool/VideoLabelingTool.jsx:29-31 | above 0 it steps back by one; at 0 (or below) it gives 0, a fixed point |
| `VideoLabelingTool.DisabledIffNoMove` | src/VideoLabelingTool/VideoLabelingTool.jsx:48-49 | within the range, Previous is disabled iff the index is 0 iff pressing it would not move; likewise Next at frame_count-1 |
| `VideoLabelingTool.NextPreviousInverse` | src/VideoLabelingTool/VideoLabelingTool.jsx:25-31 | away from the ends, Next and Previous undo each other |
| `VideoLabelingTool.NextWithoutFrames` | src/VideoLabelingTool/VideoLabelingTool.jsx:25-49 | with frame_count 0, Next is enabled at frame 0 and gives -1 |
| `VideoLabelingTool.NavigateStaysInRange` | src/VideoLabelingTool/VideoLabelingTool.jsx:14-31 | with at least one frame, any sequence of Next/Previous from an index in range (such as the initial 0) stays in [0, frame_count-1] |
| `VideoLabelingTool.SpliceOne` | src/VideoLabelingTool/VideoLabelingTool.jsx:33-37 | for an index in range, the element is removed, earlier ones stay and later ones shift down by one; past the end nothing changes |
| `VideoLabelingTool.SpliceOneRemovesOne` | src/VideoLabelingTool/VideoLabelingTool.jsx:36 | the deletion takes exactly one copy of the deleted box out of the multiset of boxes |
| `VideoLabelingTool.SpliceOnePastEndIdempotent` | src/VideoLabelingTool/VideoLabelingTool.jsx:36 | deleting past the end, once or twice, leaves the boxes unchanged |
| `VideoLabelingTool.LabelingTool.constructor` | src/VideoLabelingTool/VideoLabelingTool.jsx:14-16 | index 0, no local boxes; in range when there is at least one frame |
| `VideoLabelingTool.LabelingTool.SyncFromCache` | src/VideoLabelingTool/VideoLabelingTool.jsx:19-23 | the local boxes become the cache entry for the current frame, or `[]` if absent |
| `VideoLabelingTool.LabelingTool.ButtonsDisabled` | src/VideoLabelingTool/VideoLabelingTool.jsx:48-49 | Previous is disabled iff the index is 0; Next iff it is frame_count-1 |
| `VideoLabelingTool.LabelingTool.HandleNextFrame` | src/VideoLabelingTool/VideoLabelingTool.jsx:25-27 | the index becomes `NextFrame` of the old one and stays in range |
| `VideoLabelingTool.LabelingTool.HandlePreviousFrame` | src/VideoLabelingTool/VideoLabelingTool.jsx:29-31 | the index becomes `PreviousFrame` of the old one and stays in range |
| `VideoLabelingTool.LabelingTool.HandleDeleteBox` | src/VideoLabelingTool/VideoLabelingTool.jsx:33-40 | local boxes become the splice of the old ones; only the current frame's cache entry is rewritten; local boxes stay in sync with the cache |
| `VideoLabelingTool.DeleteMiddleBox` | src/VideoLabelingTool/VideoLabelingTool.jsx:33-40 | deleting box 1 of three on frame 2 leaves the other two in order, and frame 5 is untouched |

## Left out

- Network I/O is not modelled. This covers fetching the video metadata
  (`src/utils/useFetchAPI.js`) and fetching frame images by their padded
  name (`src/FrameViewer/FrameViewer.jsx:23-47`). It also covers the
  loaded-frame URL cache and its stale-response race. The metadata is
  taken as loaded: only `frame_count` is a constructor parameter.
- `src/FrameViewer/FrameViewerCanvas.jsx` is not part of this model. It
  fetches images and is commented out of the page.
- Canvas 2D calls are left out: clearing, stroke and fill styles, fonts,
  text measurement and the label background. Only the abstract draw list
  is modelled.
- JSX and CSS layout are left out. This includes the viewer's own overlay
  divs. Its preview div uses the raw difference of the end and start
  points, so it is not normalised.
- `localStorage`, `JSON.stringify` and `JSON.parse` are library calls.
  Storage holds cache values, not text. A malformed stored text makes
  `JSON.parse` throw, which the source does not catch, so that case is not
  modelled. JavaScript turns the numeric frame index into a string key;
  with integer keys that change makes no difference.
- BoundingBoxesContext.Hydrated: decides on whether the item is present
  rather than on whether its text is non-empty. The two agree for any
  value the save effect can have written.
- React scheduling is left out. Each handler and each effect is one
  explicit, atomic step. When an effect runs, and how state updates are
  batched, are not modelled. `Mount` fixes one effect order for a session
  start.
- The components are modelled one by one over a shared `Provider`. The
  page passing its index to the viewer appears only as
  `Viewer.SetFrameIndex`.
- VideoLabelingTool.LabelingTool.HandleDeleteBox: splices a fresh copy,
  which is modelled as a sequence value. Nothing else can see the copy,
  so no aliasing is lost.
- VideoLabelingTool.SpliceOne: takes a non-negative index only. The index
  always comes from the list's position (`src/BoundingBoxList/BoundingBoxList.jsx:13`),
  so `splice`'s counting from the end is never used.
- `src/BoundingBoxList/BoundingBoxList.jsx` is presentation only and uses
  `Math.round`. `src/App.jsx` is a wrapper. Neither is modelled.
- Coordinates are integers, not floating-point numbers.
- JsText.Decimal: models `String(n)` for integers only. The exponent form
  JavaScript uses from 1e21 up is not modelled.
- `preventDefault` and `stopPropagation` on pointer events are left out.

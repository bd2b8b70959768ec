# BoundingBox: drag and resize state machine

A model of the `BoundingBox` component of drag-resize: a rectangular region of
interest (ROI) drawn over a container, which the mouse can drag by its body or
resize by eight edge and corner handles. What is modelled is the component's
state record and its six pointer handlers, each as a pure function from the
state before an event to the state after it:

- `geometry.dfy` (`Geometry`): points, rectangles, and the
  `Math.min(Math.max(v, lo), hi)` clamp.
- `handles.dfy` (`Handles`): the eight handle tokens `tl t tr l r bl b br`,
  the state's `direction` (a token or `'none'`), and the letter tests
  `direction.includes('t' | 'l' | 'r' | 'b')`.
- `bounding_box.dfy` (`BoundingBox`): the state, `initializeRoi`, and the
  drag and resize start/move/stop handlers. Measurements the component takes
  from the DOM are parameters: the container rectangle (`restrictSize`), the
  box rectangle (`boxSize`) and the pointer position of the event. A stop
  handler returns the rectangle it passes to its callback, or `None` when it
  calls nothing.
- `events.dfy` (`Events`): how events reach the handlers. A mouse move runs
  the drag handler and then the resize handler; a mouse up runs both stop
  handlers. `Run` applies a sequence of events. Lemmas over runs show that
  each stop callback fires at most once per session, that a box that is not
  movable never changes, that `direction` is set exactly while a resize is
  active, that a drag with no resize active keeps the size, and that a
  resize from `r`, `b` or `br` with no drag active keeps the origin.
- `scenarios.dfy` (`Scenarios`): concrete gestures with their results.

Behaviour reproduced from the code as written, although a reader might
expect otherwise:

- Clamp order. When the box is larger than the container, the upper bound
  wins and the box origin becomes the negative `container.width - roi.width`,
  not 0. The same order holds for resized spans: when the room past the
  origin is smaller than the minimum size, the span is that room.
- The `l` branch subtracts the snapshot's `y` (the pointer's vertical start)
  from the pointer's `x`. `Scenarios.LeftHandleMeasuresFromStartY` shows a
  move that has not displaced the pointer still changing the width.
  `BoundingBox.ResizeInPlaceKeepsSize` shows that the other handles keep the
  size in that case.
- Resize upper bounds use the origin from before the move. So a `t` or `l`
  move can leave the box past the far wall (`Scenarios.TopHandleOverrunsBottomWall`).
  An `r` or `b` move cannot: it keeps the origin, so the far edge stays
  inside on the axis it resizes (`BoundingBox.ResizeFarEdgeInside`). A drag
  keeps the box inside on every axis where the box fits
  (`BoundingBox.DragMoveContainment`).
- A span that the handle does not touch is reset to the snapshot's size.
- `isDragging` and `isResizing` are independent. No handler checks the
  other flag, so a resize started during a drag leaves both set
  (`Scenarios.DragAndResizeBothActive`). Only the handle's
  `stopPropagation` keeps the two gestures apart in practice, and it is
  modelled by a handle mouse down being a single `DownOnHandle` event.

## Model

| member | source | states |
|---|---|---|
| Geometry.ClampedBounds | bounding-box.tsx:229-230 | a value clamped with the upper bound applied last never exceeds the upper bound, and lies within the interval whenever it is non-empty |
| Geometry.Clamp | bounding-box.tsx:229-230 | an in-range value is returned unchanged; a value outside a non-empty interval becomes exactly the bound it crosses; on an empty interval the result is the upper bound; so the result never exceeds the upper bound |
| Handles.ParseHandle | bounding-box.tsx:117 | a string reads back as a handle exactly when it is that handle's token; any other string is rejected |
| Handles.ParseHandleToken | bounding-box.tsx:117 | each handle's token reads back as that same handle |
| Handles.EdgesEnumerateHandles | bounding-box.tsx:117 | the rendered handle list has eight entries, contains every handle, and has no repeats |
| Handles.HandleLetters | bounding-box.tsx:294-317 | `t` is in exactly tl/t/tr, `l` exactly in tl/l/bl, `r` exactly in tr/r/br and `b` exactly in bl/b/br; `'none'` contains none of the four letters |
| Handles.AxesAreExclusive | bounding-box.tsx:294-322 | no token has both `t` and `b`, or both `l` and `r`; a direction has some letter exactly when it is a handle |
| BoundingBox.InitializeRoi | bounding-box.tsx:210-216 | the ROI becomes the prop's rectangle and nothing else changes |
| BoundingBox.DragStart | bounding-box.tsx:257-276 | sets the dragging flag; box origin plus offset equals the pointer; the snapshot origin becomes the box origin and keeps its size; ROI, resize flag and direction are untouched |
| BoundingBox.DragMove | bounding-box.tsx:219-240 | a no-op unless movable and dragging; otherwise only the ROI origin changes; on each axis the origin follows the pointer between the walls, stops at the wall it would cross, and takes the negative `extent - span` when the box does not fit |
| BoundingBox.DragMoveContainment | bounding-box.tsx:229-230 | on an axis where the box fits, the dragged box lies inside the container; where it does not fit, the origin is the negative `extent - span` |
| BoundingBox.GrabAndMove | bounding-box.tsx:219-276 | after a mouse down on a box whose measured origin is the container origin plus the ROI origin, moving the mouse by (dx, dy) moves the ROI by (dx, dy) while it stays between the walls, keeping its size |
| BoundingBox.DragStop | bounding-box.tsx:242-255 | outside a drag, nothing changes and no callback fires; during a drag, it clears the dragging flag, keeps the ROI and reports that ROI; nothing else changes |
| BoundingBox.DragStopOnce | bounding-box.tsx:242-255 | a second drag stop reports nothing and changes nothing |
| BoundingBox.ResizeStart | bounding-box.tsx:352-367 | sets the resize flag and the handle's direction; the snapshot holds the box size with the pointer start as its x/y; ROI, drag flag and offset are untouched |
| BoundingBox.ResizeMove | bounding-box.tsx:279-334 | a no-op unless movable and resizing; otherwise only the ROI changes; the origin moves only for `t`/`l` and follows the pointer clipped at 0; an untouched span is the snapshot's; a touched span follows the pointer while between the minimum and the pre-move room (the `l` edge measured from the snapshot's y), stops exactly at the minimum or the room it would cross, and is the room when the room is below the minimum |
| BoundingBox.ResizedWidth | bounding-box.tsx:302-315 | with `r`, the width follows `snapshot.width + (x - snapshot.x)` clamped to the minimum and the room; with `l`, it follows `snapshot.width - (x - snapshot.y)` likewise; with neither, it is the snapshot's width |
| BoundingBox.ResizedHeight | bounding-box.tsx:294-321 | with `b`, the height follows `snapshot.height + (y - snapshot.y)` clamped to the minimum and the room; with `t`, it follows `snapshot.height - (y - snapshot.y)` likewise; with neither, it is the snapshot's height |
| BoundingBox.ResizeFarEdgeInside | bounding-box.tsx:310-321 | after a move on an `r` handle the right edge is inside the container, and after a move on a `b` handle the bottom edge is inside |
| BoundingBox.ResizeMoveBounds | bounding-box.tsx:289-321 | for `l`/`r` the width is at most `container.width - roi.x` (pre-move) and at least the minimum width when that fits; otherwise the width is the snapshot's; likewise the height for `t`/`b` |
| BoundingBox.ResizeMoveAnchoring | bounding-box.tsx:291-308 | `r`, `b` and `br` keep x and y; `tl` puts both x and y under the pointer, never below 0 |
| BoundingBox.ResizeInPlaceKeepsSize | bounding-box.tsx:289-321 | right after a resize starts on a handle without `l`, a move that leaves the pointer in place reproduces the box size when that size is within bounds |
| BoundingBox.ResizeStop | bounding-box.tsx:336-350 | outside a resize, nothing changes and no callback fires; during a resize, it clears the flag, resets the direction to `'none'` and reports the ROI; ROI, drag flag, offset and snapshot are kept |
| BoundingBox.ResizeStopOnce | bounding-box.tsx:336-350 | a second resize stop reports nothing and changes nothing |
| Events.MouseMove | bounding-box.tsx:168-174 | runs the drag handler and then the resize handler; when the box is not movable nothing changes, whatever gestures are active; without a resize it is exactly the drag move, and without a drag it is exactly the resize move; when both are active and the box is movable, an origin the handle does not move is the dragged origin, a `t`/`l` origin follows the pointer clipped at 0, and each span is the resized span bounded by the room past the dragged origin, or the snapshot's span when the handle does not touch it; only the ROI changes |
| Events.MouseUp | bounding-box.tsx:168-174 | both gestures end; the ROI, offset and snapshot are kept; the direction becomes `'none'` if a resize was active and is otherwise kept; the drag-stop callback fires first if a drag was active, then the resize-stop callback if a resize was active, each carrying the ROI |
| Events.MouseUpTwice | bounding-box.tsx:242-255 | a second mouse up changes nothing and fires no callback |
| Events.DragStopsBoundedBySessions | bounding-box.tsx:242-276 | over any run, the number of drag-stop callbacks, plus one for a drag still open at the end, is at most the number of box mouse downs plus one for a drag open at the start |
| Events.ResizeStopsBoundedBySessions | bounding-box.tsx:336-367 | the same bound for resize-stop callbacks and handle mouse downs |
| Events.FrozenWhenNotMovable | bounding-box.tsx:219-334 | when the box is not movable, no sequence of events changes the ROI |
| Events.Step | bounding-box.tsx:366-390 | a mouse down on a handle sets the resize flag and that handle's direction, and leaves the drag flag and offset untouched, since the handle stops the event before it reaches the body; a mouse down on the body starts a drag and leaves the resize flag and direction untouched; only a mouse up fires callbacks, at most two, and it ends both gestures |
| Events.Run | bounding-box.tsx:168-174 | a run fires at most two callbacks per mouse up and none for any other event; a run without events changes nothing |
| Events.InitialDirectionMatchesResize | bounding-box.tsx:119-141 | the initial state has direction `'none'` and no resize |
| Events.DirectionInvariant | bounding-box.tsx:336-367 | every run from a state whose direction is a handle exactly while resizing ends in such a state |
| Events.DragSessionKeepsSize | bounding-box.tsx:229-238 | during a drag with no resize active, any sequence of moves keeps the drag active, no resize active, and the box size unchanged |
| Events.AnchoredResizeSession | bounding-box.tsx:289-322 | during a resize from `r`, `b` or `br` with no drag active, any sequence of moves keeps the origin and the direction |
| Scenarios.DragPastTopLeft | bounding-box.tsx:229-230 | a 50x50 box at (50,50) in a 200x200 container, grabbed at (75,75) and dragged to (10,10), lands at (0,0) |
| Scenarios.DragPastBottomRight | bounding-box.tsx:229-230 | the same box dragged to (500,500) lands at (150,150) |
| Scenarios.DragThenRelease | bounding-box.tsx:242-255 | dragging and then releasing twice fires `onDragStop` once, with the moved box |
| Scenarios.DragWiderThanContainer | bounding-box.tsx:229 | a 50-wide box in a 40-wide container is placed at x = -10 |
| Scenarios.ResizeRightHitsMinimum | bounding-box.tsx:310-315 | shrinking from `r` below a minimum width of 20 yields width 20 exactly |
| Scenarios.LeftHandleMeasuresFromStartY | bounding-box.tsx:302-308 | an `l` move that leaves the pointer where it went down still changes the width, from 50 to 15 |
| Scenarios.TopHandleOverrunsBottomWall | bounding-box.tsx:294-299 | a `t` move under a minimum height leaves the box reaching past the bottom wall |
| Scenarios.DragAndResizeBothActive | bounding-box.tsx:352-366 | a resize started during a drag leaves both flags set |

## Left out

- Styling: `boxBackground`, `boxBorder`, `BoxWrapper` and the cursor, margin and transform tables of `Edge` (bounding-box.tsx:5-115). They only produce CSS.
- React lifecycle and `render`. Registering and removing the document listeners (bounding-box.tsx:165-182) is modelled only as the order in which a move or an up reaches the handlers. Teardown is not modelled.
- The `restrictSize` and `boxSize` getters (bounding-box.tsx:184-206) call `getBoundingClientRect`. Their results are parameters of each event.
- `setState` batching. Each handler is one atomic step, and the second handler of a move or an up sees the first one's result.
- JavaScript number semantics: coordinates are exact `real` numbers, not IEEE-754 doubles, so rounding is not modelled; exact equalities such as `BoundingBox.GrabAndMove` rely on that. `NaN` and `|| 0` on falsy values are not modelled either: an absent minimum is 0, and a present one is used as given.
- The button value `currentTarget.value` read by `handleResizeStart` is modelled by a `Handle`, since only the eight handle buttons carry that listener. `Handles.ParseHandle` shows that the eight tokens are distinct and read back as their handles; no event goes through it.
- The `offsetX`/`offsetY` fields of the initial state, which no handler reads or writes.
- Whether `onDragStop`/`onResizeStop` props are supplied. An emitted rectangle is the call that happens when the prop is present.
- `preventDefault` on move events, which has no effect on the state.
- Props are fixed during a `Run`.

/** The `BoundingBox` component's state and its drag and resize handlers, each
    a pure step from the state before the event to the state after it.
    The container's client rectangle (`restrictSize`), the box's measured
    rectangle (`boxSize`) and the pointer position of the mouse event are
    passed in; a stop handler also returns the rectangle it hands to its
    callback, or `None` when it calls nothing. */
module BoundingBox {
  import opened Geometry
  import opened Handles

  /** The `minRoi` prop; an absent dimension counts as 0 */
  datatype MinRoi = MinRoi(width: Option<real>, height: Option<real>)

  function MinWidth(m: MinRoi): real { m.width.GetOr(0.0) }
  function MinHeight(m: MinRoi): real { m.height.GetOr(0.0) }

  /** The component state. `offset` is the pointer's offset from the box
      origin during a drag. `originalRoi` is the resize snapshot: box width
      and height, with the pointer's absolute start in `x` and `y`. */
  datatype State = State(
    direction: Direction,
    isDragging: bool,
    isResizing: bool,
    offset: Point,
    originalRoi: Rect,
    roi: Rect)

  /** The state a component starts from, before `InitializeRoi` */
  const InitialState: State :=
    State(NoDirection, false, false, Point(0.0, 0.0),
          Rect(0.0, 0.0, 0.0, 0.0), Rect(0.0, 0.0, 10.0, 10.0))

  /** Seeds the region of interest from the `roi` prop */
  function InitializeRoi(s: State, roi: Rect): (r: State)
    ensures r.roi == roi
    ensures r.(roi := s.roi) == s
  {
    s.(roi := roi)
  }

  /** A mouse down on the box body: remembers where in the box it was
      grabbed and records the box origin in the snapshot. */
  function DragStart(s: State, box: Rect, pointer: Point): (r: State)
    ensures r.isDragging
    ensures box.x + r.offset.x == pointer.x && box.y + r.offset.y == pointer.y
    ensures r.originalRoi.x == box.x && r.originalRoi.y == box.y
    ensures r.originalRoi.width == s.originalRoi.width
    ensures r.originalRoi.height == s.originalRoi.height
    ensures r.roi == s.roi && r.isResizing == s.isResizing && r.direction == s.direction
  {
    s.(isDragging := true,
       offset := Point(pointer.x - box.x, pointer.y - box.y),
       originalRoi := s.originalRoi.(x := box.x, y := box.y))
  }

  /** A mouse move seen by the drag listener. Outside a drag, or when the box
      is not movable, nothing changes; otherwise only the box origin moves,
      clamped axis by axis into the container. */
  function DragMove(s: State, isMovable: bool, container: Rect, pointer: Point): (r: State)
    ensures !isMovable || !s.isDragging ==> r == s
    ensures r.(roi := s.roi) == s
    ensures r.roi.width == s.roi.width && r.roi.height == s.roi.height
    ensures isMovable && s.isDragging ==>
      Clamped(r.roi.x, pointer.x - container.x - s.offset.x, 0.0, container.width - s.roi.width)
    ensures isMovable && s.isDragging ==>
      Clamped(r.roi.y, pointer.y - container.y - s.offset.y, 0.0, container.height - s.roi.height)
  {
    if !isMovable || !s.isDragging then s
    else
      var x := Clamp(pointer.x - container.x - s.offset.x, 0.0, container.width - s.roi.width);
      var y := Clamp(pointer.y - container.y - s.offset.y, 0.0, container.height - s.roi.height);
      s.(roi := s.roi.(x := x, y := y))
  }

  /** A drag move keeps the box inside the container on every axis it fits
      in, and pushes it past the origin on an axis it does not fit in. */
  lemma DragMoveContainment(s: State, isMovable: bool, container: Rect, pointer: Point)
    requires isMovable && s.isDragging
    ensures var r := DragMove(s, isMovable, container, pointer);
      && (s.roi.width <= container.width ==>
            0.0 <= r.roi.x && r.roi.x + r.roi.width <= container.width)
      && (container.width < s.roi.width ==>
            r.roi.x == container.width - s.roi.width < 0.0)
      && (s.roi.height <= container.height ==>
            0.0 <= r.roi.y && r.roi.y + r.roi.height <= container.height)
      && (container.height < s.roi.height ==>
            r.roi.y == container.height - s.roi.height < 0.0)
  {
  }

  /** Grabbing the box and moving the mouse by `(dx, dy)` moves the box by
      the same amount, as long as it stays between the walls; this holds
      when the measured box sits at the container origin plus the region's
      origin. */
  lemma GrabAndMove(s: State, container: Rect, pointer: Point, dx: real, dy: real)
    requires 0.0 <= s.roi.x + dx <= container.width - s.roi.width
    requires 0.0 <= s.roi.y + dy <= container.height - s.roi.height
    ensures var box := Rect(container.x + s.roi.x, container.y + s.roi.y, s.roi.width, s.roi.height);
      var r := DragMove(DragStart(s, box, pointer), true, container,
                        Point(pointer.x + dx, pointer.y + dy));
      r.roi == Rect(s.roi.x + dx, s.roi.y + dy, s.roi.width, s.roi.height)
  {
  }

  /** A mouse up seen by the drag listener: ends a drag and reports the
      region to `onDragStop`; outside a drag it does nothing. */
  function DragStop(s: State): (r: (State, Option<Rect>))
    ensures !s.isDragging ==> r == (s, None)
    ensures s.isDragging ==> !r.0.isDragging && r.1 == Some(s.roi)
    ensures r.0.roi == s.roi
    ensures r.0.(isDragging := s.isDragging) == s
  {
    if !s.isDragging then (s, None)
    else (s.(isDragging := false), Some(s.roi))
  }

  /** A second drag stop right after a first one reports nothing */
  lemma DragStopOnce(s: State)
    ensures DragStop(DragStop(s).0).1 == None
    ensures DragStop(DragStop(s).0).0 == DragStop(s).0
  {
  }

  /** A mouse down on a handle: remembers the handle, the box size and the
      pointer's absolute start position. */
  function ResizeStart(s: State, box: Rect, pointer: Point, h: Handle): (r: State)
    ensures r.isResizing && r.direction == Toward(h)
    ensures r.originalRoi.width == box.width && r.originalRoi.height == box.height
    ensures r.originalRoi.x == pointer.x && r.originalRoi.y == pointer.y
    ensures r.roi == s.roi && r.isDragging == s.isDragging && r.offset == s.offset
  {
    s.(direction := Toward(h),
       isResizing := true,
       originalRoi := Rect(pointer.x, pointer.y, box.width, box.height))
  }

  /** Reference behaviour of the origin on an axis whose leading edge is being
      dragged: it follows the pointer but never goes below 0. */
  ghost predicate EdgeFollows(pos: real, wanted: real) {
    && 0.0 <= pos
    && (0.0 <= wanted ==> pos == wanted)
    && (wanted < 0.0 ==> pos == 0.0)
  }

  /** The width after a resize move, from the handle's horizontal letter:
      `l` and `r` clamp their pointer-driven width between the minimum and
      the room `hi`; with neither letter the snapshot's width is kept. */
  function ResizedWidth(d: Direction, o: Rect, lo: real, hi: real, pointerX: real): (w: real)
    ensures HasR(d) ==> Clamped(w, o.width + (pointerX - o.x), lo, hi)
    ensures HasL(d) && !HasR(d) ==> Clamped(w, o.width - (pointerX - o.y), lo, hi)
    ensures !HasL(d) && !HasR(d) ==> w == o.width
  {
    var widthL := if HasL(d) then Clamp(o.width - (pointerX - o.y), lo, hi) else o.width;
    if HasR(d) then
      Clamp(o.width + (pointerX - o.x), lo, hi)
    else
      widthL
  }

  /** The height after a resize move, from the handle's vertical letter,
      like `ResizedWidth` with `t` and `b`. */
  function ResizedHeight(d: Direction, o: Rect, lo: real, hi: real, pointerY: real): (h: real)
    ensures HasB(d) ==> Clamped(h, o.height + (pointerY - o.y), lo, hi)
    ensures HasT(d) && !HasB(d) ==> Clamped(h, o.height - (pointerY - o.y), lo, hi)
    ensures !HasT(d) && !HasB(d) ==> h == o.height
  {
    var heightT := if HasT(d) then Clamp(o.height - (pointerY - o.y), lo, hi) else o.height;
    if HasB(d) then
      Clamp(o.height + (pointerY - o.y), lo, hi)
    else
      heightT
  }

  /** A mouse move seen by the resize listener. Outside a resize, or when the
      box is not movable, nothing changes. Otherwise the region is rebuilt
      from the snapshot size and the current origin, then each letter of the
      handle adjusts its edge. Three details of the component's handler are kept:
      the `l` edge measures the pointer's horizontal travel from the
      snapshot's `y`; the upper bounds use the origin from before the move;
      and a span the handle does not touch is reset to the snapshot's. */
  function ResizeMove(s: State, isMovable: bool, minRoi: MinRoi, container: Rect,
                      pointer: Point): (r: State)
    ensures !isMovable || !s.isResizing ==> r == s
    ensures r.(roi := s.roi) == s
    ensures isMovable && s.isResizing ==>
      && (!HasT(s.direction) ==> r.roi.y == s.roi.y)
      && (!HasL(s.direction) ==> r.roi.x == s.roi.x)
      && (HasT(s.direction) ==> EdgeFollows(r.roi.y, pointer.y - container.y))
      && (HasL(s.direction) ==> EdgeFollows(r.roi.x, pointer.x - container.x))
    ensures isMovable && s.isResizing ==>
      && (!HasL(s.direction) && !HasR(s.direction) ==> r.roi.width == s.originalRoi.width)
      && (!HasT(s.direction) && !HasB(s.direction) ==> r.roi.height == s.originalRoi.height)
    ensures isMovable && s.isResizing && HasR(s.direction) ==>
      Clamped(r.roi.width, s.originalRoi.width + (pointer.x - s.originalRoi.x),
                  MinWidth(minRoi), container.width - s.roi.x)
    ensures isMovable && s.isResizing && HasL(s.direction) && !HasR(s.direction) ==>
      Clamped(r.roi.width, s.originalRoi.width - (pointer.x - s.originalRoi.y),
                  MinWidth(minRoi), container.width - s.roi.x)
    ensures isMovable && s.isResizing && HasB(s.direction) ==>
      Clamped(r.roi.height, s.originalRoi.height + (pointer.y - s.originalRoi.y),
                  MinHeight(minRoi), container.height - s.roi.y)
    ensures isMovable && s.isResizing && HasT(s.direction) && !HasB(s.direction) ==>
      Clamped(r.roi.height, s.originalRoi.height - (pointer.y - s.originalRoi.y),
                  MinHeight(minRoi), container.height - s.roi.y)
  {
    if !isMovable || !s.isResizing then s
    else
      var d := s.direction;
      var y := if HasT(d) then Max(pointer.y - container.y, 0.0) else s.roi.y;
      var x := if HasL(d) then Max(pointer.x - container.x, 0.0) else s.roi.x;
      var width := ResizedWidth(d, s.originalRoi, MinWidth(minRoi),
                                container.width - s.roi.x, pointer.x);
      var height := ResizedHeight(d, s.originalRoi, MinHeight(minRoi),
                                  container.height - s.roi.y, pointer.y);
      s.(roi := Rect(x, y, width, height))
  }

  /** A mouse up seen by the resize listener: ends a resize, clears the
      direction and reports the region to `onResizeStop`; outside a resize it
      does nothing. */
  function ResizeStop(s: State): (r: (State, Option<Rect>))
    ensures !s.isResizing ==> r == (s, None)
    ensures s.isResizing ==>
      !r.0.isResizing && r.0.direction == NoDirection && r.1 == Some(s.roi)
    ensures r.0.roi == s.roi && r.0.isDragging == s.isDragging
    ensures r.0.offset == s.offset && r.0.originalRoi == s.originalRoi
  {
    if !s.isResizing then (s, None)
    else (s.(direction := NoDirection, isResizing := false), Some(s.roi))
  }

  /** A second resize stop right after a first one reports nothing */
  lemma ResizeStopOnce(s: State)
    ensures ResizeStop(ResizeStop(s).0).1 == None
    ensures ResizeStop(ResizeStop(s).0).0 == ResizeStop(s).0
  {
  }

  /** The resize bounds, per axis: a span the handle touches stays within the
      room left right of (below) the origin held before the move, and reaches
      the minimum whenever that room allows; a span it does not touch is the
      snapshot's. */
  lemma ResizeMoveBounds(s: State, isMovable: bool, minRoi: MinRoi, container: Rect,
                         pointer: Point)
    requires isMovable && s.isResizing
    ensures var r := ResizeMove(s, isMovable, minRoi, container, pointer);
      && (HasL(s.direction) || HasR(s.direction) ==>
            && r.roi.width <= container.width - s.roi.x
            && (MinWidth(minRoi) <= container.width - s.roi.x ==> MinWidth(minRoi) <= r.roi.width))
      && (!HasL(s.direction) && !HasR(s.direction) ==> r.roi.width == s.originalRoi.width)
      && (HasT(s.direction) || HasB(s.direction) ==>
            && r.roi.height <= container.height - s.roi.y
            && (MinHeight(minRoi) <= container.height - s.roi.y ==> MinHeight(minRoi) <= r.roi.height))
      && (!HasT(s.direction) && !HasB(s.direction) ==> r.roi.height == s.originalRoi.height)
  {
    AxesAreExclusive(s.direction);
  }

  /** The far edges stay inside the container on the axes an `r` or `b`
      handle resizes, since those handles keep the origin and bound the span
      by the room past it. */
  lemma ResizeFarEdgeInside(s: State, isMovable: bool, minRoi: MinRoi, container: Rect,
                            pointer: Point)
    requires isMovable && s.isResizing
    ensures var r := ResizeMove(s, isMovable, minRoi, container, pointer);
      && (HasR(s.direction) ==> r.roi.x + r.roi.width <= container.width)
      && (HasB(s.direction) ==> r.roi.y + r.roi.height <= container.height)
  {
    AxesAreExclusive(s.direction);
    var r := ResizeMove(s, isMovable, minRoi, container, pointer);
    if HasR(s.direction) {
      ClampedBounds(r.roi.width, s.originalRoi.width + (pointer.x - s.originalRoi.x),
                        MinWidth(minRoi), container.width - s.roi.x);
    }
    if HasB(s.direction) {
      ClampedBounds(r.roi.height, s.originalRoi.height + (pointer.y - s.originalRoi.y),
                        MinHeight(minRoi), container.height - s.roi.y);
    }
  }

  /** Anchoring: handles without `t` or `l` (`r`, `b`, `br`) never move the
      origin; the `tl` handle puts both coordinates under the pointer,
      clipped at 0. */
  lemma ResizeMoveAnchoring(s: State, isMovable: bool, minRoi: MinRoi, container: Rect,
                            pointer: Point)
    requires isMovable && s.isResizing
    ensures var r := ResizeMove(s, isMovable, minRoi, container, pointer);
      && (s.direction in {Toward(R), Toward(B), Toward(BR)} ==>
            r.roi.x == s.roi.x && r.roi.y == s.roi.y)
      && (s.direction == Toward(TL) ==>
            && r.roi.x == Max(pointer.x - container.x, 0.0) && 0.0 <= r.roi.x
            && r.roi.y == Max(pointer.y - container.y, 0.0) && 0.0 <= r.roi.y)
  {
    HandleLetters(s.direction);
  }

  /** Right after a resize starts on a handle without `l`, a move that leaves
      the pointer where it went down reproduces the box's size, provided that
      size already respects the minimum and the room to the far walls. */
  lemma ResizeInPlaceKeepsSize(s: State, box: Rect, pointer: Point, h: Handle, minRoi: MinRoi,
                               container: Rect)
    requires h != L && h != TL && h != BL
    requires MinWidth(minRoi) <= box.width <= container.width - s.roi.x
    requires MinHeight(minRoi) <= box.height <= container.height - s.roi.y
    ensures var r := ResizeMove(ResizeStart(s, box, pointer, h), true, minRoi, container, pointer);
      r.roi.width == box.width && r.roi.height == box.height
  {
    HandleLetters(Toward(h));
  }
}

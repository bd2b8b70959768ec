/** Concrete gestures: drags into each pair of walls, a resize stopped by a
    minimum width, a drag followed by two releases, and inputs
    that show the behaviours of the component's handlers that a reader might
    not expect (each one reproduced in the model on purpose). */
module Scenarios {
  import opened Geometry
  import opened Handles
  import opened BoundingBox
  import opened Events

  const Container: Rect := Rect(0.0, 0.0, 200.0, 200.0)
  const Box: Rect := Rect(50.0, 50.0, 50.0, 50.0)
  const Movable: Props := Props(true, MinRoi(None, None))

  /** A 50x50 box at (50, 50), grabbed at its centre (75, 75) */
  function Grabbed(): (s: State)
    ensures s.isDragging && !s.isResizing && s.roi == Box
    ensures s.offset == Point(25.0, 25.0)
  {
    DragStart(InitializeRoi(InitialState, Box), Box, Point(75.0, 75.0))
  }

  /** Dragging towards (10, 10) stops the box at the top-left walls */
  lemma DragPastTopLeft()
    ensures MouseMove(Movable, Grabbed(), Container, Point(10.0, 10.0)).roi
            == Rect(0.0, 0.0, 50.0, 50.0)
  {
  }

  /** Dragging towards (500, 500) stops the box at the bottom-right walls */
  lemma DragPastBottomRight()
    ensures MouseMove(Movable, Grabbed(), Container, Point(500.0, 500.0)).roi
            == Rect(150.0, 150.0, 50.0, 50.0)
  {
  }

  /** Releasing after the drag reports the moved box once; releasing again
      reports nothing. */
  lemma DragThenRelease()
    ensures Run(Movable, Grabbed(), [Move(Container, Point(10.0, 10.0)), Up, Up]).1
            == [DragStopped(Rect(0.0, 0.0, 50.0, 50.0))]
  {
    var es := [Move(Container, Point(10.0, 10.0)), Up, Up];
    var s1 := MouseMove(Movable, Grabbed(), Container, Point(10.0, 10.0));
    var s2 := MouseUp(s1);
    assert s2.1 == [DragStopped(Rect(0.0, 0.0, 50.0, 50.0))];
    MouseUpTwice(s1);
    assert es[1..][1..][1..] == [];
    assert Run(Movable, s2.0, es[1..][1..]) == (s2.0, []);
    assert Run(Movable, s1, es[1..]) == (s2.0, s2.1);
  }

  /** A box wider than its container is pushed to the negative
      `container.width - roi.width`: the upper bound is applied last. */
  lemma DragWiderThanContainer()
    ensures var narrow := Rect(0.0, 0.0, 40.0, 200.0);
      MouseMove(Movable, Grabbed(), narrow, Point(75.0, 75.0)).roi.x == -10.0
  {
  }

  /** Shrinking from the `r` handle below a 20-pixel minimum width stops at
      exactly 20. */
  lemma ResizeRightHitsMinimum()
    ensures var p := Props(true, MinRoi(Some(20.0), None));
      var s := ResizeStart(InitializeRoi(InitialState, Box), Box, Point(100.0, 75.0), R);
      MouseMove(p, s, Container, Point(60.0, 75.0)).roi == Rect(50.0, 50.0, 20.0, 50.0)
  {
  }

  /** The `l` edge measures the pointer's travel from the snapshot's `y`:
      a move that leaves the pointer where it went down, on the left edge of
      a box at (100, 40), shrinks the width from 50 to 15. */
  lemma LeftHandleMeasuresFromStartY()
    ensures var box := Rect(100.0, 40.0, 50.0, 50.0);
      var s := ResizeStart(InitializeRoi(InitialState, box), box, Point(100.0, 65.0), L);
      MouseMove(Movable, s, Container, Point(100.0, 65.0)).roi.width == 15.0
  {
  }

  /** The bound on a resized span uses the origin from before the move, so
      the `t` handle pulled down under a 40-pixel minimum height leaves the
      box reaching past the container's bottom wall (190 + 40 > 200). */
  lemma TopHandleOverrunsBottomWall()
    ensures var p := Props(true, MinRoi(None, Some(40.0)));
      var box := Rect(0.0, 100.0, 50.0, 50.0);
      var s := ResizeStart(InitializeRoi(InitialState, box), box, Point(25.0, 100.0), T);
      var r := MouseMove(p, s, Container, Point(25.0, 190.0)).roi;
      r.y == 190.0 && r.height == 40.0 && r.y + r.height > Container.height
  {
  }

  /** The handlers do not check one another's flag: a resize started during
      a drag leaves both active, and the next move runs both. */
  lemma DragAndResizeBothActive()
    ensures var s := ResizeStart(Grabbed(), Box, Point(100.0, 100.0), BR);
      s.isDragging && s.isResizing
  {
  }
}

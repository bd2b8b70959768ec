/** How pointer events reach the handlers. A mouse down lands either on the
    box body (drag start) or on one handle (resize start; the handle stops
    the event before it reaches the body). The component listens on the
    whole document, so every mouse move runs the drag handler and then the
    resize handler, and every mouse up runs the drag stop and then the
    resize stop, whatever gesture is active. */
module Events {
  import opened Geometry
  import opened Handles
  import opened BoundingBox

  /** The props the handlers read: `isMovable` and `minRoi` */
  datatype Props = Props(isMovable: bool, minRoi: MinRoi)

  /** One pointer event with the measurements taken while handling it */
  datatype Event =
    | DownOnBox(box: Rect, pointer: Point)
    | DownOnHandle(handle: Handle, box: Rect, pointer: Point)
    | Move(container: Rect, pointer: Point)
    | Up

  /** A callback invocation */
  datatype Emission = DragStopped(roi: Rect) | ResizeStopped(roi: Rect)

  function Emitted(o: Option<Rect>, tag: Rect -> Emission): (e: seq<Emission>)
    ensures |e| <= 1
  {
    if o.Some? then [tag(o.value)] else []
  }

  /** The document's `mousemove` listeners, drag first. When both gestures
      are active the resize handler sees the origin the drag handler just
      set: an origin it does not move is the dragged one, and the room that
      bounds a resized span is measured from the dragged origin. */
  function MouseMove(p: Props, s: State, container: Rect, pointer: Point): (r: State)
    ensures !s.isResizing ==> r == DragMove(s, p.isMovable, container, pointer)
    ensures !s.isDragging ==> r == ResizeMove(s, p.isMovable, p.minRoi, container, pointer)
    ensures r.(roi := s.roi) == s
    ensures !p.isMovable ==> r == s
    ensures p.isMovable && s.isDragging && s.isResizing ==>
      var d := DragMove(s, p.isMovable, container, pointer);
      && (!HasL(s.direction) ==> r.roi.x == d.roi.x)
      && (!HasT(s.direction) ==> r.roi.y == d.roi.y)
      && (HasL(s.direction) ==> EdgeFollows(r.roi.x, pointer.x - container.x))
      && (HasT(s.direction) ==> EdgeFollows(r.roi.y, pointer.y - container.y))
    ensures p.isMovable && s.isDragging && s.isResizing ==>
      var d := DragMove(s, p.isMovable, container, pointer);
      && (HasR(s.direction) ==>
            Clamped(r.roi.width, s.originalRoi.width + (pointer.x - s.originalRoi.x),
                        MinWidth(p.minRoi), container.width - d.roi.x))
      && (HasL(s.direction) && !HasR(s.direction) ==>
            Clamped(r.roi.width, s.originalRoi.width - (pointer.x - s.originalRoi.y),
                        MinWidth(p.minRoi), container.width - d.roi.x))
      && (!HasL(s.direction) && !HasR(s.direction) ==> r.roi.width == s.originalRoi.width)
    ensures p.isMovable && s.isDragging && s.isResizing ==>
      var d := DragMove(s, p.isMovable, container, pointer);
      && (HasB(s.direction) ==>
            Clamped(r.roi.height, s.originalRoi.height + (pointer.y - s.originalRoi.y),
                        MinHeight(p.minRoi), container.height - d.roi.y))
      && (HasT(s.direction) && !HasB(s.direction) ==>
            Clamped(r.roi.height, s.originalRoi.height - (pointer.y - s.originalRoi.y),
                        MinHeight(p.minRoi), container.height - d.roi.y))
      && (!HasT(s.direction) && !HasB(s.direction) ==> r.roi.height == s.originalRoi.height)
  {
    ResizeMove(DragMove(s, p.isMovable, container, pointer), p.isMovable, p.minRoi,
               container, pointer)
  }

  /** The document's `mouseup` listeners, drag stop first */
  function MouseUp(s: State): (r: (State, seq<Emission>))
    ensures !r.0.isDragging && !r.0.isResizing
    ensures r.0.roi == s.roi
    ensures |r.1| == (if s.isDragging then 1 else 0) + (if s.isResizing then 1 else 0)
    ensures s.isDragging && !s.isResizing ==> r.1 == [DragStopped(s.roi)]
    ensures s.isResizing && !s.isDragging ==> r.1 == [ResizeStopped(s.roi)]
    ensures s.isDragging && s.isResizing ==> r.1 == [DragStopped(s.roi), ResizeStopped(s.roi)]
    ensures r.0.direction == (if s.isResizing then NoDirection else s.direction)
    ensures r.0.offset == s.offset && r.0.originalRoi == s.originalRoi
  {
    var d := DragStop(s);
    var z := ResizeStop(d.0);
    (z.0, Emitted(d.1, rect => DragStopped(rect)) + Emitted(z.1, rect => ResizeStopped(rect)))
  }

  /** A second mouse up right after a first one changes nothing and calls no
      callback. */
  lemma MouseUpTwice(s: State)
    ensures MouseUp(MouseUp(s).0) == (MouseUp(s).0, [])
  {
  }

  /** One event applied to the state, with the callbacks it fires. A mouse
      down on a handle stops there, so it never starts a drag; a mouse down
      on the body never starts a resize; only a mouse up fires callbacks. */
  function Step(p: Props, s: State, e: Event): (r: (State, seq<Emission>))
    ensures e.DownOnHandle? ==> r.0.isDragging == s.isDragging && r.0.offset == s.offset
    ensures e.DownOnHandle? ==> r.0.isResizing && r.0.direction == Toward(e.handle)
    ensures e.DownOnBox? ==> r.0.isResizing == s.isResizing && r.0.direction == s.direction
    ensures e.DownOnBox? ==> r.0.isDragging
    ensures !e.Up? ==> r.1 == []
    ensures e.Up? ==> |r.1| <= 2 && !r.0.isDragging && !r.0.isResizing
  {
    match e
    case DownOnBox(box, pointer) => (DragStart(s, box, pointer), [])
    case DownOnHandle(h, box, pointer) => (ResizeStart(s, box, pointer, h), [])
    case Move(container, pointer) => (MouseMove(p, s, container, pointer), [])
    case Up => MouseUp(s)
  }

  function CountUps(es: seq<Event>): nat {
    if es == [] then 0
    else (if es[0].Up? then 1 else 0) + CountUps(es[1..])
  }

  /** A sequence of events applied in delivery order. Callbacks fire only on
      mouse ups, at most two per mouse up, and a run without events changes
      nothing. */
  function Run(p: Props, s: State, es: seq<Event>): (r: (State, seq<Emission>))
    ensures |r.1| <= 2 * CountUps(es)
    ensures es == [] ==> r == (s, [])
    decreases |es|
  {
    if es == [] then (s, [])
    else
      var a := Step(p, s, es[0]);
      var b := Run(p, a.0, es[1..]);
      (b.0, a.1 + b.1)
  }

  function CountDragStops(ms: seq<Emission>): nat {
    if ms == [] then 0
    else (if ms[0].DragStopped? then 1 else 0) + CountDragStops(ms[1..])
  }

  function CountResizeStops(ms: seq<Emission>): nat {
    if ms == [] then 0
    else (if ms[0].ResizeStopped? then 1 else 0) + CountResizeStops(ms[1..])
  }

  function CountBoxDowns(es: seq<Event>): nat {
    if es == [] then 0
    else (if es[0].DownOnBox? then 1 else 0) + CountBoxDowns(es[1..])
  }

  function CountHandleDowns(es: seq<Event>): nat {
    if es == [] then 0
    else (if es[0].DownOnHandle? then 1 else 0) + CountHandleDowns(es[1..])
  }

  function Flag(b: bool): nat { if b then 1 else 0 }

  lemma {:induction false} CountStopsAppend(a: seq<Emission>, b: seq<Emission>)
    ensures CountDragStops(a + b) == CountDragStops(a) + CountDragStops(b)
    ensures CountResizeStops(a + b) == CountResizeStops(a) + CountResizeStops(b)
  {
    if a == [] {
      assert a + b == b;
    } else {
      assert (a + b)[0] == a[0];
      assert (a + b)[1..] == a[1..] + b;
      CountStopsAppend(a[1..], b);
    }
  }

  /** `onDragStop` fires at most once per drag session: over any run, the
      drag-stop callbacks plus a session still open at the end never exceed
      the session open at the start plus the mouse downs on the box. */
  lemma {:induction false} DragStopsBoundedBySessions(p: Props, s: State, es: seq<Event>)
    ensures var r := Run(p, s, es);
      CountDragStops(r.1) + Flag(r.0.isDragging) <= Flag(s.isDragging) + CountBoxDowns(es)
    decreases |es|
  {
    if es != [] {
      var a := Step(p, s, es[0]);
      DragStopsBoundedBySessions(p, a.0, es[1..]);
      CountStopsAppend(a.1, Run(p, a.0, es[1..]).1);
      if es[0].Up? {
        assert CountDragStops(a.1) == Flag(s.isDragging) by {
          assert a.1 == Emitted(DragStop(s).1, rect => DragStopped(rect))
                        + Emitted(ResizeStop(DragStop(s).0).1, rect => ResizeStopped(rect));
          CountStopsAppend(Emitted(DragStop(s).1, rect => DragStopped(rect)),
                           Emitted(ResizeStop(DragStop(s).0).1, rect => ResizeStopped(rect)));
        }
      }
    }
  }

  /** `onResizeStop` fires at most once per resize session, counted like
      the drag sessions with mouse downs on a handle. */
  lemma {:induction false} ResizeStopsBoundedBySessions(p: Props, s: State, es: seq<Event>)
    ensures var r := Run(p, s, es);
      CountResizeStops(r.1) + Flag(r.0.isResizing) <= Flag(s.isResizing) + CountHandleDowns(es)
    decreases |es|
  {
    if es != [] {
      var a := Step(p, s, es[0]);
      ResizeStopsBoundedBySessions(p, a.0, es[1..]);
      CountStopsAppend(a.1, Run(p, a.0, es[1..]).1);
      if es[0].Up? {
        assert CountResizeStops(a.1) == Flag(s.isResizing) by {
          assert a.1 == Emitted(DragStop(s).1, rect => DragStopped(rect))
                        + Emitted(ResizeStop(DragStop(s).0).1, rect => ResizeStopped(rect));
          CountStopsAppend(Emitted(DragStop(s).1, rect => DragStopped(rect)),
                           Emitted(ResizeStop(DragStop(s).0).1, rect => ResizeStopped(rect)));
        }
      }
    }
  }

  /** When the box is not movable, no sequence of events changes the region */
  lemma {:induction false} FrozenWhenNotMovable(p: Props, s: State, es: seq<Event>)
    requires !p.isMovable
    ensures Run(p, s, es).0.roi == s.roi
    decreases |es|
  {
    if es != [] {
      FrozenWhenNotMovable(p, Step(p, s, es[0]).0, es[1..]);
    }
  }

  /** The state keeps a direction exactly while a resize is active */
  ghost predicate DirectionMatchesResize(s: State) {
    s.isResizing <==> s.direction.Toward?
  }

  /** The initial state has no direction and no resize */
  lemma InitialDirectionMatchesResize()
    ensures DirectionMatchesResize(InitialState)
  {
  }

  /** Every run from a state where the direction matches the resize flag
      ends in one where it still does. */
  lemma {:induction false} DirectionInvariant(p: Props, s: State, es: seq<Event>)
    requires DirectionMatchesResize(s)
    ensures DirectionMatchesResize(Run(p, s, es).0)
    decreases |es|
  {
    if es != [] {
      DirectionInvariant(p, Step(p, s, es[0]).0, es[1..]);
    }
  }

  predicate AllMoves(es: seq<Event>) {
    forall i :: 0 <= i < |es| ==> es[i].Move?
  }

  /** During a drag with no resize active, any number of moves keeps the
      drag going, keeps the resize inactive and never changes the box size. */
  lemma {:induction false} DragSessionKeepsSize(p: Props, s: State, es: seq<Event>)
    requires s.isDragging && !s.isResizing && AllMoves(es)
    ensures var r := Run(p, s, es).0;
      && r.isDragging && !r.isResizing
      && r.roi.width == s.roi.width && r.roi.height == s.roi.height
    decreases |es|
  {
    if es != [] {
      DragSessionKeepsSize(p, Step(p, s, es[0]).0, es[1..]);
    }
  }

  /** During a resize from `r`, `b` or `br` with no drag active, any number
      of moves keeps the origin where it was. */
  lemma {:induction false} AnchoredResizeSession(p: Props, s: State, es: seq<Event>)
    requires s.isResizing && !s.isDragging && AllMoves(es)
    requires s.direction in {Toward(R), Toward(B), Toward(BR)}
    ensures var r := Run(p, s, es).0;
      r.roi.x == s.roi.x && r.roi.y == s.roi.y && r.direction == s.direction
    decreases |es|
  {
    if es != [] {
      var e := es[0];
      if p.isMovable {
        ResizeMoveAnchoring(s, p.isMovable, p.minRoi, e.container, e.pointer);
      }
      AnchoredResizeSession(p, Step(p, s, e).0, es[1..]);
    }
  }
}

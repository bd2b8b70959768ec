/** Plain geometry shared by the bounding box handlers: points, rectangles and
    the `Math.min(Math.max(v, lo), hi)` clamp the handlers are built from.
    Coordinates are `real`: the handlers only add, subtract and compare. */
module Geometry {

  /** An optional value; used for the optional minimum size and for the
      rectangle a stop handler hands to its callback. */
  datatype Option<+T> = None | Some(value: T) {

    /** The carried value, or `default` when there is none */
    function GetOr(default: T): T {
      match this
      case Some(v) => v
      case None => default
    }
  }

  /** A pointer position, or the pointer's offset from the box origin */
  datatype Point = Point(x: real, y: real)

  /** A rectangle: the region of interest, the container, the measured box,
      or a gesture's snapshot. */
  datatype Rect = Rect(x: real, y: real, width: real, height: real)

  /** `Math.min` on two numbers */
  function Min(a: real, b: real): (r: real)
    ensures r <= a && r <= b
    ensures r == a || r == b
  {
    if a <= b then a else b
  }

  /** `Math.max` on two numbers */
  function Max(a: real, b: real): (r: real)
    ensures a <= r && b <= r
    ensures r == a || r == b
  {
    if a <= b then b else a
  }

  /** What it means for `r` to be `v` clamped into `[lo, hi]` with the upper
      bound applied last: `v` itself when in range, exactly the bound it
      would cross otherwise, and `hi` when the interval is empty. */
  ghost predicate Clamped(r: real, v: real, lo: real, hi: real) {
    if lo <= hi then
      && (lo <= v <= hi ==> r == v)
      && (v < lo ==> r == lo)
      && (hi < v ==> r == hi)
    else
      r == hi
  }

  /** A clamped value never exceeds the upper bound, and lies within
      `[lo, hi]` whenever that interval is non-empty. */
  lemma ClampedBounds(r: real, v: real, lo: real, hi: real)
    requires Clamped(r, v, lo, hi)
    ensures r <= hi
    ensures lo <= hi ==> lo <= r
  {
  }

  /** `Math.min(Math.max(v, lo), hi)`: the lower bound is applied first and
      the upper bound last, so when the interval is empty (`hi < lo`) the
      upper bound wins. */
  function Clamp(v: real, lo: real, hi: real): (r: real)
    ensures Clamped(r, v, lo, hi)
    ensures r <= hi
    ensures lo <= hi ==> lo <= r
  {
    Min(Max(v, lo), hi)
  }
}

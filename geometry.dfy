/**
 * The arithmetic of `BoundingBoxSelector.end_selection` (lama.py): a drag between two
 * display-space points becomes an image-space box by dividing by the display scale,
 * ordering the corners, truncating with `int()`, clamping into the image and, finally,
 * the "both sides larger than 10 pixels" size filter.
 */
module Geometry {

  /** A bounding box `(x1, y1, x2, y2)` in original-image pixel coordinates. */
  datatype Box = Box(x1: int, y1: int, x2: int, y2: int)

  /** The minimum side length a committed box must exceed. */
  const MinSide: int := 10

  function Min(a: int, b: int): int { if a <= b then a else b }
  function Max(a: int, b: int): int { if a <= b then b else a }

  /** Python's `int(x)` on a float: rounds toward zero. */
  function Trunc(x: real): (r: int)
    ensures 0.0 <= x ==> r as real <= x < r as real + 1.0
    ensures x < 0.0 ==> r as real - 1.0 < x <= r as real
    ensures 0 <= r <==> -1.0 < x
  {
    if 0.0 <= x then x.Floor else -((-x).Floor)
  }

  /** `max(0, min(v, hi))`: the value forced into `[0, hi]`. */
  function Clamp(v: int, hi: int): (r: int)
    ensures 0 <= r
    ensures 0 <= hi ==> r <= hi
    ensures 0 <= v <= hi ==> r == v
    ensures v < 0 ==> r == 0
    ensures 0 <= hi < v ==> r == hi
  {
    Max(0, Min(v, hi))
  }

  /** A display coordinate converted to image space, `int(v / scale_factor)`. */
  function ToImage(v: int, scale: real): (r: int)
    requires 0.0 < scale
    ensures 0 <= v ==> 0 <= r && r as real <= v as real / scale < r as real + 1.0
    ensures v < 0 ==> r <= 0 && r as real - 1.0 < v as real / scale <= r as real
  {
    Trunc(v as real / scale)
  }

  /**
   * The box that a drag from display point (sx, sy) to (ex, ey) maps to in an image of
   * `width` by `height` pixels displayed at `scale`, before the size filter. However far
   * outside the canvas the drag endpoints were, the box lies in the image with its corners ordered.
   */
  function SelectionBox(sx: int, sy: int, ex: int, ey: int, scale: real, width: int, height: int): (r: Box)
    requires 0.0 < scale
    ensures 0 <= r.x1 <= r.x2 && 0 <= r.y1 <= r.y2
    ensures 0 <= width ==> r.x2 <= width
    ensures 0 <= height ==> r.y2 <= height
    ensures 0 <= width && 0 <= height ==> InImage(r, width, height)
  {
    ToImageMonotone(Min(sx, ex), Max(sx, ex), scale);
    ToImageMonotone(Min(sy, ey), Max(sy, ey), scale);
    Box(Clamp(ToImage(Min(sx, ex), scale), width),
        Clamp(ToImage(Min(sy, ey), scale), height),
        Clamp(ToImage(Max(sx, ex), scale), width),
        Clamp(ToImage(Max(sy, ey), scale), height))
  }

  /** The size filter `x2 - x1 > 10 and y2 - y1 > 10`. */
  predicate LargeEnough(b: Box)
    ensures LargeEnough(b) ==> b.x1 < b.x2 && b.y1 < b.y2
  {
    b.x2 - b.x1 > MinSide && b.y2 - b.y1 > MinSide
  }

  /** The box lies in `[0, width] x [0, height]` with its corners ordered. */
  predicate InImage(b: Box, width: int, height: int) {
    0 <= b.x1 <= b.x2 <= width && 0 <= b.y1 <= b.y2 <= height
  }

  /** What a box committed by the selector satisfies: in the image and past the size filter. */
  predicate Committable(b: Box, width: int, height: int) {
    InImage(b, width, height) && LargeEnough(b)
  }

  lemma TruncMonotone(a: real, b: real)
    requires a <= b
    ensures Trunc(a) <= Trunc(b)
  {
    if 0.0 <= a {
      assert a.Floor as real <= a <= b < b.Floor as real + 1.0;
    } else if 0.0 <= b {
      assert Trunc(a) <= 0 <= Trunc(b);
    } else {
      assert (-b).Floor as real <= -b <= -a < (-a).Floor as real + 1.0;
    }
  }

  lemma ToImageMonotone(v: int, w: int, scale: real)
    requires 0.0 < scale && v <= w
    ensures ToImage(v, scale) <= ToImage(w, scale)
  {
    TruncMonotone(v as real / scale, w as real / scale);
  }

  /** Dragging from A to B maps to the same box as dragging from B to A. */
  lemma SelectionBoxSymmetric(sx: int, sy: int, ex: int, ey: int, scale: real, width: int, height: int)
    requires 0.0 < scale
    ensures SelectionBox(sx, sy, ex, ey, scale, width, height) == SelectionBox(ex, ey, sx, sy, scale, width, height)
  {
  }

  /** A drag from (20, 20) to (60, 60) at scale 0.5 over a 200x150 image maps to (40, 40, 120, 120). */
  lemma SelectionBoxExample()
    ensures SelectionBox(20, 20, 60, 60, 0.5, 200, 150) == Box(40, 40, 120, 120)
    ensures LargeEnough(Box(40, 40, 120, 120))
  {
    assert 20 as real / 0.5 == 40.0;
    assert 60 as real / 0.5 == 120.0;
  }
}

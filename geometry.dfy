/** Screen points, pygame rectangles and the clamps the sprites use. */
module Geometry {
  /** A pixel position on the screen; x grows to the right, y grows downwards. */
  datatype Point = Point(x: int, y: int)

  /** An axis-aligned integer rectangle, as pygame's Rect. */
  datatype Rect = Rect(x: int, y: int, width: int, height: int) {
    /** pygame's collidepoint: the left and top edges belong to the rectangle, the right and bottom ones do not. */
    predicate CollidePoint(p: Point) {
      x <= p.x < x + width && y <= p.y < y + height
    }
  }

  function Min(a: int, b: int): int { if a <= b then a else b }
  function Max(a: int, b: int): int { if a >= b then a else b }

  /** The distance between two numbers on the real line. */
  function Gap(u: real, v: real): real { if u >= v then u - v else v - u }

  /** `max(lo, min(hi, v))`: for lo <= hi, the point of [lo, hi] nearest to v. */
  function Clamp(lo: real, hi: real, v: real): (r: real)
    requires lo <= hi
    ensures lo <= r <= hi
    ensures lo <= v <= hi ==> r == v
    ensures forall w :: lo <= w <= hi ==> Gap(r, v) <= Gap(w, v)
  {
    var m := if hi <= v then hi else v;
    if lo >= m then lo else m
  }
}

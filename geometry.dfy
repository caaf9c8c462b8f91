/** Integer rectangles as the game uses them (a pygame `Rect`), with the two
    collision tests and the edge setters the simulation relies on. */
module Geometry {

  /** A screen-space vector: a scroll delta, a velocity or a point. */
  datatype Vec = Vec(x: int, y: int)

  /** An axis-aligned rectangle: top-left corner and a non-negative size. */
  datatype Rect = Rect(x: int, y: int, w: nat, h: nat) {
    function Left(): int { x }
    function Right(): int { x + w }
    function Top(): int { y }
    function Bottom(): int { y + h }
    function CenterX(): int { x + w / 2 }
    function CenterY(): int { y + h / 2 }
    function Center(): Vec { Vec(CenterX(), CenterY()) }

    /** `rect.x += dx; rect.y += dy` */
    function Shift(dx: int, dy: int): (r: Rect)
      ensures r.x == x + dx && r.y == y + dy && r.w == w && r.h == h
    {
      Rect(x + dx, y + dy, w, h)
    }

    function ShiftBy(v: Vec): Rect { Shift(v.x, v.y) }

    /** `rect.left = v`: moves the rectangle, the size is kept. */
    function WithLeft(v: int): (r: Rect)
      ensures r.Left() == v && r.y == y && r.w == w && r.h == h
    {
      Rect(v, y, w, h)
    }

    /** `rect.right = v` */
    function WithRight(v: int): (r: Rect)
      ensures r.Right() == v && r.y == y && r.w == w && r.h == h
    {
      Rect(v - w, y, w, h)
    }

    /** `rect.top = v` */
    function WithTop(v: int): (r: Rect)
      ensures r.Top() == v && r.x == x && r.w == w && r.h == h
    {
      Rect(x, v, w, h)
    }

    /** `rect.bottom = v` */
    function WithBottom(v: int): (r: Rect)
      ensures r.Bottom() == v && r.x == x && r.w == w && r.h == h
    {
      Rect(x, v - h, w, h)
    }

    /** `rect.center = (cx, cy)` */
    function WithCenter(cx: int, cy: int): (r: Rect)
      ensures r.CenterX() == cx && r.CenterY() == cy && r.w == w && r.h == h
    {
      Rect(cx - w / 2, cy - h / 2, w, h)
    }
  }

  /** `a.colliderect(b)`: the interiors overlap; touching edges do not count. */
  predicate Overlaps(a: Rect, b: Rect)
  {
    a.Left() < b.Right() && b.Left() < a.Right() && a.Top() < b.Bottom() && b.Top() < a.Bottom()
  }

  /** `r.collidepoint(px, py)`: half-open on the right and bottom edges. */
  predicate ContainsPoint(r: Rect, px: int, py: int)
  {
    r.Left() <= px < r.Right() && r.Top() <= py < r.Bottom()
  }

  function Sign(v: int): (s: int)
    ensures s in {-1, 0, 1}
    ensures (s < 0 <==> v < 0) && (s > 0 <==> v > 0)
  {
    if v < 0 then -1 else if v > 0 then 1 else 0
  }

  function Abs(v: int): nat { if v < 0 then -v else v }

  function Max(a: int, b: int): int { if a >= b then a else b }

  function Min(a: int, b: int): int { if a <= b then a else b }
}

/**
 * Value model of the toolkit's integer geometry types used by the panel:
 * QPoint, QSize and QRect. A QRect is stored as its two inclusive corners
 * (x1, y1) and (x2, y2), so that right() = left() + width() - 1. The default
 * QRect is (0, 0, -1, -1): a null rectangle of width and height 0.
 */
module Rects {

  /** C++ integer division on int, which truncates toward zero (Dafny's `/` is Euclidean). */
  function TDiv(a: int, b: int): int
    requires b > 0
  {
    if a >= 0 then a / b else -((-a) / b)
  }

  /** For a non-negative dividend truncation and floor agree, and the quotient never exceeds the dividend's share. */
  lemma TDivNonNegative(a: int, b: int)
    requires a >= 0 && b > 0
    ensures TDiv(a, b) == a / b
    ensures 0 <= TDiv(a, b) * b <= a < (TDiv(a, b) + 1) * b
  {
  }

  /** qMax(a, b): b when a < b, otherwise a. */
  function QMax(a: int, b: int): (m: int)
    ensures m >= a && m >= b && (m == a || m == b)
  {
    if a < b then b else a
  }

  datatype Point = Point(x: int, y: int) {
    function Plus(p: Point): Point {
      Point(x + p.x, y + p.y)
    }
  }

  datatype Size = Size(width: int, height: int)

  datatype Rect = Rect(x1: int, y1: int, x2: int, y2: int) {
    function Left(): int { x1 }
    function Top(): int { y1 }
    function Right(): int { x2 }
    function Bottom(): int { y2 }
    function Width(): int { x2 - x1 + 1 }
    function Height(): int { y2 - y1 + 1 }
    function Dimensions(): Size { Size(Width(), Height()) }
    function TopLeft(): Point { Point(x1, y1) }

    /** QRect::center: the midpoint of the corners, each coordinate truncated toward zero. */
    function Center(): (c: Point)
      ensures x1 <= x2 ==> x1 <= c.x <= x2
      ensures y1 <= y2 ==> y1 <= c.y <= y2
    {
      Point(TDiv(x1 + x2, 2), TDiv(y1 + y2, 2))
    }

    /** QRect::setWidth keeps the top-left corner and moves the right edge. */
    function SetWidth(w: int): (r: Rect)
      ensures r.Width() == w
      ensures r.x1 == x1 && r.y1 == y1 && r.y2 == y2
    {
      Rect(x1, y1, x1 + w - 1, y2)
    }

    /** QRect::setHeight keeps the top-left corner and moves the bottom edge. */
    function SetHeight(h: int): (r: Rect)
      ensures r.Height() == h
      ensures r.x1 == x1 && r.y1 == y1 && r.x2 == x2
    {
      Rect(x1, y1, x2, y1 + h - 1)
    }

    /** QRect::moveLeft: the left edge goes to pos, the size is kept. */
    function MoveLeft(pos: int): (r: Rect)
      ensures r.Left() == pos && r.Dimensions() == Dimensions()
      ensures r.y1 == y1 && r.y2 == y2
    {
      Rect(pos, y1, x2 + (pos - x1), y2)
    }

    /** QRect::moveRight: the right edge goes to pos, the size is kept. */
    function MoveRight(pos: int): (r: Rect)
      ensures r.Right() == pos && r.Dimensions() == Dimensions()
      ensures r.y1 == y1 && r.y2 == y2
    {
      Rect(x1 + (pos - x2), y1, pos, y2)
    }

    /** QRect::moveTop: the top edge goes to pos, the size is kept. */
    function MoveTop(pos: int): (r: Rect)
      ensures r.Top() == pos && r.Dimensions() == Dimensions()
      ensures r.x1 == x1 && r.x2 == x2
    {
      Rect(x1, pos, x2, y2 + (pos - y1))
    }

    /** QRect::moveBottom: the bottom edge goes to pos, the size is kept. */
    function MoveBottom(pos: int): (r: Rect)
      ensures r.Bottom() == pos && r.Dimensions() == Dimensions()
      ensures r.x1 == x1 && r.x2 == x2
    {
      Rect(x1, y1 + (pos - y2), x2, pos)
    }

    /**
     * QRect::moveCenter: keeps the size and puts the left/top edge half the
     * corner distance (truncated) before the given point.
     */
    function MoveCenter(p: Point): (r: Rect)
      ensures r.Dimensions() == Dimensions()
      ensures r.x1 == p.x - TDiv(x2 - x1, 2) && r.y1 == p.y - TDiv(y2 - y1, 2)
    {
      var w := x2 - x1;
      var h := y2 - y1;
      var nx := p.x - TDiv(w, 2);
      var ny := p.y - TDiv(h, 2);
      Rect(nx, ny, nx + w, ny + h)
    }
  }

  /** QRect(): the null rectangle. */
  const NullRect := Rect(0, 0, -1, -1)

  /** QRect(QPoint topLeft, QSize size). */
  function RectAt(p: Point, s: Size): (r: Rect)
    ensures r.TopLeft() == p && r.Dimensions() == s
  {
    Rect(p.x, p.y, p.x + s.width - 1, p.y + s.height - 1)
  }

  /** True when inner lies within outer, edges included. */
  predicate Inside(inner: Rect, outer: Rect) {
    outer.x1 <= inner.x1 && inner.x2 <= outer.x2 && outer.y1 <= inner.y1 && inner.y2 <= outer.y2
  }

  /**
   * Moving a rectangle of positive width onto the centre of a target whose
   * corner sum is non-negative leaves margins on the two sides that differ by
   * at most one pixel (the same holds vertically).
   */
  lemma MoveCenterBalances(r: Rect, s: Rect)
    requires r.Width() >= 1 && r.Height() >= 1
    requires s.x1 + s.x2 >= 0 && s.y1 + s.y2 >= 0
    ensures var m := r.MoveCenter(s.Center());
      -1 <= (m.x1 - s.x1) - (s.x2 - m.x2) <= 1 && -1 <= (m.y1 - s.y1) - (s.y2 - m.y2) <= 1
  {
    var m := r.MoveCenter(s.Center());
    TDivNonNegative(s.x1 + s.x2, 2);
    TDivNonNegative(s.y1 + s.y2, 2);
    TDivNonNegative(r.x2 - r.x1, 2);
    TDivNonNegative(r.y2 - r.y1, 2);
  }
}

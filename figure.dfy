/**
 * The shared geometry of the game's figures (src/figure.ts): an axis-aligned
 * rectangle in normalised canvas coordinates, its strict intersection test,
 * and the base `Figure` object whose `Move` integrates its velocity.
 */
module Figures {

  /** A rectangle: top-left corner (x, y) and size, all in canvas units [0, 1]. */
  datatype Rect = Rect(x: real, y: real, width: real, height: real)
  {
    /** The point (px, py) lies strictly inside the rectangle. */
    predicate Contains(px: real, py: real) {
      x < px < x + width && y < py < y + height
    }
  }

  /** Position and velocity of a figure, as exchanged between peers. */
  datatype Position = Position(x: real, y: real, speedX: real, speedY: real)

  /**
   * `intersectsWith`: the two rectangles overlap. All four comparisons are
   * strict, so rectangles that only share an edge do not intersect.
   */
  predicate Overlaps(a: Rect, b: Rect) {
    && a.x < b.x + b.width
    && a.x + a.width > b.x
    && a.y < b.y + b.height
    && a.y + a.height > b.y
  }

  function Max(a: real, b: real): real { if a >= b then a else b }
  function Min(a: real, b: real): real { if a <= b then a else b }

  lemma OverlapsSymmetric(a: Rect, b: Rect)
    ensures Overlaps(a, b) == Overlaps(b, a)
  {
  }

  /** Rectangles that only touch along a vertical or horizontal edge do not intersect. */
  lemma TouchingDoNotOverlap(a: Rect, b: Rect)
    requires a.x + a.width == b.x || b.x + b.width == a.x || a.y + a.height == b.y || b.y + b.height == a.y
    ensures !Overlaps(a, b)
  {
  }

  lemma OverlapsItself(a: Rect)
    requires a.width > 0.0 && a.height > 0.0
    ensures Overlaps(a, a)
  {
  }

  /**
   * For rectangles of positive size, the strict test holds exactly when some
   * point lies inside both: the test is the intersection of the open interiors.
   */
  lemma OverlapsIffCommonInteriorPoint(a: Rect, b: Rect)
    requires a.width > 0.0 && a.height > 0.0 && b.width > 0.0 && b.height > 0.0
    ensures Overlaps(a, b) <==> exists px: real, py: real :: a.Contains(px, py) && b.Contains(px, py)
  {
    if Overlaps(a, b) {
      var px := (Max(a.x, b.x) + Min(a.x + a.width, b.x + b.width)) / 2.0;
      var py := (Max(a.y, b.y) + Min(a.y + a.height, b.y + b.height)) / 2.0;
      assert a.Contains(px, py) && b.Contains(px, py);
    }
  }

  /** The base figure: a rectangle with a velocity, updated in place. */
  class Figure {
    var x: real
    var y: real
    var width: real
    var height: real
    var speedX: real
    var speedY: real

    /** Stores every argument as given. */
    constructor (x: real, y: real, width: real, height: real, speedX: real, speedY: real)
      ensures this.x == x && this.y == y && this.width == width && this.height == height
      ensures this.speedX == speedX && this.speedY == speedY
    {
      this.x := x;
      this.y := y;
      this.width := width;
      this.height := height;
      this.speedX := speedX;
      this.speedY := speedY;
    }

    function Bounds(): Rect
      reads this
    {
      Rect(x, y, width, height)
    }

    /** Position and velocity, `extractPosition` of src/remoteGame.ts. */
    function Extract(): Position
      reads this
    {
      Position(x, y, speedX, speedY)
    }

    predicate IntersectsWith(other: Figure)
      reads this, other
    {
      Overlaps(Bounds(), other.Bounds())
    }

    /** One tick of motion: the position advances by the velocity, nothing else changes. */
    method Move()
      modifies this
      ensures x == old(x) + old(speedX) && y == old(y) + old(speedY)
      ensures width == old(width) && height == old(height)
      ensures speedX == old(speedX) && speedY == old(speedY)
    {
      x := x + speedX;
      y := y + speedY;
    }
  }
}

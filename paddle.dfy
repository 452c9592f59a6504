/**
 * The app's paddle (src/app/paddle.ts): a figure built from its vertical
 * centre whose move is clamped so that it never leaves the play field.
 */
module Paddles {
  import opened Figures

  /**
   * `Math.max(0, Math.min(1 - height, y))`: the vertical position clamped into
   * [0, 1 - height]. A value already in range is kept, so the clamp is
   * idempotent; for a figure taller than the field the lower bound wins.
   */
  function ClampY(v: real, height: real): (r: real)
    ensures 0.0 <= r
    ensures height <= 1.0 ==> r <= 1.0 - height
    ensures 0.0 <= v <= 1.0 - height ==> r == v
    ensures height <= 1.0 && v < 0.0 ==> r == 0.0
    ensures 0.0 <= 1.0 - height < v ==> r == 1.0 - height
  {
    Max(0.0, Min(1.0 - height, v))
  }

  lemma ClampYIdempotent(v: real, height: real)
    ensures ClampY(ClampY(v, height), height) == ClampY(v, height)
  {
  }

  class Paddle {
    var x: real
    var y: real
    var width: real
    var height: real
    var speedX: real
    var speedY: real

    /** The top-left corner lies half a height above `yCenter`; a paddle never moves sideways. */
    constructor (x: real, yCenter: real, width: real, height: real, speed: real)
      ensures this.x == x && y == yCenter - height / 2.0
      ensures this.width == width && this.height == height
      ensures speedX == 0.0 && speedY == speed
    {
      this.x := x;
      this.y := yCenter - height / 2.0;
      this.width := width;
      this.height := height;
      this.speedX := 0.0;
      this.speedY := speed;
    }

    function Bounds(): Rect
      reads this
    {
      Rect(x, y, width, height)
    }

    /** `extractPosition` of src/remoteGame.ts. */
    function Extract(): Position
      reads this
    {
      Position(x, y, speedX, speedY)
    }

    /** `applyPosition` of src/remoteGame.ts: position and velocity overwritten, size kept. */
    method Apply(p: Position)
      modifies this
      ensures Extract() == p
      ensures width == old(width) && height == old(height)
    {
      x := p.x;
      y := p.y;
      speedX := p.speedX;
      speedY := p.speedY;
    }

    /**
     * The inherited move followed by the clamp. With zero horizontal speed x
     * stays put; a resting paddle inside the field does not move at all.
     */
    method Move()
      modifies this
      ensures x == old(x) + old(speedX)
      ensures y == ClampY(old(y) + old(speedY), height)
      ensures width == old(width) && height == old(height)
      ensures speedX == old(speedX) && speedY == old(speedY)
      ensures old(speedX) == 0.0 ==> x == old(x)
      ensures old(speedY) == 0.0 && 0.0 <= old(y) <= 1.0 - height ==> y == old(y)
    {
      x := x + speedX;
      y := y + speedY;
      y := ClampY(y, height);
    }
  }
}

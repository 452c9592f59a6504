/**
 * The older figures (src/ball.ts, src/paddle.ts). They add no state to the
 * base figure, so each is a `Figure` built by its own constructor. Their
 * bounces only reverse one component of the velocity, and the old paddle
 * keeps the base move, which does not clamp.
 */
module LegacyFigures {
  import opened Figures

  /** The old ball: a square of side `size` centred on (xCenter, yCenter). */
  method NewBall(xCenter: real, yCenter: real, size: real, speedX: real, speedY: real) returns (b: Figure)
    ensures fresh(b)
    ensures b.x + size / 2.0 == xCenter && b.y + size / 2.0 == yCenter
    ensures b.width == size && b.height == size
    ensures b.speedX == speedX && b.speedY == speedY
  {
    b := new Figure(xCenter - size / 2.0, yCenter - size / 2.0, size, size, speedX, speedY);
  }

  /** The old paddle: the top-left corner half a height above `yCenter`, moving only vertically. */
  method NewPaddle(x: real, yCenter: real, width: real, height: real, speed: real) returns (p: Figure)
    ensures fresh(p)
    ensures p.x == x && p.y + height / 2.0 == yCenter
    ensures p.width == width && p.height == height
    ensures p.speedX == 0.0 && p.speedY == speed
  {
    p := new Figure(x, yCenter - height / 2.0, width, height, 0.0, speed);
  }

  /** The velocity after a floor or ceiling bounce: the vertical component reversed. */
  function VerticalBounce(p: Position): (r: Position)
    ensures r.speedY == -p.speedY
    ensures r.x == p.x && r.y == p.y && r.speedX == p.speedX
  {
    p.(speedY := -p.speedY)
  }

  /** The velocity after a paddle bounce: the horizontal component reversed. */
  function HorizontalBounce(p: Position): (r: Position)
    ensures r.speedX == -p.speedX
    ensures r.x == p.x && r.y == p.y && r.speedY == p.speedY
  {
    p.(speedX := -p.speedX)
  }

  /** Bouncing twice the same way restores the velocity; the two bounces commute and keep the speed. */
  lemma BouncesAreInvolutions(p: Position)
    ensures VerticalBounce(VerticalBounce(p)) == p
    ensures HorizontalBounce(HorizontalBounce(p)) == p
    ensures VerticalBounce(HorizontalBounce(p)) == HorizontalBounce(VerticalBounce(p))
    ensures var r := VerticalBounce(p); r.speedX * r.speedX + r.speedY * r.speedY == p.speedX * p.speedX + p.speedY * p.speedY
    ensures var r := HorizontalBounce(p); r.speedX * r.speedX + r.speedY * r.speedY == p.speedX * p.speedX + p.speedY * p.speedY
  {
  }

  /** `bounceOnFloorOrCeiling`: the vertical speed is reversed and nothing else changes. */
  method BounceOnFloorOrCeiling(b: Figure)
    modifies b
    ensures b.Extract() == VerticalBounce(old(b.Extract()))
    ensures b.width == old(b.width) && b.height == old(b.height)
  {
    b.speedY := -b.speedY;
  }

  /** `bounceOnPaddle`: the horizontal speed is reversed and nothing else changes. */
  method BounceOnPaddle(b: Figure)
    modifies b
    ensures b.Extract() == HorizontalBounce(old(b.Extract()))
    ensures b.width == old(b.width) && b.height == old(b.height)
  {
    b.speedX := -b.speedX;
  }

  /**
   * The old paddle's move is the base move: a paddle of the game's size
   * resting against the top edge and moving up ends above the field.
   */
  method PaddleLeavesField() returns (p: Figure)
    ensures p.y < 0.0 && p.height == 0.2
  {
    p := NewPaddle(0.0, 0.1, 0.02, 0.2, -0.025);
    assert 0.0 <= p.y <= 1.0 - p.height;
    p.Move();
  }
}

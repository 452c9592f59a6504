/**
 * The app's ball (src/app/ball.ts): a square figure that bounces off the
 * floor and ceiling and off paddles, speeding up on each paddle hit by a
 * compounding ratio capped at a maximum total increment.
 *
 * The ball's behaviour is specified by pure functions on a `BallState` value
 * (`WallBounce`, `Deflect`); the `Ball` class updates its fields in place and
 * its methods are proved to agree with those functions.
 */
module Balls {
  import opened Figures
  import opened Paddles

  /**
   * `Math.PI`, `Math.cos`, `Math.sin` and `Math.sqrt`, left uninterpreted:
   * every statement about them is a hypothesis of the lemma that needs it.
   */
  datatype Trig = Trig(pi: real, cos: real -> real, sin: real -> real, sqrt: real -> real)
  {
    function Sqrt(v: real): real { sqrt(v) }
    function Cos(a: real): real { cos(a) }
    function Sin(a: real): real { sin(a) }
  }

  /* The facts about the mathematical functions that the lemmas below rely on. */

  /** `Math.sqrt` gives the non-negative square root of a non-negative number. */
  ghost predicate SqrtLaw(m: Trig) {
    forall v: real :: v >= 0.0 ==> m.sqrt(v) >= 0.0 && m.sqrt(v) * m.sqrt(v) == v && (v > 0.0 ==> m.sqrt(v) > 0.0)
  }

  /** cos^2 + sin^2 = 1. */
  ghost predicate PythagoreanLaw(m: Trig) {
    forall a: real :: m.cos(a) * m.cos(a) + m.sin(a) * m.sin(a) == 1.0
  }

  /** pi is positive and the cosine is positive on (-pi/2, pi/2). */
  ghost predicate CosineLaw(m: Trig) {
    && m.pi > 0.0
    && (forall a: real :: -m.pi / 2.0 < a < m.pi / 2.0 ==> m.cos(a) > 0.0)
  }

  /** Every field of a ball. */
  datatype BallState = BallState(
    x: real, y: real, width: real, height: real, speedX: real, speedY: real,
    speedIncrementRatio: real, maxSpeedIncrement: real, totalSpeedIncrement: real)
  {
    function Bounds(): Rect { Rect(x, y, width, height) }
  }

  /** `Math.sign` on non-NaN numbers. */
  function Sign(v: real): (s: real)
    ensures s * v >= 0.0 && (v != 0.0 ==> s * s == 1.0) && (v == 0.0 ==> s == 0.0)
    ensures s * v == if v >= 0.0 then v else -v
  {
    if v > 0.0 then 1.0 else if v < 0.0 then -1.0 else 0.0
  }

  predicate TouchesWall(b: BallState) {
    b.y <= 0.0 || b.y + b.height >= 1.0
  }

  /**
   * `handleBounceOnFloorOrCeiling`: a ball touching the floor or the ceiling
   * has its vertical speed reversed and is put back against the wall it hit;
   * any other ball is left alone.
   */
  function WallBounce(b: BallState): (r: BallState)
    ensures TouchesWall(b) ==> r == b.(speedY := -b.speedY, y := r.y)
    ensures TouchesWall(b) ==> 0.0 <= r.y && (b.height <= 1.0 ==> r.y + r.height <= 1.0)
    ensures TouchesWall(b) && b.y <= 0.0 && b.height <= 1.0 ==> r.y == 0.0
    ensures TouchesWall(b) && b.y > 0.0 && b.height <= 1.0 ==> r.y == 1.0 - b.height
    ensures !TouchesWall(b) ==> r == b
  {
    if TouchesWall(b) then b.(speedY := -b.speedY, y := ClampY(b.y, b.height)) else b
  }

  /** Where the ball's centre meets the paddle, 0 at its top edge and 1 at its bottom edge. */
  function CollisionPoint(b: BallState, p: Rect): real
    requires p.height != 0.0
  {
    (b.y + b.height / 2.0 - p.y) / p.height
  }

  /** The outgoing angle: a centre hit is a straight shot, an edge hit a steep one. */
  function BounceAngle(collisionPoint: real, pi: real): real {
    (collisionPoint - 0.5) * pi / 2.0
  }

  /** The capped compounding speed ramp: `min(total * ratio, max)`. */
  function NextTotalIncrement(total: real, ratio: real, max: real): (r: real)
    ensures r <= max
    ensures r == max || r == total * ratio
    ensures r <= total * ratio
    ensures 0.0 <= total <= max && ratio >= 1.0 ==> total <= r
  {
    Min(total * ratio, max)
  }

  predicate CanDeflect(b: BallState, p: Rect) {
    p.height != 0.0 && b.totalSpeedIncrement != 0.0
  }

  /** The factor by which one paddle hit multiplies the ball's speed. */
  function SpeedIncrement(b: BallState): (k: real)
    requires b.totalSpeedIncrement != 0.0
    ensures k * b.totalSpeedIncrement
            == NextTotalIncrement(b.totalSpeedIncrement, b.speedIncrementRatio, b.maxSpeedIncrement)
  {
    NextTotalIncrement(b.totalSpeedIncrement, b.speedIncrementRatio, b.maxSpeedIncrement) / b.totalSpeedIncrement
  }

  /** The squared length of the velocity (sx, sy). */
  function SquaredNorm(sx: real, sy: real): real {
    sx * sx + sy * sy
  }

  /** The speed after a hit: the incoming speed times the one-hit increment. */
  function HitSpeed(b: BallState, m: Trig): real
    requires b.totalSpeedIncrement != 0.0
  {
    m.Sqrt(SquaredNorm(-b.speedX, b.speedY)) * SpeedIncrement(b)
  }

  /**
   * The ball after it hits paddle `p`: the position, size and ramp parameters
   * are kept, the total increment takes one capped step, and the velocity is
   * rebuilt from the scaled speed and the bounce angle, its horizontal
   * direction the reverse of the incoming one.
   */
  function Deflect(b: BallState, p: Rect, m: Trig): (r: BallState)
    requires CanDeflect(b, p)
    ensures r == b.(speedX := r.speedX, speedY := r.speedY, totalSpeedIncrement := r.totalSpeedIncrement)
    ensures r.totalSpeedIncrement == SpeedIncrement(b) * b.totalSpeedIncrement
    ensures r.totalSpeedIncrement <= b.maxSpeedIncrement
  {
    var angle := BounceAngle(CollisionPoint(b, p), m.pi);
    var speed := HitSpeed(b, m);
    b.(speedX := speed * m.Cos(angle) * Sign(-b.speedX),
       speedY := speed * m.Sin(angle),
       totalSpeedIncrement := NextTotalIncrement(b.totalSpeedIncrement, b.speedIncrementRatio, b.maxSpeedIncrement))
  }

  lemma MulStrictlyMonotone(a: real, b: real, k: real)
    requires a < b && k > 0.0
    ensures a * k < b * k
  {
    assert b * k - a * k == (b - a) * k;
  }

  lemma DivStrictlyMonotone(a: real, b: real, d: real)
    requires a < b && d > 0.0
    ensures a / d < b / d
  {
    MulStrictlyMonotone(a / d, b / d, d);
  }

  lemma SquarePositive(a: real)
    requires a != 0.0
    ensures a * a > 0.0
  {
    if a < 0.0 {
      assert a * a == (-a) * (-a);
    }
  }

  lemma BounceAngleCentreIsStraight(pi: real)
    ensures BounceAngle(0.5, pi) == 0.0
  {
  }

  lemma BounceAngleIncreasing(c1: real, c2: real, pi: real)
    requires pi > 0.0 && c1 < c2
    ensures BounceAngle(c1, pi) < BounceAngle(c2, pi)
  {
    assert (c2 - 0.5) * pi - (c1 - 0.5) * pi == (c2 - c1) * pi;
  }

  /** Collision points in [0, 1] give angles in [-pi/4, pi/4]. */
  lemma BounceAngleRange(c: real, pi: real)
    requires pi > 0.0 && 0.0 <= c <= 1.0
    ensures -pi / 4.0 <= BounceAngle(c, pi) <= pi / 4.0
  {
    BounceAngleMonotone(0.0, c, pi);
    BounceAngleMonotone(c, 1.0, pi);
  }

  lemma BounceAngleMonotone(c1: real, c2: real, pi: real)
    requires pi > 0.0 && c1 <= c2
    ensures BounceAngle(c1, pi) <= BounceAngle(c2, pi)
  {
    assert (c2 - 0.5) * pi - (c1 - 0.5) * pi == (c2 - c1) * pi;
  }

  /**
   * The collision point of an overlapping ball is only roughly in [0, 1]: it
   * can exceed either end by half the ball's height relative to the paddle's.
   */
  lemma CollisionPointOfOverlap(b: BallState, p: Rect)
    requires p.height > 0.0 && Overlaps(b.Bounds(), p)
    ensures -b.height / (2.0 * p.height) < CollisionPoint(b, p) < 1.0 + b.height / (2.0 * p.height)
  {
    var c := b.y + b.height / 2.0 - p.y;
    var h := p.height;
    DivStrictlyMonotone(-b.height / 2.0, c, h);
    DivStrictlyMonotone(c, h + b.height / 2.0, h);
    assert (h + b.height / 2.0) / h == h / h + (b.height / 2.0) / h;
    assert h / h == 1.0;
    assert (b.height / 2.0) / h == b.height / (2.0 * h);
    assert (-b.height / 2.0) / h == -b.height / (2.0 * h);
  }

  /** Start at 1.0 and take `n` capped ramp steps. */
  function TotalAfter(n: nat, ratio: real, max: real): real {
    if n == 0 then 1.0 else NextTotalIncrement(TotalAfter(n - 1, ratio, max), ratio, max)
  }

  function Pow(r: real, n: nat): real {
    if n == 0 then 1.0 else Pow(r, n - 1) * r
  }

  lemma PowStep(r: real, n: nat)
    requires n > 0
    ensures Pow(r, n) == Pow(r, n - 1) * r
  {
  }

  lemma {:induction false} PowAtLeastOne(r: real, n: nat)
    requires r >= 1.0
    ensures Pow(r, n) >= 1.0
  {
    if n > 0 {
      PowAtLeastOne(r, n - 1);
      PowStep(r, n);
      ProductAtLeastOne(Pow(r, n - 1), r);
    }
  }

  lemma ProductAtLeastOne(a: real, b: real)
    requires a >= 1.0 && b >= 1.0
    ensures a * b >= a
  {
    assert a * b - a == a * (b - 1.0);
  }

  /**
   * With ratio >= 1 and a cap of at least 1, the total increment after `n`
   * hits is `min(ratio^n, max)`: the cap is reached once and then kept.
   */
  lemma {:induction false} TotalAfterClosedForm(n: nat, ratio: real, max: real)
    requires ratio >= 1.0 && max >= 1.0
    ensures TotalAfter(n, ratio, max) == Min(Pow(ratio, n), max)
  {
    if n > 0 {
      TotalAfterClosedForm(n - 1, ratio, max);
      PowAtLeastOne(ratio, n - 1);
      PowStep(ratio, n);
      RampStep(Pow(ratio, n - 1), Pow(ratio, n), ratio, max);
    }
  }

  /** One ramp step from `min(p, max)` gives `min(q, max)`, where `q` is `p * ratio`. */
  lemma RampStep(p: real, q: real, ratio: real, max: real)
    requires ratio >= 1.0 && max >= 1.0 && p >= 1.0 && q == p * ratio
    ensures NextTotalIncrement(Min(p, max), ratio, max) == Min(q, max)
  {
    ProductAtLeastOne(p, ratio);
    if p > max {
      ProductAtLeastOne(max, ratio);
    }
  }

  lemma ProductPositive(a: real, b: real)
    requires a > 0.0 && b > 0.0
    ensures a * b > 0.0
  {
  }

  lemma HalfStrictlyMonotone(a: real, b: real)
    requires a < b
    ensures a / 2.0 < b / 2.0
  {
  }

  /** Collision points within half a paddle of its edges give angles within (-pi/2, pi/2). */
  lemma BounceAngleWithinHalfPi(c: real, pi: real)
    requires pi > 0.0 && -0.5 < c < 1.5
    ensures -pi / 2.0 < BounceAngle(c, pi) < pi / 2.0
  {
    var x := (c - 0.5) * pi;
    ProductPositive(1.5 - c, pi);
    ProductPositive(c + 0.5, pi);
    assert pi - x == (1.5 - c) * pi;
    assert x + pi == (c + 0.5) * pi;
    HalfStrictlyMonotone(x, pi);
    HalfStrictlyMonotone(-pi, x);
  }

  lemma QuotientPositive(a: real, d: real)
    requires a > 0.0 && d > 0.0
    ensures a / d > 0.0
  {
    DivStrictlyMonotone(0.0, a, d);
  }

  lemma SignOfScaled(a: real, g: real)
    requires a > 0.0 && (g == 1.0 || g == -1.0)
    ensures Sign(a * g) == g
  {
  }

  /** A velocity rebuilt from a magnitude and an angle keeps the magnitude. */
  lemma PolarMagnitude(speed: real, cs: real, sn: real, sg: real)
    requires cs * cs + sn * sn == 1.0 && sg * sg == 1.0
    ensures (speed * cs * sg) * (speed * cs * sg) + (speed * sn) * (speed * sn) == speed * speed
  {
    calc {
      (speed * cs * sg) * (speed * cs * sg) + (speed * sn) * (speed * sn);
      (speed * speed) * (cs * cs) * (sg * sg) + (speed * speed) * (sn * sn);
      (speed * speed) * (cs * cs) + (speed * speed) * (sn * sn);
      (speed * speed) * (cs * cs + sn * sn);
    }
  }

  lemma ScaledSquare(s: real, k: real, v: real)
    requires s * s == v
    ensures (s * k) * (s * k) == v * (k * k)
  {
    assert (s * k) * (s * k) == (s * s) * (k * k);
  }

  /**
   * A paddle hit reverses the horizontal direction of a moving ball, as long
   * as the collision point keeps the angle within (-pi/2, pi/2).
   */
  lemma DeflectReversesDirection(b: BallState, p: Rect, m: Trig)
    requires SqrtLaw(m) && CosineLaw(m) && CanDeflect(b, p)
    requires b.speedX != 0.0 && b.speedIncrementRatio > 0.0 && b.totalSpeedIncrement > 0.0 && b.maxSpeedIncrement > 0.0
    requires -0.5 < CollisionPoint(b, p) < 1.5
    ensures Sign(Deflect(b, p, m).speedX) == -Sign(b.speedX)
  {
    BounceAngleWithinHalfPi(CollisionPoint(b, p), m.pi);
    MovingSpeedSquarePositive(b.speedX, b.speedY);
    ProductPositive(b.totalSpeedIncrement, b.speedIncrementRatio);
    QuotientPositive(NextTotalIncrement(b.totalSpeedIncrement, b.speedIncrementRatio, b.maxSpeedIncrement), b.totalSpeedIncrement);
    var reversed := -b.speedX;
    ReversedSign(b.speedX, m.sqrt(reversed * reversed + b.speedY * b.speedY), SpeedIncrement(b),
                 m.cos(BounceAngle(CollisionPoint(b, p), m.pi)));
  }

  /** A positive magnitude times a positive cosine keeps the sign it is given. */
  lemma ReversedSign(speedX: real, root: real, k: real, cs: real)
    requires speedX != 0.0 && root > 0.0 && k > 0.0 && cs > 0.0
    ensures Sign(root * k * cs * Sign(-speedX)) == -Sign(speedX)
  {
    ProductPositive(root, k);
    ProductPositive(root * k, cs);
    SignOfScaled(root * k * cs, Sign(-speedX));
  }

  /**
   * The speed after a paddle hit is the speed before it multiplied by the
   * one-hit increment (the magnitudes are compared squared).
   */
  lemma DeflectScalesSpeed(b: BallState, p: Rect, m: Trig)
    requires SqrtLaw(m) && PythagoreanLaw(m) && CanDeflect(b, p) && b.speedX != 0.0
    ensures var r := Deflect(b, p, m); var k := SpeedIncrement(b);
      r.speedX * r.speedX + r.speedY * r.speedY == (b.speedX * b.speedX + b.speedY * b.speedY) * (k * k)
  {
    var angle := BounceAngle(CollisionPoint(b, p), m.pi);
    var v := SquaredNorm(-b.speedX, b.speedY);
    ReversedNorm(b.speedX, b.speedY);
    var s := m.sqrt(v);
    assert s * s == v;
    var k := SpeedIncrement(b);
    var sg := Sign(-b.speedX);
    assert sg * sg == 1.0;
    assert m.cos(angle) * m.cos(angle) + m.sin(angle) * m.sin(angle) == 1.0;
    ScaledPolar(s, k, v, m.cos(angle), m.sin(angle), sg);
  }

  /** Reversing the horizontal speed keeps the squared norm. */
  lemma ReversedNorm(sx: real, sy: real)
    ensures SquaredNorm(-sx, sy) == sx * sx + sy * sy
    ensures SquaredNorm(-sx, sy) >= 0.0
  {
    assert (-sx) * (-sx) == sx * sx;
    SquareNonnegative(sx);
    SquareNonnegative(sy);
  }

  /** A velocity of magnitude `s * k` rebuilt from an angle has squared magnitude `v * k^2`. */
  lemma ScaledPolar(s: real, k: real, v: real, cs: real, sn: real, sg: real)
    requires s * s == v && cs * cs + sn * sn == 1.0 && sg * sg == 1.0
    ensures ((s * k) * cs * sg) * ((s * k) * cs * sg) + ((s * k) * sn) * ((s * k) * sn) == v * (k * k)
  {
    ScaledSquare(s, k, v);
    PolarMagnitude(s * k, cs, sn, sg);
  }

  lemma MovingSpeedSquarePositive(speedX: real, speedY: real)
    requires speedX != 0.0
    ensures (-speedX) * (-speedX) + speedY * speedY > 0.0
  {
    SquarePositive(-speedX);
    SquareNonnegative(speedY);
  }

  lemma SquareNonnegative(a: real)
    ensures a * a >= 0.0
  {
    if a != 0.0 { SquarePositive(a); }
  }

  class Ball {
    var x: real
    var y: real
    var width: real
    var height: real
    var speedX: real
    var speedY: real
    var speedIncrementRatio: real
    var maxSpeedIncrement: real
    var totalSpeedIncrement: real

    /** A square of side `size` centred on (xCenter, yCenter) that has not yet sped up. */
    constructor (xCenter: real, yCenter: real, size: real, speedX: real, speedY: real,
                 speedIncrementRatio: real, maxSpeedIncrement: real)
      ensures x == xCenter - size / 2.0 && y == yCenter - size / 2.0
      ensures width == size && height == size
      ensures this.speedX == speedX && this.speedY == speedY
      ensures this.speedIncrementRatio == speedIncrementRatio && this.maxSpeedIncrement == maxSpeedIncrement
      ensures totalSpeedIncrement == 1.0
    {
      x := xCenter - size / 2.0;
      y := yCenter - size / 2.0;
      width := size;
      height := size;
      this.speedX := speedX;
      this.speedY := speedY;
      this.speedIncrementRatio := speedIncrementRatio;
      this.maxSpeedIncrement := maxSpeedIncrement;
      totalSpeedIncrement := 1.0;
    }

    function State(): BallState
      reads this
    {
      BallState(x, y, width, height, speedX, speedY, speedIncrementRatio, maxSpeedIncrement, totalSpeedIncrement)
    }

    function Bounds(): Rect
      reads this
    {
      Rect(x, y, width, height)
    }

    /** `extractPosition` of src/remoteGame.ts. */
    function Extract(): Position
      reads this
    {
      Position(x, y, speedX, speedY)
    }

    /** `applyPosition` of src/remoteGame.ts, also `applyBallPositionAndSpeed` of the app. */
    method Apply(p: Position)
      modifies this
      ensures Extract() == p
      ensures State() == old(State()).(x := p.x, y := p.y, speedX := p.speedX, speedY := p.speedY)
    {
      x := p.x;
      y := p.y;
      speedX := p.speedX;
      speedY := p.speedY;
    }

    /** The inherited `Figure.move`: the position advances by the velocity. */
    method Move()
      modifies this
      ensures State() == old(State()).(x := old(x) + old(speedX), y := old(y) + old(speedY))
    {
      x := x + speedX;
      y := y + speedY;
    }

    method HandleBounceOnFloorOrCeiling()
      modifies this
      ensures State() == WallBounce(old(State()))
    {
      if y <= 0.0 || y + height >= 1.0 {
        speedY := -speedY;
        y := ClampY(y, height);
      }
    }

    /**
     * Returns whether the ball hits `paddle`; on a hit the ball is deflected,
     * otherwise it is left exactly as it was.
     */
    method HandleBounceOnPaddle(paddle: Paddle, m: Trig) returns (bounced: bool)
      requires Overlaps(Bounds(), paddle.Bounds()) ==> CanDeflect(State(), paddle.Bounds())
      modifies this
      ensures bounced == Overlaps(old(Bounds()), paddle.Bounds())
      ensures State() == if bounced then Deflect(old(State()), paddle.Bounds(), m) else old(State())
    {
      if !Overlaps(Bounds(), paddle.Bounds()) {
        return false;
      }
      ghost var before := State();
      var collisionPoint := (y + height / 2.0 - paddle.y) / paddle.height;
      assert collisionPoint == CollisionPoint(before, paddle.Bounds());
      speedX := -speedX;
      var angle := BounceAngle(collisionPoint, m.pi);
      var newTotalIncrement := NextTotalIncrement(totalSpeedIncrement, speedIncrementRatio, maxSpeedIncrement);
      var speedIncrement := newTotalIncrement / totalSpeedIncrement;
      assert speedIncrement == SpeedIncrement(before);
      totalSpeedIncrement := newTotalIncrement;
      var speed := m.Sqrt(SquaredNorm(speedX, speedY)) * speedIncrement;
      assert speed == HitSpeed(before, m);
      speedX := speed * m.Cos(angle) * Sign(speedX);
      speedY := speed * m.Sin(angle);
      return true;
    }
  }
}

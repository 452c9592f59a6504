/**
 * The local match (src/app/game.ts): the constants of the game, the reset
 * positions of the figures, serving, scoring, the choice of paddle by the
 * ball's direction, and the computer opponent's paddle rule.
 *
 * The match rules are pure functions (`ExitOf`, `Scored`, `ServeSpeedX`,
 * `ServeSpeedY`, `AISpeed`); the `LocalGame` class keeps the figures and the
 * score and its methods are proved to follow those rules while keeping the
 * invariant `Valid()`.
 */
module Games {
  import opened Figures
  import opened Paddles
  import opened Balls

  const BALL_SIZE: real := 0.01
  const BALL_SPEED_X: real := 0.015
  const BALL_SPEED_Y: real := 0.01
  const MAX_BALL_SPEED_FACTOR: real := 2.0
  const BALL_SPEED_RATE: real := 1.05
  const PADDLE_WIDTH: real := 0.02
  const PADDLE_HEIGHT: real := 0.2
  const PADDLE_STEP_SIZE: real := 0.025
  /** Frames computed per second. */
  const GAME_FPS: real := 120.0

  /**
   * A step size tuned for 60 frames per second, scaled to `GAME_FPS`: at 120
   * frames per second every step is halved, and the sign is kept.
   */
  function EffectiveStepSize(stepSize: real): (r: real)
    ensures r == stepSize / 2.0
    ensures stepSize > 0.0 ==> 0.0 < r < stepSize
    ensures stepSize < 0.0 ==> stepSize < r < 0.0
  {
    stepSize * (60.0 / GAME_FPS)
  }

  lemma EffectiveStepSizeOdd(s: real)
    ensures EffectiveStepSize(-s) == -EffectiveStepSize(s)
  {
  }

  /* ---------- Scoring ---------- */

  /** Where the ball is with respect to the side boundaries. */
  datatype Exit = LeftExit | RightExit | InField

  /**
   * A ball at or past the left edge has left on the left; otherwise one whose
   * right edge is at or past the right edge has left on the right.
   */
  function ExitOf(b: BallState): (e: Exit)
    ensures e == LeftExit <==> b.x <= 0.0
    ensures e == RightExit <==> 0.0 < b.x && b.x + b.width >= 1.0
    ensures e == InField <==> 0.0 < b.x && b.x + b.width < 1.0
  {
    if b.x <= 0.0 then LeftExit
    else if b.x + b.width >= 1.0 then RightExit
    else InField
  }

  /** The two counters and who scored the last point. */
  datatype Score = Score(left: int, right: int, leftScoredLast: bool)

  /**
   * `handlePlayerScored` on the score: a left exit is a point for the right
   * player, a right exit a point for the left one. Exactly one counter goes
   * up by one and `leftScoredLast` names its owner; a ball in the field
   * changes nothing.
   */
  function Scored(s: Score, e: Exit): (r: Score)
    ensures e == InField ==> r == s
    ensures e != InField ==> r.left + r.right == s.left + s.right + 1
    ensures e != InField ==> s.left <= r.left && s.right <= r.right
    ensures e != InField ==> (r.leftScoredLast <==> r.left == s.left + 1)
    ensures e == LeftExit ==> r.right == s.right + 1 && !r.leftScoredLast
    ensures e == RightExit ==> r.left == s.left + 1 && r.leftScoredLast
  {
    match e
    case LeftExit => s.(right := s.right + 1, leftScoredLast := false)
    case RightExit => s.(left := s.left + 1, leftScoredLast := true)
    case InField => s
  }

  function Points(s: Score): int { s.left + s.right }

  function CountExits(es: seq<Exit>): nat {
    if es == [] then 0 else CountExits(es[..|es| - 1]) + (if es[|es| - 1] == InField then 0 else 1)
  }

  /** The score after a run of ticks whose balls ended in `es`. */
  function ScoredAll(s: Score, es: seq<Exit>): Score {
    if es == [] then s else Scored(ScoredAll(s, es[..|es| - 1]), es[|es| - 1])
  }

  /**
   * Over any run of ticks, the points added are exactly the exits, and
   * neither counter ever goes down.
   */
  lemma {:induction false} ScoredAllCountsExits(s: Score, es: seq<Exit>)
    ensures Points(ScoredAll(s, es)) == Points(s) + CountExits(es)
    ensures s.left <= ScoredAll(s, es).left && s.right <= ScoredAll(s, es).right
  {
    if es != [] {
      ScoredAllCountsExits(s, es[..|es| - 1]);
    }
  }

  /* ---------- Serving ---------- */

  /**
   * The serve goes towards the player who did not score last: to the right
   * after a left point, to the left otherwise, at the effective horizontal
   * serve speed.
   */
  function ServeSpeedX(leftScoredLast: bool): (v: real)
    ensures leftScoredLast <==> v > 0.0
    ensures v == EffectiveStepSize(BALL_SPEED_X) || v == -EffectiveStepSize(BALL_SPEED_X)
  {
    var speedXSign := if leftScoredLast then 1.0 else -1.0;
    EffectiveStepSize(BALL_SPEED_X) * speedXSign
  }

  /**
   * The vertical serve speed for a random draw `r` in [0, 1): uniform over
   * [-BALL_SPEED_Y, BALL_SPEED_Y), scaled to the frame rate.
   */
  function ServeSpeedY(r: real): (v: real)
    requires 0.0 <= r < 1.0
    ensures -EffectiveStepSize(BALL_SPEED_Y) <= v < EffectiveStepSize(BALL_SPEED_Y)
    ensures r == 0.5 ==> v == 0.0
  {
    EffectiveStepSize(BALL_SPEED_Y * (r * 2.0 - 1.0))
  }

  /* ---------- The computer opponent ---------- */

  /**
   * `makeAIMove`: the paddle steps towards the ball's centre, down when the
   * ball is below, up when it is above, not at all when they are level.
   */
  function AISpeed(ballCentreY: real, paddleCentreY: real): (v: real)
    ensures v > 0.0 <==> ballCentreY > paddleCentreY
    ensures v < 0.0 <==> ballCentreY < paddleCentreY
    ensures v == 0.0 || v == EffectiveStepSize(PADDLE_STEP_SIZE) || v == -EffectiveStepSize(PADDLE_STEP_SIZE)
  {
    if ballCentreY > paddleCentreY then EffectiveStepSize(PADDLE_STEP_SIZE)
    else if ballCentreY < paddleCentreY then -EffectiveStepSize(PADDLE_STEP_SIZE)
    else 0.0
  }

  function Abs(v: real): real { if v >= 0.0 then v else -v }

  /**
   * A computer paddle at least one step away from the ball's centre closes
   * the gap by exactly one step (before the clamp to the field).
   */
  lemma AIApproachesBall(ballCentreY: real, paddleCentreY: real)
    requires Abs(ballCentreY - paddleCentreY) >= EffectiveStepSize(PADDLE_STEP_SIZE)
    ensures Abs(ballCentreY - (paddleCentreY + AISpeed(ballCentreY, paddleCentreY)))
            == Abs(ballCentreY - paddleCentreY) - EffectiveStepSize(PADDLE_STEP_SIZE)
  {
  }

  /* ---------- Figures at reset ---------- */

  /** The ball as `resetBall` creates it: centred, at rest, not yet sped up. */
  function ResetBallState(): (b: BallState)
    ensures b.x + b.width / 2.0 == 0.5 && b.y + b.height / 2.0 == 0.5
    ensures b.speedX == 0.0 && b.speedY == 0.0 && b.totalSpeedIncrement == 1.0
  {
    BallState(0.5 - BALL_SIZE / 2.0, 0.5 - BALL_SIZE / 2.0, BALL_SIZE, BALL_SIZE, 0.0, 0.0,
              BALL_SPEED_RATE, MAX_BALL_SPEED_FACTOR, 1.0)
  }

  /** The x coordinates of the two paddles: flush with the left and right edges. */
  const LEFT_PADDLE_X: real := 0.0
  const RIGHT_PADDLE_X: real := 1.0 - PADDLE_WIDTH

  /** A paddle of the game's size at `x` that never moves sideways. */
  predicate PaddleAt(p: Paddle, x: real)
    reads p
  {
    p.x == x && p.width == PADDLE_WIDTH && p.height == PADDLE_HEIGHT && p.speedX == 0.0
  }

  /** The paddle lies vertically inside the field. */
  predicate WithinField(p: Paddle)
    reads p
  {
    0.0 <= p.y <= 1.0 - p.height
  }

  /** A paddle as the reset creates it: vertically centred and at rest. */
  predicate PaddleAtReset(p: Paddle, x: real)
    reads p
  {
    PaddleAt(p, x) && p.y == RESET_PADDLE_Y && p.speedY == 0.0
  }

  method NewBall() returns (b: Ball)
    ensures fresh(b) && b.State() == ResetBallState()
  {
    b := new Ball(0.5, 0.5, BALL_SIZE, 0.0, 0.0, BALL_SPEED_RATE, MAX_BALL_SPEED_FACTOR);
  }

  method NewPaddle(x: real) returns (p: Paddle)
    requires x == LEFT_PADDLE_X || x == RIGHT_PADDLE_X
    ensures fresh(p) && PaddleAtReset(p, x)
  {
    p := new Paddle(x, 0.5, PADDLE_WIDTH, PADDLE_HEIGHT, 0.0);
  }

  /* ---------- One frame of the match ---------- */

  /** A paddle's rectangle, at the game's paddle size. */
  function PaddleRect(p: Position): Rect { Rect(p.x, p.y, PADDLE_WIDTH, PADDLE_HEIGHT) }

  function BallPosition(b: BallState): Position { Position(b.x, b.y, b.speedX, b.speedY) }

  const RESET_PADDLE_Y: real := 0.5 - PADDLE_HEIGHT / 2.0
  const RESET_LEFT: Position := Position(LEFT_PADDLE_X, RESET_PADDLE_Y, 0.0, 0.0)
  const RESET_RIGHT: Position := Position(RIGHT_PADDLE_X, RESET_PADDLE_Y, 0.0, 0.0)

  /**
   * Everything one frame of `mainLoop` reads or writes: both paddles, the
   * ball, the score and whether a serve is pending.
   */
  datatype Table = Table(left: Position, right: Position, ball: BallState, score: Score, servingBall: bool)

  /** `Paddle.move` on a paddle of the game's size. */
  function MovePaddle(p: Position): (r: Position)
    ensures 0.0 <= r.y <= 1.0 - PADDLE_HEIGHT
    ensures r.x == p.x + p.speedX && r.speedX == p.speedX && r.speedY == p.speedY
    ensures 0.0 <= p.y + p.speedY <= 1.0 - PADDLE_HEIGHT ==> r.y == p.y + p.speedY
  {
    p.(x := p.x + p.speedX, y := ClampY(p.y + p.speedY, PADDLE_HEIGHT))
  }

  /**
   * `moveFigures`: with the computer opponent its paddle first picks its
   * speed towards the ball; then both paddles make their clamped move and
   * the ball its free move.
   */
  function MoveAll(t: Table, aiOpponent: bool): Table {
    var right := if aiOpponent
      then t.right.(speedY := AISpeed(t.ball.y + t.ball.height / 2.0, t.right.y + PADDLE_HEIGHT / 2.0))
      else t.right;
    t.(left := MovePaddle(t.left), right := MovePaddle(right),
       ball := t.ball.(x := t.ball.x + t.ball.speedX, y := t.ball.y + t.ball.speedY))
  }

  /**
   * `handleCollisions`: the paddle on the side the ball travels to deflects
   * it when they overlap; then the floor or ceiling bounce.
   */
  function CollideAll(t: Table, m: Trig): Table
    requires t.ball.totalSpeedIncrement != 0.0
  {
    var p := PaddleRect(if t.ball.speedX < 0.0 then t.left else t.right);
    var hit := if Overlaps(t.ball.Bounds(), p) then Deflect(t.ball, p, m) else t.ball;
    t.(ball := WallBounce(hit))
  }

  /** `handlePlayerScored`: a ball past a side edge scores, and all figures are reset. */
  function ScoreAll(t: Table): Table {
    var e := ExitOf(t.ball);
    if e == InField then t
    else t.(left := RESET_LEFT, right := RESET_RIGHT, ball := ResetBallState(), score := Scored(t.score, e))
  }

  /** `checkShouldServeBall`: a ball at rest gets a serve scheduled. */
  function ServeCheck(t: Table): Table {
    t.(servingBall := t.servingBall || t.ball.speedX == 0.0)
  }

  /**
   * One frame of `mainLoop`: move, collide, score, check the serve. Both
   * paddles end inside the field, and so does a ball no taller than it; at
   * most one point is scored and no counter goes down; a point puts every
   * figure back at its reset position and leaves a serve pending; a pending
   * serve stays pending.
   */
  function PlayFrame(t: Table, aiOpponent: bool, m: Trig): (r: Table)
    requires t.ball.totalSpeedIncrement != 0.0
    ensures 0.0 <= r.left.y <= 1.0 - PADDLE_HEIGHT && 0.0 <= r.right.y <= 1.0 - PADDLE_HEIGHT
    ensures t.ball.height <= 1.0 ==> 0.0 <= r.ball.y <= 1.0 - r.ball.height
    ensures t.score.left <= r.score.left && t.score.right <= r.score.right
    ensures Points(r.score) <= Points(t.score) + 1
    ensures r.score != t.score ==>
      r.left == RESET_LEFT && r.right == RESET_RIGHT && r.ball == ResetBallState() && r.servingBall
    ensures t.servingBall ==> r.servingBall
  {
    ServeCheck(ScoreAll(CollideAll(MoveAll(t, aiOpponent), m)))
  }

  /**
   * A paddle hit in the game sends the ball back the way it came: the ball
   * is shorter than the paddle, so any overlap puts the collision point
   * inside (-1/2, 3/2), where the deflection reverses the horizontal
   * direction; the floor and ceiling bounce leaves it alone.
   */
  lemma HitReversesBall(t: Table, m: Trig)
    requires SqrtLaw(m) && CosineLaw(m)
    requires t.ball.height == BALL_SIZE && t.ball.speedIncrementRatio == BALL_SPEED_RATE
    requires t.ball.maxSpeedIncrement == MAX_BALL_SPEED_FACTOR && t.ball.totalSpeedIncrement >= 1.0
    requires t.ball.speedX != 0.0
    requires Overlaps(t.ball.Bounds(), PaddleRect(if t.ball.speedX < 0.0 then t.left else t.right))
    ensures Sign(CollideAll(t, m).ball.speedX) == -Sign(t.ball.speedX)
  {
    var p := PaddleRect(if t.ball.speedX < 0.0 then t.left else t.right);
    CollisionPointOfOverlap(t.ball, p);
    DeflectReversesDirection(t.ball, p, m);
  }

  /**
   * `Local2PlayerGame`, and `Local1PlayerGame` when `aiOpponent` is set: the
   * computer then plays the right paddle.
   */
  class LocalGame {
    var leftPaddle: Paddle
    var rightPaddle: Paddle
    var ball: Ball
    var leftScore: int
    var rightScore: int
    var leftScoredLast: bool
    var leftPlayerName: string
    var rightPlayerName: string
    var servingBall: bool
    const aiOpponent: bool

    /**
     * Paddles of the game's size sit at their edges and never move sideways; the ball keeps its size and ramp, and its total
     * increment stays within [1, MAX_BALL_SPEED_FACTOR].
     */
    predicate Valid()
      reads this, leftPaddle, rightPaddle, ball
    {
      && leftPaddle != rightPaddle
      && PaddleAt(leftPaddle, LEFT_PADDLE_X)
      && PaddleAt(rightPaddle, RIGHT_PADDLE_X)
      && ball.width == BALL_SIZE && ball.height == BALL_SIZE
      && ball.speedIncrementRatio == BALL_SPEED_RATE && ball.maxSpeedIncrement == MAX_BALL_SPEED_FACTOR
      && 1.0 <= ball.totalSpeedIncrement <= MAX_BALL_SPEED_FACTOR
    }

    function GetScore(): Score
      reads this
    {
      Score(leftScore, rightScore, leftScoredLast)
    }

    /** The frame-relevant part of the game, as a value. */
    function Snapshot(): Table
      reads this, leftPaddle, rightPaddle, ball
    {
      Table(leftPaddle.Extract(), rightPaddle.Extract(), ball.State(), GetScore(), servingBall)
    }

    predicate PaddlesInField()
      reads this, leftPaddle, rightPaddle
    {
      WithinField(leftPaddle) && WithinField(rightPaddle)
    }

    /** All three figures are where a reset puts them. */
    predicate FiguresAtReset()
      reads this, leftPaddle, rightPaddle, ball
    {
      && ball.State() == ResetBallState()
      && PaddleAtReset(leftPaddle, LEFT_PADDLE_X)
      && PaddleAtReset(rightPaddle, RIGHT_PADDLE_X)
      && leftPaddle != rightPaddle
    }

    /** A new game: figures at reset, no points, nobody has scored, no serve pending. */
    constructor (leftPlayerName: string, aiOpponent: bool)
      ensures Valid() && PaddlesInField() && FiguresAtReset()
      ensures fresh(ball) && fresh(leftPaddle) && fresh(rightPaddle)
      ensures GetScore() == Score(0, 0, false) && !servingBall
      ensures this.leftPlayerName == leftPlayerName
      ensures rightPlayerName == if aiOpponent then "Computer" else "Guest"
      ensures this.aiOpponent == aiOpponent
    {
      var left := NewPaddle(LEFT_PADDLE_X);
      var right := NewPaddle(RIGHT_PADDLE_X);
      var b := NewBall();
      leftPaddle := left;
      rightPaddle := right;
      leftScore := 0;
      rightScore := 0;
      ball := b;
      leftScoredLast := false;
      this.leftPlayerName := leftPlayerName;
      rightPlayerName := if aiOpponent then "Computer" else "Guest";
      servingBall := false;
      this.aiOpponent := aiOpponent;
    }

    method ResetBall()
      modifies this
      ensures fresh(ball) && ball.State() == ResetBallState()
      ensures leftPaddle == old(leftPaddle) && rightPaddle == old(rightPaddle)
      ensures GetScore() == old(GetScore()) && servingBall == old(servingBall)
      ensures leftPlayerName == old(leftPlayerName) && rightPlayerName == old(rightPlayerName)
    {
      ball := NewBall();
    }

    method ResetLeftPaddle()
      modifies this
      ensures fresh(leftPaddle) && PaddleAtReset(leftPaddle, LEFT_PADDLE_X)
      ensures ball == old(ball) && rightPaddle == old(rightPaddle)
      ensures GetScore() == old(GetScore()) && servingBall == old(servingBall)
      ensures leftPlayerName == old(leftPlayerName) && rightPlayerName == old(rightPlayerName)
    {
      leftPaddle := NewPaddle(LEFT_PADDLE_X);
    }

    method ResetRightPaddle()
      modifies this
      ensures fresh(rightPaddle) && PaddleAtReset(rightPaddle, RIGHT_PADDLE_X)
      ensures ball == old(ball) && leftPaddle == old(leftPaddle)
      ensures GetScore() == old(GetScore()) && servingBall == old(servingBall)
      ensures leftPlayerName == old(leftPlayerName) && rightPlayerName == old(rightPlayerName)
    {
      rightPaddle := NewPaddle(RIGHT_PADDLE_X);
    }

    /** All three figures replaced by fresh ones at their reset positions; the score is kept. */
    method ResetFigures()
      modifies this
      ensures Valid() && PaddlesInField() && FiguresAtReset()
      ensures fresh(ball) && fresh(leftPaddle) && fresh(rightPaddle)
      ensures GetScore() == old(GetScore()) && servingBall == old(servingBall)
      ensures leftPlayerName == old(leftPlayerName) && rightPlayerName == old(rightPlayerName)
    {
      ResetBall();
      ResetLeftPaddle();
      ResetRightPaddle();
    }

    /**
     * The delayed serve: clears `servingBall` and launches the ball towards
     * the player who did not score last; `r` is the `Math.random()` draw.
     */
    method ServeBall(r: real)
      requires 0.0 <= r < 1.0
      modifies this, ball
      ensures old(Valid()) ==> Valid()
      ensures !servingBall
      ensures ball == old(ball) && leftPaddle == old(leftPaddle) && rightPaddle == old(rightPaddle)
      ensures ball.State() == old(ball.State()).(speedX := ServeSpeedX(leftScoredLast), speedY := ServeSpeedY(r))
      ensures GetScore() == old(GetScore())
      ensures leftPlayerName == old(leftPlayerName) && rightPlayerName == old(rightPlayerName)
    {
      servingBall := false;
      var speedXSign := if leftScoredLast then 1.0 else -1.0;
      ball.speedX := EffectiveStepSize(BALL_SPEED_X) * speedXSign;
      ball.speedY := EffectiveStepSize(BALL_SPEED_Y * (r * 2.0 - 1.0));
    }

    /** `makeAIMove`: only the right paddle's vertical speed changes. */
    method MakeAIMove()
      modifies rightPaddle
      ensures rightPaddle.speedY == AISpeed(ball.y + ball.height / 2.0, rightPaddle.y + rightPaddle.height / 2.0)
      ensures rightPaddle.Bounds() == old(rightPaddle.Bounds()) && rightPaddle.speedX == old(rightPaddle.speedX)
    {
      var ballCenterY := ball.y + ball.height / 2.0;
      var paddleCenterY := rightPaddle.y + rightPaddle.height / 2.0;
      if ballCenterY > paddleCenterY {
        rightPaddle.speedY := EffectiveStepSize(PADDLE_STEP_SIZE);
      } else if ballCenterY < paddleCenterY {
        rightPaddle.speedY := -EffectiveStepSize(PADDLE_STEP_SIZE);
      } else {
        rightPaddle.speedY := 0.0;
      }
    }

    /**
     * Both paddles make their clamped move and the ball its free move; with
     * the computer opponent, its paddle first picks its speed.
     */
    method MoveFigures()
      requires Valid()
      modifies leftPaddle, rightPaddle, ball
      ensures Valid() && PaddlesInField()
      ensures leftPaddle.y == ClampY(old(leftPaddle.y) + old(leftPaddle.speedY), PADDLE_HEIGHT)
      ensures leftPaddle.speedY == old(leftPaddle.speedY)
      ensures rightPaddle.y == ClampY(old(rightPaddle.y) + rightPaddle.speedY, PADDLE_HEIGHT)
      ensures rightPaddle.speedY == if aiOpponent
        then AISpeed(old(ball.y) + BALL_SIZE / 2.0, old(rightPaddle.y) + PADDLE_HEIGHT / 2.0)
        else old(rightPaddle.speedY)
      ensures ball.State() == old(ball.State()).(x := old(ball.x) + old(ball.speedX), y := old(ball.y) + old(ball.speedY))
      ensures Snapshot() == MoveAll(old(Snapshot()), aiOpponent)
    {
      if aiOpponent {
        MakeAIMove();
      }
      leftPaddle.Move();
      rightPaddle.Move();
      ball.Move();
    }

    /**
     * A ball moving left can only hit the left paddle and any other ball only
     * the right one; the floor and ceiling bounce follows. Afterwards the
     * ball lies vertically inside the field.
     */
    method HandleCollisions(m: Trig)
      requires Valid()
      modifies ball
      ensures Valid()
      ensures ball.State() == WallBounce(
        var p := (if old(ball.speedX) < 0.0 then leftPaddle else rightPaddle).Bounds();
        if Overlaps(old(ball.Bounds()), p) then Deflect(old(ball.State()), p, m) else old(ball.State()))
      ensures 0.0 <= ball.y <= 1.0 - ball.height
      ensures Snapshot() == CollideAll(old(Snapshot()), m)
    {
      ghost var before := ball.State();
      var bounced;
      if ball.speedX < 0.0 {
        bounced := ball.HandleBounceOnPaddle(leftPaddle, m);
      } else {
        bounced := ball.HandleBounceOnPaddle(rightPaddle, m);
      }
      RampStaysInRange(before);
      ball.HandleBounceOnFloorOrCeiling();
    }

    /**
     * A ball past a side edge scores for the opposite player and all figures
     * are reset; a ball inside the field changes nothing.
     */
    method HandlePlayerScored()
      requires Valid()
      modifies this
      ensures Valid()
      ensures GetScore() == Scored(old(GetScore()), ExitOf(old(ball.State())))
      ensures ExitOf(old(ball.State())) != InField ==>
        FiguresAtReset() && fresh(ball) && fresh(leftPaddle) && fresh(rightPaddle)
      ensures ExitOf(old(ball.State())) == InField ==>
        ball == old(ball) && leftPaddle == old(leftPaddle) && rightPaddle == old(rightPaddle)
      ensures servingBall == old(servingBall)
      ensures leftPlayerName == old(leftPlayerName) && rightPlayerName == old(rightPlayerName)
      ensures Snapshot() == ScoreAll(old(Snapshot()))
    {
      if ball.x <= 0.0 {
        rightScore := rightScore + 1;
        leftScoredLast := false;
      } else if ball.x + ball.width >= 1.0 {
        leftScore := leftScore + 1;
        leftScoredLast := true;
      } else {
        return;
      }
      ResetFigures();
    }

    /** A ball at rest with no serve pending gets one scheduled; nothing else changes. */
    method CheckShouldServeBall()
      modifies this
      ensures servingBall == (old(servingBall) || ball.speedX == 0.0)
      ensures ball == old(ball) && leftPaddle == old(leftPaddle) && rightPaddle == old(rightPaddle)
      ensures GetScore() == old(GetScore())
      ensures leftPlayerName == old(leftPlayerName) && rightPlayerName == old(rightPlayerName)
      ensures Snapshot() == ServeCheck(old(Snapshot()))
    {
      if ball.speedX == 0.0 && !servingBall {
        servingBall := true;
      }
    }

    /**
     * One frame of `mainLoop`: move, collide, score, and check the serve.
     * The new figures, score and serve flag are `PlayFrame` of the old ones,
     * and the invariant is kept.
     */
    method Tick(m: Trig)
      requires Valid()
      modifies this, leftPaddle, rightPaddle, ball
      ensures Valid() && PaddlesInField()
      ensures Snapshot() == PlayFrame(old(Snapshot()), aiOpponent, m)
      ensures leftPlayerName == old(leftPlayerName) && rightPlayerName == old(rightPlayerName)
    {
      MoveFigures();
      HandleCollisions(m);
      HandlePlayerScored();
      CheckShouldServeBall();
    }
  }

  /**
   * A paddle hit or a miss keeps the total increment of a valid ball within
   * [1, MAX_BALL_SPEED_FACTOR].
   */
  lemma RampStaysInRange(b: BallState)
    requires 1.0 <= b.totalSpeedIncrement <= b.maxSpeedIncrement && b.speedIncrementRatio >= 1.0
    ensures var t := NextTotalIncrement(b.totalSpeedIncrement, b.speedIncrementRatio, b.maxSpeedIncrement);
      1.0 <= t <= b.maxSpeedIncrement
  {
  }
}

/**
 * The networked game (src/app/remoteGame.ts). Each peer runs its own copy of
 * the local game. Only the peer the ball is moving towards (the "owner",
 * flag `ballMovingToOurSide`) moves the ball, bounces it and scores; it hands
 * the ball over with a `[BOUNCE] ` message when the ball hits its paddle.
 * Every tick each peer also sends a state frame with its paddle, its view of
 * the ball and the score it gives the other side.
 *
 * The handlers are specified as functions on a `View`, the value of
 * everything they read or write; the `RemoteGame` class updates the objects
 * in place and its methods are proved to agree with those functions.
 */
module RemoteGames {
  import opened Options
  import opened Figures
  import opened Paddles
  import opened Balls
  import opened Games
  import opened Wire

  datatype Side = Left | Right

  /** Everything a networked game's handlers read or write. */
  datatype View = View(
    left: Position, right: Position, ball: BallState, score: Score, servingBall: bool,
    leftName: string, rightName: string,
    ping: int, lastTimestamp: int,
    owner: bool, connectionReady: bool, connected: bool,
    outbox: seq<string>)

  /* ---------- The side-dependent accessors ---------- */

  function OurScore(side: Side, s: Score): int { if side == Left then s.left else s.right }
  function OpponentScore(side: Side, s: Score): int { if side == Left then s.right else s.left }

  /** The `score` setter: our counter only. */
  function WithOurScore(side: Side, s: Score, value: int): (r: Score)
    ensures OurScore(side, r) == value && OpponentScore(side, r) == OpponentScore(side, s)
    ensures r.leftScoredLast == s.leftScoredLast
  {
    if side == Left then s.(left := value) else s.(right := value)
  }

  /** The `opponentScore` setter: the other counter only. */
  function WithOpponentScore(side: Side, s: Score, value: int): (r: Score)
    ensures OpponentScore(side, r) == value && OurScore(side, r) == OurScore(side, s)
    ensures r.leftScoredLast == s.leftScoredLast
  {
    if side == Left then s.(right := value) else s.(left := value)
  }

  /** Our counter and the opponent's are the two counters of the game, one each. */
  lemma ScoresPartition(side: Side, s: Score)
    ensures {OurScore(side, s), OpponentScore(side, s)} == {s.left, s.right}
    ensures OurScore(side, s) + OpponentScore(side, s) == s.left + s.right
  {
  }

  function OurPaddle(side: Side, v: View): Position { if side == Left then v.left else v.right }
  function OpponentPaddle(side: Side, v: View): Position { if side == Left then v.right else v.left }

  function WithOurPaddle(side: Side, v: View, p: Position): (r: View)
    ensures OurPaddle(side, r) == p && OpponentPaddle(side, r) == OpponentPaddle(side, v)
    ensures r == v.(left := r.left, right := r.right)
  {
    if side == Left then v.(left := p) else v.(right := p)
  }

  function WithOpponentPaddle(side: Side, v: View, p: Position): (r: View)
    ensures OpponentPaddle(side, r) == p && OurPaddle(side, r) == OurPaddle(side, v)
    ensures r == v.(left := r.left, right := r.right)
  {
    if side == Left then v.(right := p) else v.(left := p)
  }

  function PlayerName(side: Side, v: View): string { if side == Left then v.leftName else v.rightName }
  function OpponentName(side: Side, v: View): string { if side == Left then v.rightName else v.leftName }

  /** The `opponentName` setter. */
  function WithOpponentName(side: Side, v: View, name: string): (r: View)
    ensures OpponentName(side, r) == name && PlayerName(side, r) == PlayerName(side, v)
    ensures r == v.(leftName := r.leftName, rightName := r.rightName)
  {
    if side == Left then v.(rightName := name) else v.(leftName := name)
  }

  /** The ball's speed ramp as the game sets it, with the total increment in range. */
  predicate RampOk(b: BallState) {
    && b.speedIncrementRatio == BALL_SPEED_RATE && b.maxSpeedIncrement == MAX_BALL_SPEED_FACTOR
    && 1.0 <= b.totalSpeedIncrement <= MAX_BALL_SPEED_FACTOR
  }

  /** `resetFigures`: both paddles and the ball back at their reset positions. */
  function ResetFigures(v: View): (r: View)
    ensures r == v.(left := r.left, right := r.right, ball := r.ball)
    ensures r.ball == ResetBallState() && RampOk(r.ball)
    ensures r.left.x == LEFT_PADDLE_X && r.right.x == RIGHT_PADDLE_X
  {
    v.(left := RESET_LEFT, right := RESET_RIGHT, ball := ResetBallState())
  }

  /**
   * A freshly built networked game: figures at reset, no points, no serve
   * pending, nothing connected or sent; `owner` says whether this peer
   * starts with the ball.
   */
  function InitialView(owner: bool, leftName: string, rightName: string): (r: View)
    ensures r == ResetFigures(r) && RampOk(r.ball)
    ensures r.owner == owner && !r.connected && !r.connectionReady && r.outbox == []
  {
    View(RESET_LEFT, RESET_RIGHT,
         ResetBallState(), Score(0, 0, false), false, leftName, rightName, 0, 0, owner, false, false, [])
  }

  /* ---------- Receiving a message ---------- */

  /**
   * The score check of a state frame: a score for us that differs from ours
   * means we scored, so ours takes that value, we become the last scorer and
   * the figures are reset.
   */
  function ReconcileScore(side: Side, v: View, score: int): (r: View)
    ensures OurScore(side, r.score) == score
    ensures OpponentScore(side, r.score) == OpponentScore(side, v.score)
    ensures score != OurScore(side, v.score) ==> r.score.leftScoredLast == (side == Left) && r == ResetFigures(v).(score := r.score)
    ensures score == OurScore(side, v.score) ==> r == v
  {
    if score != OurScore(side, v.score)
    then ResetFigures(v).(score := WithOurScore(side, v.score, score).(leftScoredLast := side == Left))
    else v
  }

  /**
   * A state frame from the opponent. A score for us that differs from ours
   * means we scored: ours takes the frame's value, we are marked as the last
   * scorer and the figures are reset. In every case the opponent's paddle
   * takes the frame's height, the ping is the time since the previous frame,
   * and a ball we do not own takes the frame's position.
   */
  function ReceiveState(side: Side, v: View, s: PeerState): (r: View)
    ensures OurScore(side, r.score) == s.score
    ensures OpponentScore(side, r.score) == OpponentScore(side, v.score)
    ensures s.score != OurScore(side, v.score) ==> r.score.leftScoredLast == (side == Left)
    ensures s.score == OurScore(side, v.score) ==> r.score == v.score
    ensures OpponentPaddle(side, r).y == s.opponentPaddleY
    ensures r.ping == s.timestamp - v.lastTimestamp && r.lastTimestamp == s.timestamp
    ensures !v.owner ==> r.ball.x == s.ballX && r.ball.y == s.ballY
    ensures v.owner && s.score == OurScore(side, v.score) ==> r.ball == v.ball
    ensures s.score != OurScore(side, v.score) ==> OurPaddle(side, r) == OurPaddle(side, ResetFigures(v))
    ensures s.score != OurScore(side, v.score) ==>
      r.ball == if v.owner then ResetBallState() else ResetBallState().(x := s.ballX, y := s.ballY)
    ensures s.score == OurScore(side, v.score) ==> OurPaddle(side, r) == OurPaddle(side, v)
    ensures r == v.(left := r.left, right := r.right, ball := r.ball, score := r.score,
                    ping := r.ping, lastTimestamp := r.lastTimestamp)
    ensures RampOk(v.ball) ==> RampOk(r.ball)
  {
    FollowBall(PlaceOpponent(side, ReconcileScore(side, v, s.score), s), s)
  }

  /** The opponent's paddle takes the frame's height; the ping is the time since the previous frame. */
  function PlaceOpponent(side: Side, v: View, s: PeerState): View {
    WithOpponentPaddle(side, v, OpponentPaddle(side, v).(y := s.opponentPaddleY))
      .(ping := s.timestamp - v.lastTimestamp, lastTimestamp := s.timestamp)
  }

  /** A ball moving away from us is placed where the opponent says it is. */
  function FollowBall(v: View, s: PeerState): View {
    if v.owner then v else v.(ball := v.ball.(x := s.ballX, y := s.ballY))
  }

  /**
   * `onConnectionMessage` on a decoded message. A handshake names the
   * opponent; a bounce makes us the owner of the ball and places it exactly
   * as the message says (a bounce whose payload does not parse still makes
   * us the owner); a malformed message changes nothing. No message is sent.
   */
  function Receive(side: Side, v: View, f: Frame): (r: View)
    ensures f.Malformed? ==> r == v
    ensures f.Handshake? ==> OpponentName(side, r) == f.name && r == v.(leftName := r.leftName, rightName := r.rightName)
    ensures f.Bounce? ==> r.owner && BallPosition(r.ball) == f.ball && r == v.(owner := r.owner, ball := r.ball)
    ensures f.Bounce? ==> r.ball == v.ball.(x := r.ball.x, y := r.ball.y, speedX := r.ball.speedX, speedY := r.ball.speedY)
    ensures f.BadBounce? ==> r == v.(owner := true)
    ensures r.owner == (v.owner || f.Bounce? || f.BadBounce?)
    ensures r.outbox == v.outbox && r.connected == v.connected
    ensures RampOk(v.ball) ==> RampOk(r.ball)
  {
    match f
    case Handshake(name) => WithOpponentName(side, v, name)
    case Bounce(p) => v.(owner := true, ball := v.ball.(x := p.x, y := p.y, speedX := p.speedX, speedY := p.speedY))
    case BadBounce => v.(owner := true)
    case State(s) => ReceiveState(side, v, s)
    case Malformed => v
  }

  /* ---------- One tick ---------- */

  /** `moveFigures`: our paddle makes its clamped move; the ball moves only on its owner's side. */
  function MoveOwn(side: Side, v: View): (r: View)
    ensures OurPaddle(side, r).y == ClampY(OurPaddle(side, v).y + OurPaddle(side, v).speedY, PADDLE_HEIGHT)
    ensures OurPaddle(side, r).x == OurPaddle(side, v).x + OurPaddle(side, v).speedX
    ensures OpponentPaddle(side, r) == OpponentPaddle(side, v)
    ensures !v.owner ==> r.ball == v.ball
    ensures v.owner ==> r.ball == v.ball.(x := v.ball.x + v.ball.speedX, y := v.ball.y + v.ball.speedY)
    ensures r == v.(left := r.left, right := r.right, ball := r.ball)
    ensures RampOk(v.ball) ==> RampOk(r.ball)
  {
    var p := OurPaddle(side, v);
    var v1 := if v.owner then v.(ball := v.ball.(x := v.ball.x + v.ball.speedX, y := v.ball.y + v.ball.speedY)) else v;
    WithOurPaddle(side, v1, MovePaddle(p))
  }

  /** After the wall bounce, the ball overlaps our paddle. */
  predicate HitsOurPaddle(side: Side, v: View) {
    Overlaps(WallBounce(v.ball).Bounds(), PaddleRect(OurPaddle(side, v)))
  }

  /**
   * `handleCollisions`: only the owner bounces the ball, off the floor or
   * ceiling first and then off its own paddle. A paddle hit, and nothing
   * else, gives up ownership and sends the ball's new position and speed to
   * the opponent in a `[BOUNCE] ` message.
   */
  function Collide(side: Side, v: View, m: Trig, j: Json): (r: View)
    requires v.ball.totalSpeedIncrement != 0.0
    ensures !v.owner ==> r == v
    ensures r.owner == (v.owner && !HitsOurPaddle(side, v))
    ensures v.owner && !HitsOurPaddle(side, v) ==> r.ball == WallBounce(v.ball)
    ensures v.owner && HitsOurPaddle(side, v) ==>
      r.ball == Deflect(WallBounce(v.ball), PaddleRect(OurPaddle(side, v)), m)
    ensures r.outbox == v.outbox + if v.owner && !r.owner && v.connected
      then [Encode(Bounce(BallPosition(r.ball)), j)] else []
    ensures r == v.(ball := r.ball, owner := r.owner, outbox := r.outbox)
    ensures RampOk(v.ball) ==> RampOk(r.ball)
  {
    if !v.owner then v
    else
      var bounced := WallBounce(v.ball);
      var p := PaddleRect(OurPaddle(side, v));
      if !Overlaps(bounced.Bounds(), p) then v.(ball := bounced)
      else
        var hit := Deflect(bounced, p, m);
        v.(ball := hit, owner := false,
           outbox := v.outbox + if v.connected then [Encode(Bounce(BallPosition(hit)), j)] else [])
  }

  /**
   * `handlePlayerScored`: only the owner scores. A ball past either side
   * edge is a point for the opponent, who becomes the last scorer, and the
   * figures are reset.
   */
  function ScoreOwn(side: Side, v: View): (r: View)
    ensures !v.owner || ExitOf(v.ball) == InField ==> r == v
    ensures v.owner && ExitOf(v.ball) != InField ==>
      && OpponentScore(side, r.score) == OpponentScore(side, v.score) + 1
      && OurScore(side, r.score) == OurScore(side, v.score)
      && r.score.leftScoredLast == (side != Left)
      && r == ResetFigures(v).(score := r.score)
    ensures RampOk(v.ball) ==> RampOk(r.ball)
  {
    if v.owner && ExitOf(v.ball) != InField then
      ResetFigures(v).(score := WithOpponentScore(side, v.score, OpponentScore(side, v.score) + 1)
                                  .(leftScoredLast := side != Left))
    else v
  }

  /** The opponent scored the last point. */
  predicate OpponentScoredLast(side: Side, s: Score) {
    s.leftScoredLast == (side != Left)
  }

  /** `checkShouldServeBall`: a serve is scheduled only for a ball at rest after the opponent scored. */
  function CheckServe(side: Side, v: View): (r: View)
    ensures r == v.(servingBall := r.servingBall)
    ensures r.servingBall == (v.servingBall || (v.ball.speedX == 0.0 && OpponentScoredLast(side, v.score)))
  {
    if v.ball.speedX == 0.0 && !v.servingBall && OpponentScoredLast(side, v.score) then v.(servingBall := true) else v
  }

  /** The inherited `serveBall`, with `r` the random draw. */
  function Serve(v: View, r: real): (w: View)
    requires 0.0 <= r < 1.0
    ensures w == v.(servingBall := false, ball := w.ball)
    ensures w.ball == v.ball.(speedX := ServeSpeedX(v.score.leftScoredLast), speedY := ServeSpeedY(r))
    ensures RampOk(v.ball) ==> RampOk(w.ball)
  {
    v.(servingBall := false, ball := v.ball.(speedX := ServeSpeedX(v.score.leftScoredLast), speedY := ServeSpeedY(r)))
  }

  /** The state frame `mainLoop` sends: our paddle, the ball, and the score we give the opponent. */
  function StateFrame(side: Side, v: View, now: int): PeerState {
    PeerState(OurPaddle(side, v).y, v.ball.x, v.ball.y, OpponentScore(side, v.score), now)
  }

  /** `onConnectionReady`: our name goes to the opponent, if connected, and the game may start. */
  function Ready(side: Side, v: View, j: Json): (r: View)
    ensures r == v.(connectionReady := true, outbox := r.outbox)
    ensures r.outbox == v.outbox + if v.connected then [Encode(Handshake(PlayerName(side, v)), j)] else []
  {
    v.(connectionReady := true,
       outbox := v.outbox + if v.connected then [Encode(Handshake(PlayerName(side, v)), j)] else [])
  }

  /**
   * One `mainLoop` frame. Without a connection nothing happens; otherwise
   * the state frame is sent first, then the figures move, collide and
   * score, and the serve is checked.
   */
  function MainLoopStep(side: Side, v: View, now: int, m: Trig, j: Json): (r: View)
    requires v.ball.totalSpeedIncrement != 0.0
    ensures !v.connected ==> r == v
    ensures v.connected ==> |r.outbox| >= |v.outbox| + 1 && r.outbox[..|v.outbox| + 1] == v.outbox + [Encode(State(StateFrame(side, v, now)), j)]
    ensures r.connected == v.connected && r.connectionReady == v.connectionReady
    ensures RampOk(v.ball) ==> RampOk(r.ball)
  {
    if !v.connected then v
    else
      var sent := v.(outbox := v.outbox + [Encode(State(StateFrame(side, v, now)), j)]);
      var moved := MoveOwn(side, sent);
      var collided := Collide(side, moved, m, j);
      assert collided.outbox[..|v.outbox| + 1] == sent.outbox;
      CheckServe(side, ScoreOwn(side, collided))
  }

  /* ---------- The game object ---------- */

  /**
   * `Remote2PlayerGame`: the local game it extends, the side it plays, and
   * the connection state. `connected` stands for a `connection` being set
   * and `outbox` for what `connection.send` has sent, in order.
   */
  class RemoteGame {
    const game: LocalGame
    const side: Side
    const gameId: string
    var ping: int
    var lastTimestamp: int
    var ballMovingToOurSide: bool
    var connectionReady: bool
    var connected: bool
    var outbox: seq<string>

    predicate Valid()
      reads this, game, game.leftPaddle, game.rightPaddle, game.ball
    {
      game.Valid()
    }

    function Snapshot(): View
      reads this, game, game.leftPaddle, game.rightPaddle, game.ball
    {
      View(game.leftPaddle.Extract(), game.rightPaddle.Extract(), game.ball.State(), game.GetScore(),
           game.servingBall, game.leftPlayerName, game.rightPlayerName,
           ping, lastTimestamp, ballMovingToOurSide, connectionReady, connected, outbox)
    }

    /** The paddle this peer plays. */
    function OurPaddleObject(): Paddle
      reads this, game
    {
      if side == Left then game.leftPaddle else game.rightPaddle
    }

    function OpponentPaddleObject(): Paddle
      reads this, game
    {
      if side == Left then game.rightPaddle else game.leftPaddle
    }

    /**
     * The host plays the left paddle and starts as the owner of the ball;
     * nothing is connected or sent yet.
     */
    constructor Host(gameId: string, leftPlayerName: string, rightPlayerName: string)
      ensures Valid() && game.FiguresAtReset() && fresh(game)
      ensures side == Left && Snapshot() == InitialView(true, leftPlayerName, rightPlayerName)
    {
      var g := new LocalGame(leftPlayerName, false);
      g.rightPlayerName := rightPlayerName;
      game := g;
      side := Left;
      this.gameId := gameId;
      ping := 0;
      lastTimestamp := 0;
      connectionReady := false;
      connected := false;
      outbox := [];
      ballMovingToOurSide := true;
    }

    /** The client plays the right paddle and waits for the ball. */
    constructor Client(gameId: string, rightPlayerName: string, leftPlayerName: string)
      ensures Valid() && game.FiguresAtReset() && fresh(game)
      ensures side == Right && Snapshot() == InitialView(false, leftPlayerName, rightPlayerName)
    {
      var g := new LocalGame(leftPlayerName, false);
      g.rightPlayerName := rightPlayerName;
      game := g;
      side := Right;
      this.gameId := gameId;
      ping := 0;
      lastTimestamp := 0;
      connectionReady := false;
      connected := false;
      outbox := [];
      ballMovingToOurSide := false;
    }

    /** The PeerJS connection is set (the host's `connection` event, the client's `connect`). */
    method OnConnection()
      modifies this
      ensures Snapshot() == old(Snapshot()).(connected := true)
    {
      connected := true;
    }

    method OnConnectionReady(j: Json)
      modifies this
      ensures Snapshot() == Ready(side, old(Snapshot()), j)
    {
      var message := HANDSHAKE_PREFIX + (if side == Left then game.leftPlayerName else game.rightPlayerName);
      if connected {
        outbox := outbox + [message];
      }
      connectionReady := true;
    }

    /** `onConnectionMessage`, on the message text; `j` is the platform's JSON. */
    method OnConnectionMessage(message: string, j: Json)
      requires Valid()
      modifies this, game, game.leftPaddle, game.rightPaddle, game.ball
      ensures Valid()
      ensures Snapshot() == Receive(side, old(Snapshot()), Decode(message, j))
    {
      if StartsWith(message, HANDSHAKE_PREFIX) {
        if side == Left {
          game.rightPlayerName := message[|HANDSHAKE_PREFIX|..];
        } else {
          game.leftPlayerName := message[|HANDSHAKE_PREFIX|..];
        }
        return;
      }
      if StartsWith(message, BOUNCE_PREFIX) {
        ballMovingToOurSide := true;
        var ballState := j.parseBall(message[|BOUNCE_PREFIX|..]);
        if ballState.None? {
          return;
        }
        game.ball.Apply(ballState.value);
        return;
      }
      var peerState := j.parseState(message);
      if peerState.None? {
        return;
      }
      ApplyPeerState(peerState.value);
    }

    /** The state-frame branch of `onConnectionMessage`. */
    method ApplyPeerState(s: PeerState)
      requires Valid()
      modifies this, game, game.leftPaddle, game.rightPaddle, game.ball
      ensures Valid()
      ensures Snapshot() == ReceiveState(side, old(Snapshot()), s)
    {
      ReconcileScoreWith(s.score);
      PlaceOpponentWith(s);
      FollowBallWith(s);
    }

    /** The opponent's paddle height and the ping from a state frame. */
    method PlaceOpponentWith(s: PeerState)
      requires Valid()
      modifies this, OpponentPaddleObject()
      ensures Valid()
      ensures Snapshot() == PlaceOpponent(side, old(Snapshot()), s)
    {
      SetOpponentPaddleY(s.opponentPaddleY);
      ping := s.timestamp - lastTimestamp;
      lastTimestamp := s.timestamp;
    }

    /** The ball's position from a state frame, unless we own the ball. */
    method FollowBallWith(s: PeerState)
      requires Valid()
      modifies game.ball
      ensures Valid()
      ensures Snapshot() == FollowBall(old(Snapshot()), s)
    {
      if !ballMovingToOurSide {
        game.ball.x := s.ballX;
        game.ball.y := s.ballY;
      }
    }

    /** `this.opponentPaddle.y = y`: the other paddle's height, and nothing else. */
    method SetOpponentPaddleY(y: real)
      requires Valid()
      modifies OpponentPaddleObject()
      ensures Valid()
      ensures Snapshot() == WithOpponentPaddle(side, old(Snapshot()), OpponentPaddle(side, old(Snapshot())).(y := y))
    {
      var opponentPaddle := OpponentPaddleObject();
      opponentPaddle.y := y;
    }

    /** `moveFigures`: the ball moves only on its owner's side; our paddle always moves. */
    method MoveFigures()
      requires Valid()
      modifies game.leftPaddle, game.rightPaddle, game.ball
      ensures Valid()
      ensures Snapshot() == MoveOwn(side, old(Snapshot()))
    {
      if ballMovingToOurSide {
        game.ball.Move();
      }
      OurPaddleObject().Move();
    }

    /**
     * `handleCollisions`: the owner bounces the ball off the floor or
     * ceiling and then off its own paddle; a paddle hit hands the ball over.
     */
    method HandleCollisions(m: Trig, j: Json)
      requires Valid()
      modifies this, game.ball
      ensures Valid()
      ensures Snapshot() == Collide(side, old(Snapshot()), m, j)
    {
      if ballMovingToOurSide {
        ghost var before := game.ball.State();
        game.ball.HandleBounceOnFloorOrCeiling();
        RampStaysInRange(before);
        var bounced := game.ball.HandleBounceOnPaddle(OurPaddleObject(), m);
        ballMovingToOurSide := !bounced;
        if !ballMovingToOurSide && connected {
          outbox := outbox + [BOUNCE_PREFIX + j.stringifyBall(game.ball.Extract())];
        }
      }
    }

    /** `handlePlayerScored`: the owner gives the opponent a point for a ball past either side edge. */
    method HandlePlayerScored()
      requires Valid()
      modifies game
      ensures Valid()
      ensures Snapshot() == ScoreOwn(side, old(Snapshot()))
    {
      if ballMovingToOurSide {
        if game.ball.x <= 0.0 || game.ball.x + game.ball.width >= 1.0 {
          if side == Left {
            game.rightScore := game.rightScore + 1;
          } else {
            game.leftScore := game.leftScore + 1;
          }
          game.leftScoredLast := side != Left;
          game.ResetFigures();
        }
      }
    }

    method CheckShouldServeBall()
      requires Valid()
      modifies game
      ensures Valid()
      ensures Snapshot() == CheckServe(side, old(Snapshot()))
    {
      var opponentScoredLast := game.leftScoredLast == (side != Left);
      if game.ball.speedX == 0.0 && !game.servingBall && opponentScoredLast {
        game.servingBall := true;
      }
    }

    /** The delayed serve, inherited from the local game; `r` is the random draw. */
    method ServeBall(r: real)
      requires Valid() && 0.0 <= r < 1.0
      modifies game, game.ball
      ensures Valid()
      ensures Snapshot() == Serve(old(Snapshot()), r)
    {
      game.ServeBall(r);
    }

    /**
     * One frame of `mainLoop` at time `now`: without a connection nothing
     * happens; otherwise the state frame goes out first, then the tick runs.
     */
    method MainLoop(now: int, m: Trig, j: Json)
      requires Valid()
      modifies this, game, game.leftPaddle, game.rightPaddle, game.ball
      ensures Valid()
      ensures Snapshot() == MainLoopStep(side, old(Snapshot()), now, m, j)
    {
      if !connected {
        return;
      }
      var opponentScore := if side == Left then game.rightScore else game.leftScore;
      var gameState := PeerState(OurPaddleObject().y, game.ball.x, game.ball.y, opponentScore, now);
      outbox := outbox + [j.stringifyState(gameState)];
      MoveFigures();
      HandleCollisions(m, j);
      HandlePlayerScored();
      CheckShouldServeBall();
    }

    /** The score check at the head of the state-frame branch. */
    method ReconcileScoreWith(score: int)
      requires Valid()
      modifies game, game.leftPaddle, game.rightPaddle, game.ball
      ensures Valid()
      ensures Snapshot() == ReconcileScore(side, old(Snapshot()), score)
      ensures game.ball == old(game.ball) || fresh(game.ball)
      ensures game.leftPaddle == old(game.leftPaddle) || fresh(game.leftPaddle)
      ensures game.rightPaddle == old(game.rightPaddle) || fresh(game.rightPaddle)
    {
      var ourScore := if side == Left then game.leftScore else game.rightScore;
      if score != ourScore {
        game.leftScoredLast := side == Left;
        if side == Left {
          game.leftScore := score;
        } else {
          game.rightScore := score;
        }
        game.ResetFigures();
      }
    }
  }
}

/**
 * The older networked game (src/remoteGame.ts), which syncs the whole game
 * rather than handing the ball over. The host runs the match and, once the
 * connection is ready, sends its entire state after every move; the client
 * runs no physics and copies each state it receives. The client's key
 * presses reach the host as paddle speeds.
 *
 * Both classes extend a two-player local game in the source; here each holds
 * one (`game`). `outbox` stands for what `sendConnectionMessage` has sent, in
 * order.
 */
module LegacyRemote {
  import opened Options
  import opened Figures
  import opened Paddles
  import opened Balls
  import opened Games
  import opened Wire

  /** The whole game as the host sends it. */
  datatype GameState = GameState(
    leftPaddle: Position, rightPaddle: Position, ball: Position,
    leftScore: int, rightScore: int, leftScoredLast: bool)

  /** `JSON.parse` and `JSON.stringify` on game states. */
  datatype StateJson = StateJson(parse: string -> Option<GameState>, stringify: GameState -> string)

  /** State `g` survives `JSON.stringify` then `JSON.parse`, and its text is a JSON object, starting with `{`. */
  predicate StateRoundTrips(g: GameState, j: StateJson) {
    && j.parse(j.stringify(g)) == Some(g)
    && |j.stringify(g)| > 0 && j.stringify(g)[0] == '{'
  }

  /** The part of a game that a state message carries. */
  function Capture(t: Table): GameState {
    GameState(t.left, t.right, BallPosition(t.ball), t.score.left, t.score.right, t.score.leftScoredLast)
  }

  /** What the client's message handler changes: the game state it mirrors and the host's name. */
  datatype Mirror = Mirror(state: GameState, leftName: string)

  /**
   * The client's `onConnectionMessage`. A handshake gives the host's name;
   * any other message is read as a game state, which replaces the mirrored
   * one whole; a message that does not parse changes nothing.
   */
  function ClientReceive(v: Mirror, message: string, j: StateJson): (r: Mirror)
    ensures StartsWith(message, HANDSHAKE_PREFIX) ==> r.state == v.state && HANDSHAKE_PREFIX + r.leftName == message
    ensures !StartsWith(message, HANDSHAKE_PREFIX) ==> r.leftName == v.leftName
    ensures !StartsWith(message, HANDSHAKE_PREFIX) && j.parse(message).None? ==> r == v
    ensures !StartsWith(message, HANDSHAKE_PREFIX) && j.parse(message).Some? ==> r.state == j.parse(message).value
  {
    if StartsWith(message, HANDSHAKE_PREFIX) then v.(leftName := message[|HANDSHAKE_PREFIX|..])
    else
      match j.parse(message)
      case Some(g) => v.(state := g)
      case None => v
  }

  /**
   * A state the host sends, if it survives the JSON round trip, is mirrored
   * exactly by the client, whatever the client showed before.
   */
  lemma ClientMirrorsHost(v: Mirror, g: GameState, j: StateJson)
    requires StateRoundTrips(g, j)
    ensures ClientReceive(v, j.stringify(g), j) == v.(state := g)
  {
    var message := j.stringify(g);
    assert message[0] == '{' && HANDSHAKE_PREFIX[0] == '[';
    assert !StartsWith(message, HANDSHAKE_PREFIX) by {
      assert |message| < |HANDSHAKE_PREFIX| || message[..|HANDSHAKE_PREFIX|][0] == '{';
    }
  }

  /** The host's handshake names the host at the client, and changes nothing else. */
  lemma ClientLearnsHostName(v: Mirror, name: string, j: StateJson)
    ensures ClientReceive(v, HANDSHAKE_PREFIX + name, j) == v.(leftName := name)
  {
    PrefixOfConcat(HANDSHAKE_PREFIX, name);
  }

  /** `Remote2PlayerGameHost`. */
  class LegacyHost {
    const game: LocalGame
    const gameId: string
    var connectionReady: bool
    var outbox: seq<string>

    predicate Valid()
      reads this, game, game.leftPaddle, game.rightPaddle, game.ball
    {
      game.Valid() && !game.aiOpponent
    }

    /**
     * A new two-player game named after `token`, the random part of the
     * game ID; nothing is sent yet.
     */
    constructor (token: string, leftPlayerName: string, rightPlayerName: string)
      ensures Valid() && game.FiguresAtReset() && fresh(game)
      ensures game.GetScore() == Score(0, 0, false)
      ensures game.leftPlayerName == leftPlayerName && game.rightPlayerName == rightPlayerName
      ensures gameId == "vscode-pong-" + token + "-AAAA"
      ensures !connectionReady && outbox == []
    {
      var g := new LocalGame(leftPlayerName, false);
      g.rightPlayerName := rightPlayerName;
      game := g;
      gameId := "vscode-pong-" + token + "-AAAA";
      connectionReady := false;
      outbox := [];
    }

    /** `onConnectionReady`: the game may start and the host's name goes to the client. */
    method OnConnectionReady()
      modifies this
      ensures connectionReady
      ensures outbox == old(outbox) + [HANDSHAKE_PREFIX + game.leftPlayerName]
    {
      connectionReady := true;
      outbox := outbox + [HANDSHAKE_PREFIX + game.leftPlayerName];
    }

    /**
     * `onConnectionMessage` on a message that `parseFloat` reads as the
     * number `speed`: the client's paddle takes it as its vertical speed.
     */
    method OnConnectionMessage(speed: real)
      requires Valid()
      modifies game.rightPaddle
      ensures Valid()
      ensures game.rightPaddle.speedY == speed
      ensures game.rightPaddle.Bounds() == old(game.rightPaddle.Bounds())
      ensures game.rightPaddle.speedX == old(game.rightPaddle.speedX)
    {
      game.rightPaddle.speedY := speed;
    }

    /**
     * `moveFigures`: the local move, then, once the connection is ready, the
     * whole new state goes to the client.
     */
    method MoveFigures(j: StateJson)
      requires Valid()
      modifies this, game.leftPaddle, game.rightPaddle, game.ball
      ensures Valid() && game.PaddlesInField()
      ensures game.leftPaddle.y == ClampY(old(game.leftPaddle.y) + old(game.leftPaddle.speedY), PADDLE_HEIGHT)
      ensures game.rightPaddle.y == ClampY(old(game.rightPaddle.y) + old(game.rightPaddle.speedY), PADDLE_HEIGHT)
      ensures game.ball.Extract() == old(game.ball.Extract()).(x := old(game.ball.x + game.ball.speedX), y := old(game.ball.y + game.ball.speedY))
      ensures game.Snapshot() == MoveAll(old(game.Snapshot()), false)
      ensures connectionReady == old(connectionReady)
      ensures outbox == old(outbox) + if connectionReady then [j.stringify(Capture(game.Snapshot()))] else []
    {
      game.MoveFigures();
      if connectionReady {
        outbox := outbox + [j.stringify(Capture(game.Snapshot()))];
      }
    }

    /**
     * One frame of the host's main loop: move and broadcast, collide, score,
     * check the serve. The game advances by `PlayFrame` without the computer
     * opponent, and once the connection is ready the client is sent the
     * state as it stood right after the move.
     */
    method Tick(m: Trig, j: StateJson)
      requires Valid()
      modifies this, game, game.leftPaddle, game.rightPaddle, game.ball
      ensures Valid() && game.PaddlesInField()
      ensures game.Snapshot() == PlayFrame(old(game.Snapshot()), false, m)
      ensures connectionReady == old(connectionReady)
      ensures outbox == old(outbox) +
        if connectionReady then [j.stringify(Capture(MoveAll(old(game.Snapshot()), false)))] else []
    {
      MoveFigures(j);
      game.HandleCollisions(m);
      game.HandlePlayerScored();
      game.CheckShouldServeBall();
    }
  }

  /** `Remote2PlayerGameClient`. */
  class LegacyClient {
    const game: LocalGame
    const gameId: string
    var connectionReady: bool
    var outbox: seq<string>

    /** Distinct paddles, so that a state message sets each one. */
    predicate Valid()
      reads this, game
    {
      game.leftPaddle != game.rightPaddle
    }

    function Mirrored(): Mirror
      reads this, game, game.leftPaddle, game.rightPaddle, game.ball
    {
      Mirror(Capture(game.Snapshot()), game.leftPlayerName)
    }

    constructor (gameId: string, leftPlayerName: string, rightPlayerName: string)
      ensures Valid() && game.FiguresAtReset() && fresh(game)
      ensures game.GetScore() == Score(0, 0, false)
      ensures game.leftPlayerName == leftPlayerName && game.rightPlayerName == rightPlayerName
      ensures this.gameId == gameId && !connectionReady && outbox == []
    {
      var g := new LocalGame(leftPlayerName, false);
      g.rightPlayerName := rightPlayerName;
      game := g;
      this.gameId := gameId;
      connectionReady := false;
      outbox := [];
    }

    /** `onConnectionReady`: the client's name goes to the host. */
    method OnConnectionReady()
      modifies this
      ensures connectionReady
      ensures outbox == old(outbox) + [HANDSHAKE_PREFIX + game.rightPlayerName]
    {
      connectionReady := true;
      outbox := outbox + [HANDSHAKE_PREFIX + game.rightPlayerName];
    }

    /**
     * `onConnectionMessage`: the mirrored state and host name change as
     * `ClientReceive` says; sizes, the client's own name and the serve flag
     * are untouched.
     */
    method OnConnectionMessage(message: string, j: StateJson)
      requires Valid()
      modifies game, game.leftPaddle, game.rightPaddle, game.ball
      ensures Valid()
      ensures Mirrored() == ClientReceive(old(Mirrored()), message, j)
      ensures game.leftPaddle == old(game.leftPaddle) && game.rightPaddle == old(game.rightPaddle) && game.ball == old(game.ball)
      ensures game.leftPaddle.width == old(game.leftPaddle.width) && game.leftPaddle.height == old(game.leftPaddle.height)
      ensures game.rightPaddle.width == old(game.rightPaddle.width) && game.rightPaddle.height == old(game.rightPaddle.height)
      ensures game.ball.width == old(game.ball.width) && game.ball.height == old(game.ball.height)
      ensures game.rightPlayerName == old(game.rightPlayerName) && game.servingBall == old(game.servingBall)
    {
      if StartsWith(message, HANDSHAKE_PREFIX) {
        game.leftPlayerName := message[|HANDSHAKE_PREFIX|..];
        return;
      }
      var parsed := j.parse(message);
      if parsed.None? {
        return;
      }
      var g := parsed.value;
      game.leftPaddle.Apply(g.leftPaddle);
      game.rightPaddle.Apply(g.rightPaddle);
      game.ball.Apply(g.ball);
      game.leftScore := g.leftScore;
      game.rightScore := g.rightScore;
      game.leftScoredLast := g.leftScoredLast;
    }

    /**
     * One frame of the client's main loop: moving, colliding and scoring do
     * nothing here, so only the serve check can change anything, and only
     * the serve flag.
     */
    method Tick()
      modifies game
      ensures Mirrored() == old(Mirrored())
      ensures game.servingBall == (old(game.servingBall) || game.ball.speedX == 0.0)
      ensures game.rightPlayerName == old(game.rightPlayerName)
    {
      game.CheckShouldServeBall();
    }
  }
}

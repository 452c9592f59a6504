# vscode-pong game logic in Dafny

This project models the game-state logic of vscode-pong, a Pong game that
runs in a VS Code webview. Positions are in canvas-relative units in
[0, 1]. It covers four parts:

- **Figures and physics.** The rectangle intersection test and the move of
  the base figure. The app's paddle, which clamps its move to the field. The
  app's ball, which bounces off the floor and ceiling and off paddles,
  speeding up on each paddle hit by a compounding ratio capped at a maximum.
  The older ball and paddle, whose bounces only reverse one speed component.
- **The local match.** Reset positions, scoring when the ball leaves the
  field, the serve flag and direction, the paddle a ball can hit, the
  computer opponent's rule, and the frame-rate scaling of step sizes.
- **The networked game.**
  - Each peer runs its own copy of the match. Only the peer the ball moves
    towards (the owner) moves, bounces and scores it.
  - The owner hands the ball over with a `[BOUNCE] ` message when it hits
    its own paddle.
  - Every frame each peer sends a state frame with its paddle, the ball and
    the score it gives the opponent.
  - A theorem over all runs of two peers with in-order delivery says that
    the ball is one token: it is held by one peer or travels in one bounce
    message. The two peers therefore never own the ball at the same time.
  - Also modelled: the choice of the closest STUN server, and the older
    host/client game that sends the whole state.
- **The draw-command buffer.** The conversion from relative to pixel
  coordinates, the queue of draw and text commands, and `flush`, which runs
  the queue in order and empties it.

How the model is built:

- Numbers are `real`; scores and timestamps are `int`.
- `Math.PI`, `Math.cos`, `Math.sin` and `Math.sqrt` are the fields of a
  `Trig` value. The facts the proofs need about them are hypotheses
  (`SqrtLaw`, `PythagoreanLaw`, `CosineLaw`).
- `JSON.parse` and `JSON.stringify` are the fields of a `Json` (or
  `StateJson`) value. What the proofs need of them is a hypothesis about
  the values actually sent, never about all values:
  - `RoundTrips` and `StateRoundTrips`: the one frame or state being sent
    reads back as itself;
  - `StatesAreObjects`: every state text is a JSON object, so it starts
    with `{` and never with a message prefix. `SomeJsonStatesAreObjects`
    shows that a `Json` with this property exists.
- Objects the source updates in place are classes, and their methods are
  proved against pure functions on values:
  - `BallState` and `WallBounce`/`Deflect` for the ball;
  - `Score`/`Scored` for the match;
  - `View` and the handler functions for a networked peer.
- Inheritance becomes composition, since Dafny has no class inheritance.
  The app's `Paddle` and `Ball` repeat the base figure's fields. The
  networked games hold a `LocalGame` as `game`. The older ball and paddle
  are base `Figure` objects built by their own constructors.
- What a peer sends over its connection is the sequence `outbox`.

Modules, one file each:

| file | module | source |
|---|---|---|
| figure.dfy | `Figures` | src/figure.ts |
| paddle.dfy | `Paddles` | src/app/paddle.ts |
| ball.dfy | `Balls` | src/app/ball.ts |
| game.dfy | `Games` | src/app/game.ts |
| wire.dfy | `Wire` | message formats of src/app/remoteGame.ts |
| remote_game.dfy | `RemoteGames` | src/app/remoteGame.ts |
| ownership.dfy | `Ownership` | two peers of src/app/remoteGame.ts |
| stun.dfy | `Stun` | STUN selection in src/app/remoteGame.ts |
| legacy_figures.dfy | `LegacyFigures` | src/ball.ts, src/paddle.ts |
| legacy_remote.dfy | `LegacyRemote` | src/remoteGame.ts |
| graphic_engine.dfy | `Graphics` | src/app/graphicEngine.ts |
| options.dfy | `Options` | the optional value used throughout |

## Model

| member | source | states |
|---|---|---|
| Figures.Figure.constructor | src/figure.ts:11-18 | the six arguments are stored exactly as given |
| Figures.OverlapsSymmetric | src/figure.ts:20-25 | `a` intersects `b` exactly when `b` intersects `a` |
| Figures.TouchingDoNotOverlap | src/figure.ts:21-24 | rectangles that only share an edge do not intersect, because all four comparisons are strict |
| Figures.OverlapsItself | src/figure.ts:20-25 | a rectangle of positive width and height intersects itself |
| Figures.OverlapsIffCommonInteriorPoint | src/figure.ts:20-25 | for positive sizes, the test holds exactly when some point lies strictly inside both rectangles |
| Figures.Figure.Move | src/figure.ts:32-35 | the position advances by the velocity; size and velocity are unchanged |
| Paddles.ClampY | src/app/paddle.ts:18 | the result lies in [0, 1 - height]; a value already there is kept; a value above the field gives 0 and one below gives 1 - height |
| Paddles.ClampYIdempotent | src/app/paddle.ts:18 | clamping twice is clamping once |
| Paddles.Paddle.constructor | src/app/paddle.ts:6-8 | y is yCenter - height/2, the horizontal speed is 0 and the vertical speed is `speed` |
| Paddles.Paddle.Move | src/app/paddle.ts:15-19 | y becomes the clamp of y + speedY, so the paddle stays in the field; x is unchanged while speedX is 0; a resting paddle in the field does not move |
| Paddles.Paddle.Apply | src/remoteGame.ts:18-23 | after applying a position, the paddle's position and velocity are that position, and its size is kept |
| Balls.Ball.constructor | src/app/ball.ts:14-34 | the corner is half a size above and left of the centre; width and height are the size; the total increment starts at 1 |
| Balls.WallBounce | src/app/ball.ts:42-47 | a ball touching the floor or ceiling has its vertical speed reversed and is put back inside [0, 1 - height]; any other ball is unchanged |
| Balls.Ball.HandleBounceOnFloorOrCeiling | src/app/ball.ts:42-47 | the ball's new state is `WallBounce` of its old state |
| Balls.NextTotalIncrement | src/app/ball.ts:65 | the new total never exceeds the maximum; it is either the maximum or the old total times the ratio; it does not decrease while the ratio is at least 1 and the old total is at most the maximum |
| Balls.SpeedIncrement | src/app/ball.ts:65-66 | the one-hit increment times the old total is the new total |
| Balls.Deflect | src/app/ball.ts:53-71 | a hit changes only the speeds and the total increment; the new total is the increment times the old one and stays at or below the maximum |
| Balls.BounceAngleCentreIsStraight | src/app/ball.ts:62 | a ball centred on the paddle's mid-height bounces at angle 0 |
| Balls.BounceAngleIncreasing | src/app/ball.ts:62 | the angle is strictly increasing in the collision point |
| Balls.BounceAngleRange | src/app/ball.ts:54-62 | a collision point in [0, 1] gives an angle in [-pi/4, pi/4] |
| Balls.BounceAngleWithinHalfPi | src/app/ball.ts:62 | a collision point in (-0.5, 1.5) gives an angle strictly between -pi/2 and pi/2 |
| Balls.CollisionPointOfOverlap | src/app/ball.ts:50-54 | for a ball overlapping the paddle, the collision point lies strictly between -h/(2H) and 1 + h/(2H), where h is the ball's height and H the paddle's |
| Balls.TotalAfterClosedForm | src/app/ball.ts:65-67 | after n paddle hits from a fresh ball, the total increment is min(ratio^n, max) |
| Balls.RampStep | src/app/ball.ts:65 | one capped step from min(p, max) gives min(p * ratio, max) |
| Balls.PowAtLeastOne | src/app/ball.ts:65-67 | with a ratio of at least 1, ratio^n is at least 1, so the uncapped total never falls below its start |
| Balls.DeflectReversesDirection | src/app/ball.ts:56-70 | a hit reverses the horizontal direction of a moving ball |
| Balls.DeflectScalesSpeed | src/app/ball.ts:69-71 | a hit multiplies the speed by the one-hit increment |
| Balls.Sign | src/app/ball.ts:70 | `Math.sign`: 0 for 0, otherwise ±1 with the sign of its argument |
| Balls.Ball.Move | src/figure.ts:32-35 | the inherited move: the position advances by the velocity and nothing else changes |
| Balls.Ball.Apply | src/app/remoteGame.ts:30-39 | position and velocity take the given values; size and speed ramp are kept |
| Balls.Ball.HandleBounceOnPaddle | src/app/ball.ts:49-74 | returns true exactly when the ball intersects the paddle; the ball is then `Deflect`ed, and otherwise unchanged |
| Games.EffectiveStepSize | src/app/game.ts:13-18 | a step is scaled by 60/GAME_FPS, which is one half; the sign is kept and the size shrinks |
| Games.EffectiveStepSizeOdd | src/app/game.ts:16-18 | scaling commutes with negation |
| Games.ExitOf | src/app/game.ts:120-130 | a ball at or past the left edge exits left; otherwise a ball at or past the right edge exits right; otherwise it is in the field |
| Games.Scored | src/app/game.ts:120-132 | a ball in the field changes no score; a left exit adds one to the right score and clears `leftScoredLast`; a right exit adds one to the left score and sets it; exactly one counter changes |
| Games.ScoredAllCountsExits | src/app/game.ts:120-132 | over any sequence of frames, the points added equal the number of exits, and no counter decreases |
| Games.ServeSpeedX | src/app/game.ts:76-80 | the ball goes right exactly when the left player scored last, at the scaled horizontal serve speed |
| Games.ServeSpeedY | src/app/game.ts:82 | for a draw in [0, 1), the vertical serve speed lies in [-s, s), where s is the scaled vertical serve speed |
| Games.AISpeed | src/app/game.ts:208-221 | the computer's paddle moves down when the ball's centre is below the paddle's centre, up when above, and rests when level, always at one scaled step |
| Games.AIApproachesBall | src/app/game.ts:208-221 | when the centres are at least a step apart, the move brings the paddle's centre closer to the ball's by one step |
| Games.ResetBallState | src/app/game.ts:70-74 | the reset ball is centred at (0.5, 0.5), at rest, with a fresh speed ramp |
| Games.NewPaddle | src/app/game.ts:85-93 | a reset paddle sits at its edge x, vertically centred, at rest, at the game's paddle size |
| Games.LocalGame.constructor | src/app/game.ts:34-43 | a new game has its figures at reset, no points, `leftScoredLast` false and no serve pending |
| Games.LocalGame.ResetBall | src/app/game.ts:70-74 | a new ball replaces the old one at the reset state; nothing else changes |
| Games.LocalGame.ResetLeftPaddle | src/app/game.ts:85-88 | a new left paddle at x = 0, vertically centred; nothing else changes |
| Games.LocalGame.ResetRightPaddle | src/app/game.ts:90-93 | a new right paddle at x = 1 - PADDLE_WIDTH, vertically centred; nothing else changes |
| Games.LocalGame.ResetFigures | src/app/game.ts:95-99 | all three figures at reset; scores, serve flag and names unchanged |
| Games.LocalGame.ServeBall | src/app/game.ts:76-83 | the serve flag is cleared and the ball takes the serve speeds; nothing else changes |
| Games.LocalGame.MakeAIMove | src/app/game.ts:208-221 | the right paddle's vertical speed becomes `AISpeed` of the two centres; its position and size are unchanged |
| Games.MovePaddle | src/app/paddle.ts:15-19 | a paddle of the game's size ends inside the field, moved by its speed when that keeps it inside; its speeds are kept |
| Games.PlayFrame | src/app/game.ts:162-174 | one frame of the match ends with both paddles inside the field and the ball inside it vertically; it adds at most one point and lowers no counter; a point puts every figure back at reset and leaves a serve pending; a pending serve stays pending |
| Games.HitReversesBall | src/app/game.ts:108-118 | a moving ball of the game's size that overlaps the paddle on its side of travel leaves the collision going the other way horizontally |
| Games.LocalGame.MoveFigures | src/app/game.ts:102-106 | both paddles make their clamped moves (after the computer's choice when it plays) and the ball moves freely; the new figures are `MoveAll` of the old; the paddles stay in the field |
| Games.LocalGame.HandleCollisions | src/app/game.ts:108-118 | the ball is checked against the left paddle only while moving left and against the right paddle otherwise, then the wall bounce always applies; the new state is `CollideAll` of the old; the ball ends inside the field vertically |
| Games.LocalGame.HandlePlayerScored | src/app/game.ts:120-132 | the score becomes `Scored` of the old score and the ball's exit; the figures are reset exactly on an exit; the new state is `ScoreAll` of the old |
| Games.LocalGame.CheckShouldServeBall | src/app/game.ts:155-160 | the serve flag is set when the ball is at rest and stays set once set; nothing else changes |
| Games.LocalGame.Tick | src/app/game.ts:162-174 | the new figures, score and serve flag are `PlayFrame` of the old ones, with the computer opponent when the game has one; the game stays valid and the names are kept |
| Games.RampStaysInRange | src/app/ball.ts:65-67 | a hit keeps the total increment of a valid ball within [1, max] |
| Wire.Decode | src/app/remoteGame.ts:109-128 | a message is a handshake exactly when it has the handshake prefix; otherwise a bounce when it has the bounce prefix (with or without a parsable payload); otherwise a state frame or malformed, as `JSON.parse` decides |
| Wire.DecodeEncode | src/app/remoteGame.ts:104-128 | a frame whose payload survives the JSON round trip (and whose state text is a JSON object) is decoded as the frame the peer meant |
| Wire.BounceIsRead | src/app/remoteGame.ts:115-119 | whatever JSON does, a sent bounce message is read as a bounce, with or without a usable payload |
| Wire.StateIsNotPrefixed | src/app/remoteGame.ts:109-128 | a state text that is a JSON object is read as a state frame or as malformed, never as a handshake or a bounce |
| RemoteGames.WithOurScore | src/app/remoteGame.ts:90-93 | the `score` setter changes our counter only |
| RemoteGames.WithOpponentScore | src/app/remoteGame.ts:99-102 | the `opponentScore` setter changes the opponent's counter only |
| RemoteGames.ScoresPartition | src/app/remoteGame.ts:86-97 | our counter and the opponent's are the two counters of the game |
| RemoteGames.WithOurPaddle | src/app/remoteGame.ts:72-74 | our paddle is the left one for the left side and the right one otherwise; setting it leaves the other |
| RemoteGames.WithOpponentPaddle | src/app/remoteGame.ts:75-77 | setting the opponent's paddle leaves ours |
| RemoteGames.WithOpponentName | src/app/remoteGame.ts:81-84 | the `opponentName` setter changes the opponent's name only |
| RemoteGames.ResetFigures | src/app/game.ts:95-99 | only the figures change, to their reset positions |
| RemoteGames.InitialView | src/app/remoteGame.ts:57-68 | a new networked game: figures at reset, no points, nothing connected or sent, and ownership as given |
| RemoteGames.ReconcileScore | src/app/remoteGame.ts:129-134 | a differing score for us means we scored: ours takes it, we become the last scorer and the figures reset; an equal score changes nothing |
| RemoteGames.ReceiveState | src/app/remoteGame.ts:129-141 | a state frame reconciles the score, places the opponent's paddle and sets the ping to the time since the last frame; a score for us that differs from ours resets our paddle and the ball (an owned ball to the reset ball, another to the reset ball at the frame's position); with the same score our paddle is kept and a ball we do not own takes the frame's ball |
| RemoteGames.Receive | src/app/remoteGame.ts:109-142 | a handshake names the opponent; a bounce makes us the owner and places the ball exactly; a malformed message changes nothing; we become owner exactly on a bounce; no message is sent |
| RemoteGames.MoveOwn | src/app/remoteGame.ts:175-180 | our paddle makes its clamped move, the opponent's does not move, and the ball moves only when we own it |
| RemoteGames.Collide | src/app/remoteGame.ts:158-173 | a non-owner changes nothing; the owner's ball bounces off the floor or ceiling and then, if it overlaps the owner's paddle, is deflected; the owner loses the ball exactly on that paddle hit, and only then sends one bounce message carrying the new position and speed |
| RemoteGames.ScoreOwn | src/app/remoteGame.ts:182-192 | only the owner scores: an exit adds exactly one to the opponent's counter, marks the opponent as last scorer and resets the figures |
| RemoteGames.CheckServe | src/app/remoteGame.ts:194-200 | the serve flag is set when the ball is at rest and the opponent scored last, and stays set once set; nothing else changes |
| RemoteGames.Serve | src/app/game.ts:76-83 | the serve flag is cleared and the ball takes the serve speeds |
| RemoteGames.Ready | src/app/remoteGame.ts:104-108 | our name is sent when connected, and the game becomes ready |
| RemoteGames.MainLoopStep | src/app/remoteGame.ts:207-217 | without a connection nothing happens; otherwise the state frame for this frame is the first message sent |
| RemoteGames.RemoteGame.Host | src/app/remoteGame.ts:221-226 | the host plays the left side and starts as the owner |
| RemoteGames.RemoteGame.Client | src/app/remoteGame.ts:282-286 | the client plays the right side and starts without the ball |
| RemoteGames.RemoteGame.OnConnection | src/app/remoteGame.ts:235-236 | the connection is set and nothing else changes |
| RemoteGames.RemoteGame.OnConnectionReady | src/app/remoteGame.ts:104-108 | the game's new state is `Ready` of the old |
| RemoteGames.RemoteGame.OnConnectionMessage | src/app/remoteGame.ts:109-142 | the game's new state is `Receive` of the old state and the decoded message |
| RemoteGames.RemoteGame.ApplyPeerState | src/app/remoteGame.ts:129-141 | the new state is `ReceiveState` of the old |
| RemoteGames.RemoteGame.ReconcileScoreWith | src/app/remoteGame.ts:129-134 | the new state is `ReconcileScore` of the old |
| RemoteGames.RemoteGame.PlaceOpponentWith | src/app/remoteGame.ts:135-137 | the new state is `PlaceOpponent` of the old |
| RemoteGames.RemoteGame.FollowBallWith | src/app/remoteGame.ts:139-141 | the new state is `FollowBall` of the old |
| RemoteGames.RemoteGame.SetOpponentPaddleY | src/app/remoteGame.ts:135 | only the opponent paddle's y changes |
| RemoteGames.RemoteGame.MoveFigures | src/app/remoteGame.ts:175-180 | the new state is `MoveOwn` of the old |
| RemoteGames.RemoteGame.HandleCollisions | src/app/remoteGame.ts:158-173 | the new state is `Collide` of the old |
| RemoteGames.RemoteGame.HandlePlayerScored | src/app/remoteGame.ts:182-192 | the new state is `ScoreOwn` of the old |
| RemoteGames.RemoteGame.CheckShouldServeBall | src/app/remoteGame.ts:194-200 | the new state is `CheckServe` of the old |
| RemoteGames.RemoteGame.ServeBall | src/app/game.ts:76-83 | the new state is `Serve` of the old |
| RemoteGames.RemoteGame.MainLoop | src/app/remoteGame.ts:207-217 | the new state is `MainLoopStep` of the old, and the game stays valid |
| Ownership.NonBounceFrames | src/app/remoteGame.ts:105-128 | when state texts are JSON objects, a handshake or a state frame never makes its receiver the owner |
| Ownership.BounceFrame | src/app/remoteGame.ts:115-119 | a sent bounce message always counts as a bounce at its receiver |
| Ownership.MainLoopHandsOver | src/app/remoteGame.ts:158-173 | one frame only appends to a peer's sent messages, and it sends a bounce message exactly when the peer gives up the ball |
| Ownership.DeliverMovesToken | src/app/remoteGame.ts:115-119 | a bounce message arrives only at a peer that does not own the ball |
| Ownership.StepKeepsInv | src/app/remoteGame.ts:104-217 | every handler, on either peer, keeps the ball a single token: owners plus bounce messages in flight equal one |
| Ownership.PeerUpdateKeepsInv | src/app/remoteGame.ts:158-173 | a peer that only appends to what it sent, and sends one bounce message for a ball it gives up, keeps the ball a single token |
| Ownership.ConnectKeepsInv | src/app/remoteGame.ts:235-236 | connecting keeps the ball a single token |
| Ownership.ReadyKeepsInv | src/app/remoteGame.ts:104-108 | the ready handler sends at most a handshake and keeps the ball a single token |
| Ownership.TickKeepsInv | src/app/remoteGame.ts:207-217 | a frame of either peer's main loop keeps the ball a single token |
| Ownership.DeliverKeepsInv | src/app/remoteGame.ts:109-142 | handling the oldest waiting message keeps the ball a single token: a bounce message leaves the queue exactly as its receiver becomes the owner |
| Ownership.ServeKeepsInv | src/app/game.ts:76-83 | the delayed serve keeps the ball a single token |
| Ownership.RunKeepsInv | src/app/remoteGame.ts:104-217 | the token invariant holds after any run of events |
| Ownership.SingleOwner | src/app/remoteGame.ts:158-173 | in every reachable state at most one peer owns the ball and at most one bounce message is in flight; with none in flight exactly one peer owns it |
| Stun.FoldClosest | src/app/remoteGame.ts:350 | the reduction ends at a candidate of smallest distance, with every earlier candidate strictly farther |
| Stun.Closest | src/app/remoteGame.ts:344-350 | an empty list has no choice; otherwise the chosen address is the first closest one |
| Stun.FirstClosestUnique | src/app/remoteGame.ts:350 | there is only one first-closest candidate |
| Stun.ClosestPicksFirstClosest | src/app/remoteGame.ts:350 | ties keep the earlier entry: the choice is the first candidate at the minimal distance |
| Stun.StunServer | src/app/remoteGame.ts:351-354 | the entry's URL is `stun:` followed by the address, with no credentials |
| Stun.IceConfig.constructor | src/app/remoteGame.ts:364-391 | the list starts as the six fallback servers, and the lookup is not finished |
| Stun.IceConfig.PreferClosest | src/app/remoteGame.ts:344-355 | the closest address goes in front, the earlier entries keep their order, and the lookup is finished; no candidates change nothing |
| Stun.IceConfig.LookupFailed | src/app/remoteGame.ts:359-362 | a failed lookup finishes with the list unchanged |
| LegacyFigures.NewBall | src/ball.ts:12-20 | the corner is half a size above and left of the centre; width and height are the size; speeds as given |
| LegacyFigures.NewPaddle | src/paddle.ts:6-8 | y is yCenter - height/2; x, width and height as given; speedX 0 and speedY `speed` |
| LegacyFigures.VerticalBounce | src/ball.ts:27-29 | only the vertical speed changes, to its negation |
| LegacyFigures.HorizontalBounce | src/ball.ts:31-33 | only the horizontal speed changes, to its negation |
| LegacyFigures.BouncesAreInvolutions | src/ball.ts:27-33 | bouncing twice the same way restores the ball; the two bounces commute and keep the speed |
| LegacyFigures.BounceOnFloorOrCeiling | src/ball.ts:27-29 | the ball's new state is `VerticalBounce` of the old, size kept |
| LegacyFigures.BounceOnPaddle | src/ball.ts:31-33 | the ball's new state is `HorizontalBounce` of the old, size kept |
| LegacyFigures.PaddleLeavesField | src/paddle.ts:4-8 | the old paddle's move is not clamped: a paddle at the top edge moving up ends above the field |
| LegacyRemote.ClientReceive | src/remoteGame.ts:127-147 | a handshake sets the host's name only; text that parses to a game state replaces the mirrored state whole; text that does not changes nothing |
| LegacyRemote.ClientMirrorsHost | src/remoteGame.ts:133-141 | a state that survives the JSON round trip, sent as a JSON object, is mirrored exactly by the client |
| LegacyRemote.ClientLearnsHostName | src/remoteGame.ts:128-131 | the host's handshake gives the client the host's name, and nothing else |
| LegacyRemote.LegacyHost.constructor | src/remoteGame.ts:38-47 | a new two-player game with the given names, and a game ID made of the random part between `vscode-pong-` and `-AAAA` |
| LegacyRemote.LegacyHost.OnConnectionReady | src/remoteGame.ts:49-54 | the connection becomes ready and the host's (left) name is sent |
| LegacyRemote.LegacyHost.OnConnectionMessage | src/remoteGame.ts:56-60 | the number the client sent becomes the right paddle's vertical speed; nothing else about that paddle changes |
| LegacyRemote.LegacyHost.MoveFigures | src/remoteGame.ts:81-95 | the local move (`MoveAll` without the computer), then the whole state is sent, only once the connection is ready |
| LegacyRemote.LegacyHost.Tick | src/app/game.ts:162-174 | the game advances by `PlayFrame` without the computer opponent; once the connection is ready exactly one message is appended, the text of the state right after the move |
| LegacyRemote.LegacyClient.constructor | src/remoteGame.ts:108-114 | a new game with the given names and ID; nothing sent yet |
| LegacyRemote.LegacyClient.OnConnectionReady | src/remoteGame.ts:120-125 | the connection becomes ready and the client's (right) name is sent |
| LegacyRemote.LegacyClient.OnConnectionMessage | src/remoteGame.ts:127-147 | the mirrored state and host name change as `ClientReceive` says; sizes, own name and serve flag are kept |
| LegacyRemote.LegacyClient.Tick | src/remoteGame.ts:182-192 | the client's moves, collisions and scoring do nothing, so a frame changes no position, speed or score |
| Graphics.GraphicEngine.constructor | src/app/graphicEngine.ts:13-15 | the canvas size is stored and the queue starts empty |
| Graphics.GraphicEngine.RelativeToAbsolute | src/app/graphicEngine.ts:34-41 | a given nonzero position scales by the canvas size, and a zero or missing one is 0; a given nonzero size scales, and a zero or missing one is the whole canvas |
| Graphics.RelativeToAbsoluteInvertible | src/app/graphicEngine.ts:34-39 | on a canvas of positive size, nonzero relative fields are recovered from the pixels |
| Graphics.FalsyFieldsDefault | src/app/graphicEngine.ts:34-39 | a zero or missing size is the same as a relative size of 1; a missing position is the same as a position of 0 |
| Graphics.GraphicEngine.MiddleLine | src/app/graphicEngine.ts:59-63 | the middle line runs at half the width from the top edge to the bottom edge, with dashes and gaps of 1% of the height |
| Graphics.GraphicEngine.FillRect | src/app/graphicEngine.ts:43-49 | one fill command is appended; earlier commands are kept and nothing runs |
| Graphics.GraphicEngine.ClearRect | src/app/graphicEngine.ts:51-57 | one clear command is appended; earlier commands are kept and nothing runs |
| Graphics.GraphicEngine.DrawMiddleLine | src/app/graphicEngine.ts:59-74 | the middle line is appended as one command |
| Graphics.GraphicEngine.Clear | src/app/graphicEngine.ts:76-79 | one clear of the whole canvas, from (0, 0) at full size, is appended |
| Graphics.GraphicEngine.SetLeftPlayerScore | src/app/graphicEngine.ts:81-87 | one command is appended |
| Graphics.GraphicEngine.SetRightPlayerScore | src/app/graphicEngine.ts:89-95 | one command is appended |
| Graphics.GraphicEngine.SetLeftPlayerName | src/app/graphicEngine.ts:97-103 | one command is appended |
| Graphics.GraphicEngine.SetRightPlayerName | src/app/graphicEngine.ts:105-111 | one command is appended |
| Graphics.GraphicEngine.PrintGameId | src/app/graphicEngine.ts:113-119 | one command is appended |
| Graphics.GraphicEngine.Flush | src/app/graphicEngine.ts:122-127 | every queued command runs, in the order queued, after those already run, and the queue is left empty |

## Left out

- **PeerJS and connection setup.** These are network plumbing and timer
  retries:
  - creating the `Peer` and `DataConnection` objects;
  - `setUpPeerListeners` and its 100 ms polling of `finishedGeoLoc`;
  - the lobby loops;
  - `onConnectionError`.

  A connection being set is the `connected` flag. Delivery between the
  peers is taken to be reliable and in order, so messages are never lost or
  reordered.
- **The geolocation `fetch` chain.** It is network I/O. The candidate
  addresses and their distances are inputs to `Stun.IceConfig.PreferClosest`.
  One consequence is out of reach: the nested callbacks do not return their
  promises, so the final `.catch` does not see a failure inside them.
  `finishedGeoLoc` would then stay false and the peers would never be
  created.
- **Scheduling.**
  - The recursion of `mainLoop` through `setTimeout` is left out. One frame
    is one call.
  - The one-second serve delay is left out. The serve is an event that may
    fire whenever a serve is pending.
  - Clearing and printing every `FRAME_PRINT_FREQUENCY` frames is left out.
- **`Math.random`.** The serve's random draw is the parameter `r` in [0, 1).
  The host's random game ID is the parameter `token`.
- **`Date.now()`.** The time is the parameter `now` of the main loop.
- **Trigonometry and floating point.** Numbers are exact reals. There is no
  IEEE rounding, no infinities and no NaN. `Math.cos`, `Math.sin`,
  `Math.sqrt` and `Math.PI` are uninterpreted.
- **`JSON.parse` and `JSON.stringify`.** They are function parameters. What
  the proofs need of them is stated as a hypothesis.
- **JSON of the wrong shape.** A parse function returns a value only for
  text that parses to a value of the right shape; anything else is `None`.
  The source accepts more than that, which is not modelled:
  - text such as `5` or `[BOUNCE] {}` parses, and the handlers then read
    `undefined` fields and compute NaN;
  - the older client (src/remoteGame.ts:135-141) may apply the paddles of
    an ill-shaped state before a later field access throws. The model
    changes nothing for such a message.
- **The older host's handshake.** `parseFloat` never throws, so that
  handshake branch in src/remoteGame.ts can never run. A handshake (or any
  non-numeric text) instead gives the right paddle a NaN speed, which reals
  cannot express. `LegacyRemote.LegacyHost.OnConnectionMessage` takes the
  number that was read.
- **The older client's key listeners.** They send paddle speeds as number
  text. The conversion of a number to and from text is a floating-point
  round trip that is not modelled.
- **Input and rendering glue.**
  - The keyboard listeners are left out. In src/app/remoteGame.ts they also
    call an `adaptStep` and set a `keyPressed` that the game does not
    define, and the lobby loops read a `loopsPerSecond` that it does not
    define.
  - The `print*` methods, `printPing`, `printTitle` and `printControls` are
    left out.
  - The commands' effects on the canvas and the page are left out. `Flush`
    records the commands it runs, in order, and nothing more.
- **Inheritance and overriding.**
  - The app's `Paddle` and `Ball` repeat the base figure's fields and its
    move.
  - The older ball and paddle are base figures built by their own
    constructors.
  - The networked games wrap a local game rather than extending it.
  - src/remoteGame.ts imports a `Local2PlayerGame` that its own src/game.ts
    does not define. It is modelled over the app's local game.
- **Other files.** src/graphicEngine.ts (whose `relativeToAbsolute`
  duplicates the app's), src/launcher.ts, src/extension.ts, src/app/app.ts,
  src/game.ts, webpack.config.js and bundle_index.js are not part of this
  model. They are extension wiring, drawing and build tooling.
- Balls.Ball.HandleBounceOnPaddle: requires a paddle of nonzero height and a
  nonzero total increment when the ball overlaps the paddle. The source
  divides by both, and a zero would give an IEEE infinity or NaN, which reals
  do not model.
- RemoteGames.Collide: requires a nonzero total increment, for the same
  reason. `RemoteGames.MainLoopStep` and `Ownership.Enabled` carry the same
  requirement, and every valid game meets it.

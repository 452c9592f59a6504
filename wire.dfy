/**
 * The text messages the two peers of a networked game exchange
 * (src/app/remoteGame.ts): a handshake carrying the sender's name, a
 * `[BOUNCE] ` message handing the ball over with its position and speed, and
 * a JSON state frame sent every tick.
 *
 * `JSON.parse` and `JSON.stringify` are given as the functions of a `Json`
 * value. What a proof needs of them is stated for the values it is about:
 * `RoundTrips` for one frame that is sent and read back, `StatesAreObjects`
 * for the first character of a stringified state.
 */
module Wire {
  import opened Options
  import opened Figures

  const HANDSHAKE_PREFIX: string := "[HANDSHAKE] "
  const BOUNCE_PREFIX: string := "[BOUNCE] "

  /** `PeerState`: the sender's paddle height, the ball's position, the sender's view of the receiver's score and the send time. */
  datatype PeerState = PeerState(opponentPaddleY: real, ballX: real, ballY: real, score: int, timestamp: int)

  /** A received message as the handler tells its cases apart. */
  datatype Frame =
    | Handshake(name: string)
    /** `[BOUNCE] ` with a payload that parses. */
    | Bounce(ball: Position)
    /** `[BOUNCE] ` with a payload that `JSON.parse` rejects. */
    | BadBounce
    | State(state: PeerState)
    /** Neither prefix, and text that `JSON.parse` rejects. */
    | Malformed

  datatype Json = Json(
    parseBall: string -> Option<Position>,
    parseState: string -> Option<PeerState>,
    stringifyBall: Position -> string,
    stringifyState: PeerState -> string)

  /**
   * A stringified state is a JSON object, so its text starts with `{`. (This
   * holds of `JSON.stringify` on any object; `SomeJsonStatesAreObjects`
   * shows the hypothesis can be met.)
   */
  ghost predicate StatesAreObjects(j: Json) {
    forall s: PeerState :: |j.stringifyState(s)| > 0 && j.stringifyState(s)[0] == '{'
  }

  /**
   * The payload of frame `f` survives `JSON.stringify` then `JSON.parse`,
   * and a state's text is an object.
   */
  predicate RoundTrips(f: Frame, j: Json) {
    match f
    case Bounce(p) => j.parseBall(j.stringifyBall(p)) == Some(p)
    case State(s) =>
      && j.parseState(j.stringifyState(s)) == Some(s)
      && |j.stringifyState(s)| > 0 && j.stringifyState(s)[0] == '{'
    case _ => true
  }

  predicate StartsWith(s: string, prefix: string) {
    |prefix| <= |s| && s[..|prefix|] == prefix
  }

  /**
   * How `onConnectionMessage` reads a message: the handshake prefix first,
   * then the bounce prefix, and otherwise a state frame.
   */
  function Decode(message: string, j: Json): (f: Frame)
    ensures f.Handshake? <==> StartsWith(message, HANDSHAKE_PREFIX)
    ensures f.Handshake? ==> HANDSHAKE_PREFIX + f.name == message
    ensures f.Bounce? || f.BadBounce? <==> !StartsWith(message, HANDSHAKE_PREFIX) && StartsWith(message, BOUNCE_PREFIX)
    ensures f.Bounce? ==> StartsWith(message, BOUNCE_PREFIX) && j.parseBall(message[|BOUNCE_PREFIX|..]) == Some(f.ball)
    ensures f.BadBounce? ==> StartsWith(message, BOUNCE_PREFIX) && j.parseBall(message[|BOUNCE_PREFIX|..]) == None
    ensures f.Malformed? ==> j.parseState(message) == None
    ensures f.State? ==> j.parseState(message) == Some(f.state)
  {
    if StartsWith(message, HANDSHAKE_PREFIX) then
      Handshake(message[|HANDSHAKE_PREFIX|..])
    else if StartsWith(message, BOUNCE_PREFIX) then
      match j.parseBall(message[|BOUNCE_PREFIX|..])
      case Some(p) => Bounce(p)
      case None => BadBounce
    else
      match j.parseState(message)
      case Some(s) => State(s)
      case None => Malformed
  }

  /** The frames a peer sends. */
  predicate Sendable(f: Frame) {
    f.Handshake? || f.Bounce? || f.State?
  }

  /** The text a peer sends for a frame. */
  function Encode(f: Frame, j: Json): (message: string)
    requires Sendable(f)
  {
    match f
    case Handshake(name) => HANDSHAKE_PREFIX + name
    case Bounce(p) => BOUNCE_PREFIX + j.stringifyBall(p)
    case State(s) => j.stringifyState(s)
  }

  lemma PrefixOfConcat(prefix: string, rest: string)
    ensures StartsWith(prefix + rest, prefix) && (prefix + rest)[|prefix|..] == rest
  {
    assert (prefix + rest)[..|prefix|] == prefix;
  }

  /** Every frame a peer sends, whose payload survives the JSON round trip, is read back as the same frame. */
  lemma DecodeEncode(f: Frame, j: Json)
    requires Sendable(f) && RoundTrips(f, j)
    ensures Decode(Encode(f, j), j) == f
  {
    match f
    case Handshake(name) =>
      PrefixOfConcat(HANDSHAKE_PREFIX, name);
    case Bounce(p) =>
      var message := BOUNCE_PREFIX + j.stringifyBall(p);
      PrefixOfConcat(BOUNCE_PREFIX, j.stringifyBall(p));
      assert message[1] == 'B';
    case State(s) =>
      var message := j.stringifyState(s);
      assert message[0] == '{';
  }

  /** A JSON whose stringified states are objects exists: the hypothesis is not vacuous. */
  lemma SomeJsonStatesAreObjects()
    ensures exists j: Json :: StatesAreObjects(j)
  {
    var j := Json(t => None, t => None, p => "{}", s => "{}");
    assert StatesAreObjects(j);
  }

  /** Without knowing anything of the JSON, a bounce message is read as a bounce, parsable or not. */
  lemma BounceIsRead(p: Position, j: Json)
    ensures var f := Decode(Encode(Bounce(p), j), j); f.Bounce? || f.BadBounce?
  {
    var message := BOUNCE_PREFIX + j.stringifyBall(p);
    PrefixOfConcat(BOUNCE_PREFIX, j.stringifyBall(p));
    assert message[1] == 'B';
  }

  /** A state whose text is an object is never read as a handshake or a bounce. */
  lemma StateIsNotPrefixed(s: PeerState, j: Json)
    requires |j.stringifyState(s)| > 0 && j.stringifyState(s)[0] == '{'
    ensures var f := Decode(Encode(State(s), j), j); f.State? || f.Malformed?
  {
    var message := j.stringifyState(s);
    assert message[0] == '{' && HANDSHAKE_PREFIX[0] == '[' && BOUNCE_PREFIX[0] == '[';
    assert !StartsWith(message, HANDSHAKE_PREFIX) by {
      assert |message| < |HANDSHAKE_PREFIX| || message[..|HANDSHAKE_PREFIX|][0] == '{';
    }
    assert !StartsWith(message, BOUNCE_PREFIX) by {
      assert |message| < |BOUNCE_PREFIX| || message[..|BOUNCE_PREFIX|][0] == '{';
    }
  }
}

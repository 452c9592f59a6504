/**
 * Ownership of the ball in a networked game (src/app/remoteGame.ts). The
 * host starts owning the ball; an owner that hits the ball with its paddle
 * gives up ownership and sends a `[BOUNCE] ` message, and the peer that
 * handles that message becomes the owner. Messages arrive in the order they
 * were sent. Seen as one system of two peers, the ball is a single token:
 * it is held by exactly one peer or travels in exactly one bounce message,
 * so the two peers never move the ball at the same time.
 */
module Ownership {
  import opened Options
  import opened Balls
  import opened Games
  import opened Wire
  import opened RemoteGames

  /**
   * The host (left side) and the client (right side), and for each how many
   * of the other's sent messages it has handled so far.
   */
  datatype System = System(host: View, client: View, hostRead: nat, clientRead: nat)

  /** Both peers just built: the host owns the ball, nothing is connected or sent. */
  function Initial(leftName: string, rightName: string): System {
    System(InitialView(true, leftName, rightName), InitialView(false, leftName, rightName), 0, 0)
  }

  /** What can happen to one peer: each is one of the `RemoteGame` handlers. */
  datatype Event =
    | Connect(side: Side)
    | MakeReady(side: Side)
    | Tick(side: Side, now: int)
    | Deliver(side: Side)
    | ServeBall(side: Side, r: real)

  function PeerOf(s: System, side: Side): View {
    if side == Left then s.host else s.client
  }

  function WithPeer(s: System, side: Side, v: View): (r: System)
    ensures PeerOf(r, side) == v
  {
    if side == Left then s.(host := v) else s.(client := v)
  }

  /** The messages sent to `side` that it has not handled yet, oldest first. */
  function Pending(s: System, side: Side): seq<string> {
    if side == Left then
      (if s.hostRead <= |s.client.outbox| then s.client.outbox[s.hostRead..] else [])
    else
      (if s.clientRead <= |s.host.outbox| then s.host.outbox[s.clientRead..] else [])
  }

  /**
   * When an event can happen: a message is handled only when one is
   * waiting, the delayed serve fires only when one was scheduled, and a tick
   * needs the ball's speed ramp to be running (always so in a valid game).
   */
  predicate Enabled(s: System, e: Event) {
    match e
    case Tick(side, _) => PeerOf(s, side).ball.totalSpeedIncrement != 0.0
    case Deliver(side) => |Pending(s, side)| > 0
    case ServeBall(side, r) => PeerOf(s, side).servingBall && 0.0 <= r < 1.0
    case _ => true
  }

  /** The system after one event, with `m` the platform's trigonometry and `j` its JSON. */
  function Step(s: System, e: Event, m: Trig, j: Json): System
    requires Enabled(s, e)
  {
    match e
    case Connect(side) => WithPeer(s, side, PeerOf(s, side).(connected := true))
    case MakeReady(side) => WithPeer(s, side, Ready(side, PeerOf(s, side), j))
    case Tick(side, now) => WithPeer(s, side, MainLoopStep(side, PeerOf(s, side), now, m, j))
    case Deliver(side) =>
      var v := Receive(side, PeerOf(s, side), Decode(Pending(s, side)[0], j));
      if side == Left then s.(host := v, hostRead := s.hostRead + 1)
      else s.(client := v, clientRead := s.clientRead + 1)
    case ServeBall(side, r) => WithPeer(s, side, Serve(PeerOf(s, side), r))
  }

  /** The system after a run of events, or `None` if some event was not enabled when its turn came. */
  function Run(s: System, es: seq<Event>, m: Trig, j: Json): Option<System>
    decreases |es|
  {
    if |es| == 0 then Some(s)
    else if !Enabled(s, es[0]) then None
    else Run(Step(s, es[0], m, j), es[1..], m, j)
  }

  /* ---------- Counting the ball ---------- */

  /** A message that makes its receiver the owner of the ball. */
  predicate IsBounce(message: string, j: Json) {
    Decode(message, j).Bounce? || Decode(message, j).BadBounce?
  }

  function Bounces(q: seq<string>, j: Json): nat {
    if |q| == 0 then 0 else (if IsBounce(q[0], j) then 1 else 0) + Bounces(q[1..], j)
  }

  function B(b: bool): nat { if b then 1 else 0 }

  /** Where the ball is: with either peer, or in a bounce message on its way. */
  function Tokens(s: System, j: Json): nat {
    B(s.host.owner) + B(s.client.owner) + Bounces(Pending(s, Left), j) + Bounces(Pending(s, Right), j)
  }

  predicate Inv(s: System, j: Json) {
    && s.hostRead <= |s.client.outbox| && s.clientRead <= |s.host.outbox|
    && RampOk(s.host.ball) && RampOk(s.client.ball)
    && Tokens(s, j) == 1
  }

  lemma {:induction false} BouncesAppend(a: seq<string>, b: seq<string>, j: Json)
    ensures Bounces(a + b, j) == Bounces(a, j) + Bounces(b, j)
    decreases |a|
  {
    if |a| == 0 {
      assert a + b == b;
    } else {
      assert (a + b)[1..] == a[1..] + b;
      BouncesAppend(a[1..], b, j);
    }
  }

  /** The messages a peer sends: what it had before, then the new ones; the unread part grows the same way. */
  lemma PendingAfterSend(outbox: seq<string>, read: nat, sent: seq<string>, j: Json)
    requires read <= |outbox|
    ensures (outbox + sent)[read..] == outbox[read..] + sent
    ensures Bounces((outbox + sent)[read..], j) == Bounces(outbox[read..], j) + Bounces(sent, j)
  {
    assert (outbox + sent)[read..] == outbox[read..] + sent;
    BouncesAppend(outbox[read..], sent, j);
  }

  /** A handshake, and a state frame whose text is an object, never hand over the ball. */
  lemma NonBounceFrames(name: string, st: PeerState, j: Json)
    requires StatesAreObjects(j)
    ensures !IsBounce(Encode(Handshake(name), j), j)
    ensures !IsBounce(Encode(State(st), j), j)
  {
    PrefixOfConcat(HANDSHAKE_PREFIX, name);
    StateIsNotPrefixed(st, j);
  }

  /** A bounce message hands over the ball whether or not its payload parses. */
  lemma BounceFrame(p: Figures.Position, j: Json)
    ensures IsBounce(Encode(Bounce(p), j), j)
  {
    BounceIsRead(p, j);
  }

  /**
   * One frame of the main loop: the peer sends one state frame and, exactly
   * when it gives up the ball, one bounce message.
   */
  lemma MainLoopHandsOver(side: Side, v: View, now: int, m: Trig, j: Json)
    requires StatesAreObjects(j) && v.ball.totalSpeedIncrement != 0.0
    ensures var r := MainLoopStep(side, v, now, m, j);
      && |v.outbox| <= |r.outbox|
      && r.outbox[..|v.outbox|] == v.outbox
      && Bounces(r.outbox[|v.outbox|..], j) == B(v.owner && !r.owner)
      && (r.owner ==> v.owner)
  {
    var r := MainLoopStep(side, v, now, m, j);
    if v.connected {
      var frame := Encode(State(StateFrame(side, v, now)), j);
      var sent := v.(outbox := v.outbox + [frame]);
      var moved := MoveOwn(side, sent);
      var collided := Collide(side, moved, m, j);
      var bounce := if moved.owner && !collided.owner && moved.connected
        then [Encode(Bounce(BallPosition(collided.ball)), j)] else [];
      assert collided.outbox == v.outbox + ([frame] + bounce);
      assert r.outbox == collided.outbox && r.owner == collided.owner;
      NonBounceFrames("", StateFrame(side, v, now), j);
      if bounce != [] {
        BounceFrame(BallPosition(collided.ball), j);
      }
      assert r.outbox[|v.outbox|..] == [frame] + bounce;
      BouncesAppend([frame], bounce, j);
    } else {
      assert r.outbox[|v.outbox|..] == [];
    }
  }

  /** Handling the next waiting message moves the ball from the message to its receiver, if it is a bounce. */
  lemma DeliverMovesToken(s: System, side: Side, j: Json)
    requires Inv(s, j) && |Pending(s, side)| > 0
    ensures var q := Pending(s, side);
      && Bounces(q, j) == B(IsBounce(q[0], j)) + Bounces(q[1..], j)
      && (IsBounce(q[0], j) ==> !PeerOf(s, side).owner)
  {
  }

  /** Connecting sends nothing and leaves ownership alone. */
  lemma ConnectKeepsInv(s: System, side: Side, m: Trig, j: Json)
    requires Inv(s, j)
    ensures Inv(Step(s, Connect(side), m, j), j)
  {
    var t := Step(s, Connect(side), m, j);
    assert Pending(t, Left) == Pending(s, Left) && Pending(t, Right) == Pending(s, Right);
  }

  /**
   * Replacing one peer's view keeps the invariant when the peer only appends
   * to what it sent, and any ball it gives up leaves in exactly one of the
   * appended messages.
   */
  lemma PeerUpdateKeepsInv(s: System, side: Side, w: View, j: Json)
    requires Inv(s, j) && RampOk(w.ball)
    requires |PeerOf(s, side).outbox| <= |w.outbox|
    requires w.outbox[..|PeerOf(s, side).outbox|] == PeerOf(s, side).outbox
    requires B(w.owner) + Bounces(w.outbox[|PeerOf(s, side).outbox|..], j) == B(PeerOf(s, side).owner)
    ensures Inv(WithPeer(s, side, w), j)
  {
    var v := PeerOf(s, side);
    var sent := w.outbox[|v.outbox|..];
    assert w.outbox == v.outbox + sent;
    if side == Left {
      HostUpdateKeepsInv(s, w, sent, j);
    } else {
      ClientUpdateKeepsInv(s, w, sent, j);
    }
  }

  lemma HostUpdateKeepsInv(s: System, w: View, sent: seq<string>, j: Json)
    requires Inv(s, j) && RampOk(w.ball)
    requires w.outbox == s.host.outbox + sent
    requires B(w.owner) + Bounces(sent, j) == B(s.host.owner)
    ensures Inv(s.(host := w), j)
  {
    var t := s.(host := w);
    PendingAfterSend(s.host.outbox, s.clientRead, sent, j);
    assert Pending(t, Right) == Pending(s, Right) + sent;
    assert Pending(t, Left) == Pending(s, Left);
    assert Bounces(Pending(t, Right), j) == Bounces(Pending(s, Right), j) + Bounces(sent, j);
  }

  lemma ClientUpdateKeepsInv(s: System, w: View, sent: seq<string>, j: Json)
    requires Inv(s, j) && RampOk(w.ball)
    requires w.outbox == s.client.outbox + sent
    requires B(w.owner) + Bounces(sent, j) == B(s.client.owner)
    ensures Inv(s.(client := w), j)
  {
    var t := s.(client := w);
    PendingAfterSend(s.client.outbox, s.hostRead, sent, j);
    assert Pending(t, Left) == Pending(s, Left) + sent;
    assert Pending(t, Right) == Pending(s, Right);
    assert Bounces(Pending(t, Left), j) == Bounces(Pending(s, Left), j) + Bounces(sent, j);
  }

  /** `onConnectionReady` sends at most a handshake, which carries no ball. */
  lemma ReadyKeepsInv(s: System, side: Side, m: Trig, j: Json)
    requires StatesAreObjects(j) && Inv(s, j)
    ensures Inv(Step(s, MakeReady(side), m, j), j)
  {
    var v := PeerOf(s, side);
    var w := Ready(side, v, j);
    NonBounceFrames(PlayerName(side, v), StateFrame(side, v, 0), j);
    assert w.outbox[|v.outbox|..] == if v.connected then [Encode(Handshake(PlayerName(side, v)), j)] else [];
    assert RampOk(w.ball) by { assert w.ball == v.ball; }
    PeerUpdateKeepsInv(s, side, w, j);
  }

  /** A frame of the main loop: a peer that gives up the ball sends exactly one bounce message. */
  lemma TickKeepsInv(s: System, side: Side, now: int, m: Trig, j: Json)
    requires StatesAreObjects(j) && Inv(s, j) && Enabled(s, Tick(side, now))
    ensures Inv(Step(s, Tick(side, now), m, j), j)
  {
    var v := PeerOf(s, side);
    var r := MainLoopStep(side, v, now, m, j);
    MainLoopHandsOver(side, v, now, m, j);
    assert RampOk(v.ball);
    PeerUpdateKeepsInv(s, side, r, j);
  }

  /** Handling a message: a bounce message leaves the queue and its receiver becomes the owner. */
  lemma DeliverKeepsInv(s: System, side: Side, m: Trig, j: Json)
    requires Inv(s, j) && Enabled(s, Deliver(side))
    ensures Inv(Step(s, Deliver(side), m, j), j)
  {
    var t := Step(s, Deliver(side), m, j);
    var q := Pending(s, side);
    DeliverMovesToken(s, side, j);
    if side == Left {
      assert Pending(t, Left) == q[1..];
      assert Pending(t, Right) == Pending(s, Right);
    } else {
      assert Pending(t, Right) == q[1..];
      assert Pending(t, Left) == Pending(s, Left);
    }
  }

  /** The delayed serve changes only the ball's speeds. */
  lemma ServeKeepsInv(s: System, side: Side, r: real, m: Trig, j: Json)
    requires Inv(s, j) && Enabled(s, ServeBall(side, r))
    ensures Inv(Step(s, ServeBall(side, r), m, j), j)
  {
    var t := Step(s, ServeBall(side, r), m, j);
    assert Pending(t, Left) == Pending(s, Left) && Pending(t, Right) == Pending(s, Right);
  }

  /** Every handler, on either peer, keeps the ball a single token. */
  lemma StepKeepsInv(s: System, e: Event, m: Trig, j: Json)
    requires StatesAreObjects(j) && Inv(s, j) && Enabled(s, e)
    ensures Inv(Step(s, e, m, j), j)
  {
    match e
    case Connect(side) => ConnectKeepsInv(s, side, m, j);
    case MakeReady(side) => ReadyKeepsInv(s, side, m, j);
    case Tick(side, now) => TickKeepsInv(s, side, now, m, j);
    case Deliver(side) => DeliverKeepsInv(s, side, m, j);
    case ServeBall(side, r) => ServeKeepsInv(s, side, r, m, j);
  }

  lemma {:induction false} RunKeepsInv(s: System, es: seq<Event>, m: Trig, j: Json)
    requires StatesAreObjects(j) && Inv(s, j)
    ensures Run(s, es, m, j).Some? ==> Inv(Run(s, es, m, j).value, j)
    decreases |es|
  {
    if |es| > 0 && Enabled(s, es[0]) {
      StepKeepsInv(s, es[0], m, j);
      RunKeepsInv(Step(s, es[0], m, j), es[1..], m, j);
    }
  }

  /**
   * In every reachable state at most one peer owns the ball, so the two
   * never move, bounce or score it at the same time; and whenever no bounce
   * message is on its way, exactly one of them owns it.
   */
  lemma SingleOwner(leftName: string, rightName: string, es: seq<Event>, m: Trig, j: Json)
    requires StatesAreObjects(j)
    ensures var t := Run(Initial(leftName, rightName), es, m, j);
      t.Some? ==>
        var u := t.value;
        var inFlight := Bounces(Pending(u, Left), j) + Bounces(Pending(u, Right), j);
        && !(u.host.owner && u.client.owner)
        && inFlight <= 1
        && (inFlight == 0 ==> u.host.owner != u.client.owner)
  {
    var s := Initial(leftName, rightName);
    assert Pending(s, Left) == [] && Pending(s, Right) == [];
    assert Inv(s, j);
    RunKeepsInv(s, es, m, j);
  }
}

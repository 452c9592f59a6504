/**
 * The webview's drawing layer (src/app/graphicEngine.ts). Figures live in
 * canvas-relative coordinates in [0, 1]; `RelativeToAbsolute` turns them into
 * pixels. Drawing and text updates are not done at once: each is queued as a
 * command in `buffer`, and `Flush` runs the queue in order and empties it.
 * The effects of the commands on the canvas and the page are recorded, in
 * the order they run, in `executed`.
 */
module Graphics {
  import opened Options

  /** `relativeToAbsolute`'s argument: each field may be missing. */
  datatype RelRect = RelRect(x: Option<real>, y: Option<real>, width: Option<real>, height: Option<real>)

  datatype AbsRect = AbsRect(x: real, y: real, width: real, height: real)

  /** JavaScript truthiness of an optional number: a missing field and 0 are both false. */
  predicate Truthy(v: Option<real>) {
    v.Some? && v.value != 0.0
  }

  /** The effect of a queued command, by kind and argument. */
  datatype Command =
    | FillRect(x: real, y: real, width: real, height: real)
    | ClearRect(x: real, y: real, width: real, height: real)
    | DashedLine(xFrom: real, yFrom: real, xTo: real, yTo: real, dashes: seq<real>)
    | ShowLeftScore(score: int)
    | ShowRightScore(score: int)
    | ShowLeftName(name: string)
    | ShowRightName(name: string)
    | ShowGameId(gameId: string)

  class GraphicEngine {
    /** The canvas size in pixels; never reassigned after construction. */
    const width: real
    const height: real
    var buffer: seq<Command>
    var executed: seq<Command>

    constructor (width: real, height: real)
      ensures this.width == width && this.height == height
      ensures buffer == [] && executed == []
    {
      this.width := width;
      this.height := height;
      buffer := [];
      executed := [];
    }

    /**
     * Canvas-relative to pixels. A position field scales by the canvas size
     * and a missing or zero one gives 0; a size field scales the same way
     * but a missing or zero one gives the whole canvas size.
     */
    function RelativeToAbsolute(r: RelRect): (a: AbsRect)
      ensures Truthy(r.x) ==> a.x == r.x.value * width
      ensures !Truthy(r.x) ==> a.x == 0.0
      ensures Truthy(r.y) ==> a.y == r.y.value * height
      ensures !Truthy(r.y) ==> a.y == 0.0
      ensures Truthy(r.width) ==> a.width == r.width.value * width
      ensures !Truthy(r.width) ==> a.width == width
      ensures Truthy(r.height) ==> a.height == r.height.value * height
      ensures !Truthy(r.height) ==> a.height == height
    {
      AbsRect(
        if Truthy(r.x) then r.x.value * width else 0.0,
        if Truthy(r.y) then r.y.value * height else 0.0,
        if Truthy(r.width) then r.width.value * width else width,
        if Truthy(r.height) then r.height.value * height else height)
    }

    /**
     * The dashed middle line: vertical at half the width, from the top edge
     * to the bottom edge, with dashes and gaps of 1% of the height.
     */
    function MiddleLine(): (c: Command)
      ensures c.DashedLine?
      ensures c.xFrom == c.xTo == width / 2.0
      ensures c.yFrom == 0.0 && c.yTo == height
      ensures c.dashes == [height / 100.0, height / 100.0]
    {
      var from := RelativeToAbsolute(RelRect(Some(0.5), Some(0.0), None, None));
      var to := RelativeToAbsolute(RelRect(Some(0.5), Some(1.0), None, None));
      var segment := RelativeToAbsolute(RelRect(None, None, None, Some(0.01))).height;
      DashedLine(from.x, from.y, to.x, to.y, [segment, segment])
    }

    method FillRect(x: real, y: real, width: real, height: real)
      modifies this
      ensures buffer == old(buffer) + [Command.FillRect(x, y, width, height)]
      ensures executed == old(executed)
    {
      buffer := buffer + [Command.FillRect(x, y, width, height)];
    }

    method ClearRect(x: real, y: real, width: real, height: real)
      modifies this
      ensures buffer == old(buffer) + [Command.ClearRect(x, y, width, height)]
      ensures executed == old(executed)
    {
      buffer := buffer + [Command.ClearRect(x, y, width, height)];
    }

    method DrawMiddleLine()
      modifies this
      ensures buffer == old(buffer) + [MiddleLine()]
      ensures executed == old(executed)
    {
      buffer := buffer + [MiddleLine()];
    }

    /** `clear`: a clear of the whole canvas is queued. */
    method Clear()
      modifies this
      ensures buffer == old(buffer) + [Command.ClearRect(0.0, 0.0, width, height)]
      ensures executed == old(executed)
    {
      ClearRect(0.0, 0.0, width, height);
    }

    method SetLeftPlayerScore(score: int)
      modifies this
      ensures buffer == old(buffer) + [ShowLeftScore(score)]
      ensures executed == old(executed)
    {
      buffer := buffer + [ShowLeftScore(score)];
    }

    method SetRightPlayerScore(score: int)
      modifies this
      ensures buffer == old(buffer) + [ShowRightScore(score)]
      ensures executed == old(executed)
    {
      buffer := buffer + [ShowRightScore(score)];
    }

    method SetLeftPlayerName(name: string)
      modifies this
      ensures buffer == old(buffer) + [ShowLeftName(name)]
      ensures executed == old(executed)
    {
      buffer := buffer + [ShowLeftName(name)];
    }

    method SetRightPlayerName(name: string)
      modifies this
      ensures buffer == old(buffer) + [ShowRightName(name)]
      ensures executed == old(executed)
    {
      buffer := buffer + [ShowRightName(name)];
    }

    method PrintGameId(gameId: string)
      modifies this
      ensures buffer == old(buffer) + [ShowGameId(gameId)]
      ensures executed == old(executed)
    {
      buffer := buffer + [ShowGameId(gameId)];
    }

    /** `flush`: every queued command runs, in the order queued, and the queue is emptied. */
    method Flush()
      modifies this
      ensures executed == old(executed) + old(buffer)
      ensures buffer == []
    {
      var i := 0;
      while i < |buffer|
        invariant 0 <= i <= |buffer|
        invariant buffer == old(buffer)
        invariant executed == old(executed) + buffer[..i]
      {
        executed := executed + [buffer[i]];
        i := i + 1;
      }
      buffer := [];
    }
  }

  /**
   * Converting back: for a canvas of positive size, every field that was
   * given and nonzero is recovered by dividing by the canvas size.
   */
  lemma RelativeToAbsoluteInvertible(e: GraphicEngine, r: RelRect)
    requires e.width > 0.0 && e.height > 0.0
    requires Truthy(r.x) && Truthy(r.y) && Truthy(r.width) && Truthy(r.height)
    ensures var a := e.RelativeToAbsolute(r);
      a.x / e.width == r.x.value && a.y / e.height == r.y.value
      && a.width / e.width == r.width.value && a.height / e.height == r.height.value
  {
  }

  /**
   * A zero or missing size covers the whole canvas, exactly like a relative
   * size of 1; a zero or missing position is the canvas origin, exactly
   * like a relative position of 0 would be.
   */
  lemma FalsyFieldsDefault(e: GraphicEngine, r: RelRect)
    requires !Truthy(r.width) && !Truthy(r.height)
    ensures e.RelativeToAbsolute(r).width == e.RelativeToAbsolute(r.(width := Some(1.0))).width
    ensures e.RelativeToAbsolute(r).height == e.RelativeToAbsolute(r.(height := Some(1.0))).height
    ensures e.RelativeToAbsolute(r.(x := None, y := None)) == e.RelativeToAbsolute(r.(x := Some(0.0), y := Some(0.0)))
  {
  }
}

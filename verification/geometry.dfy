/**
 * The arithmetic of the three interact listeners bound to every rack, palet
 * and door element of the floor plan. The listeners keep an element's
 * position in its `data-x`/`data-y` attributes, its rotation in `data-angle`
 * and its size in the element's style; an attribute that is missing reads as 0.
 */
module Geometry {

  /** The size bounds of the restrictSize modifier configured for resizing. */
  const MIN_SIZE: real := 50.0
  const MAX_SIZE: real := 500.0

  /** The transform an element's attributes hold: translation and rotation in degrees. */
  datatype Transform = Transform(x: real, y: real, angle: real)

  /** One resize move as the resize listener receives it: the new rectangle size and how far its top-left corner moved. */
  datatype ResizeEvent = ResizeEvent(width: real, height: real, deltaLeft: real, deltaTop: real)

  /** The drag listener: the pointer delta is added to the position. */
  function DragMove(t: Transform, dx: real, dy: real): (r: Transform)
    ensures r.angle == t.angle
    ensures r.x - t.x == dx && r.y - t.y == dy
  {
    Transform(t.x + dx, t.y + dy, t.angle)
  }

  /** The resize listener's position update: the corner shift is added to the position. */
  function ResizeMove(t: Transform, ev: ResizeEvent): (r: Transform)
    ensures r.angle == t.angle
    ensures r.x - t.x == ev.deltaLeft && r.y - t.y == ev.deltaTop
  {
    Transform(t.x + ev.deltaLeft, t.y + ev.deltaTop, t.angle)
  }

  /** The gesture listener: the rotation delta is added to the angle, with no reduction modulo 360. */
  function GestureMove(t: Transform, da: real): (r: Transform)
    ensures r.x == t.x && r.y == t.y
    ensures r.angle - t.angle == da
  {
    Transform(t.x, t.y, t.angle + da)
  }

  /** The restrictSize modifier applied to one proposed dimension before the listener sees it. */
  function RestrictSize(v: real): (r: real)
    ensures MIN_SIZE <= r <= MAX_SIZE
    ensures MIN_SIZE <= v <= MAX_SIZE ==> r == v
    ensures v < MIN_SIZE ==> r == MIN_SIZE
    ensures v > MAX_SIZE ==> r == MAX_SIZE
  {
    if v < MIN_SIZE then MIN_SIZE else if v > MAX_SIZE then MAX_SIZE else v
  }

  /** Which edge of one axis the pointer drags: the left (top) one, the right (bottom) one, or neither. */
  datatype Side = Start | End | Neither

  /** The dragged edges of a resize, one per axis. */
  datatype Edges = Edges(horizontal: Side, vertical: Side)

  /**
   * What the modifier hands to the resize listener for a proposed rectangle.
   * It moves only the dragged edges: a side none of whose edges is dragged
   * keeps its proposed size, even outside 50 to 500 (a 40-pixel door resized
   * from its bottom edge stays 40 wide). A dragged side is clamped, and when
   * the dragged edge is the left (top) one its shift absorbs the clamp so
   * that the opposite edge stays where the proposal put it.
   */
  function RestrictEvent(raw: ResizeEvent, edges: Edges): (ev: ResizeEvent)
    ensures edges.horizontal != Neither ==> ev.width == RestrictSize(raw.width) && MIN_SIZE <= ev.width <= MAX_SIZE
    ensures edges.horizontal == Neither ==> ev.width == raw.width && ev.deltaLeft == raw.deltaLeft
    ensures edges.horizontal == Start ==> ev.deltaLeft + ev.width == raw.deltaLeft + raw.width
    ensures edges.horizontal == End ==> ev.deltaLeft == raw.deltaLeft
    ensures edges.vertical != Neither ==> ev.height == RestrictSize(raw.height) && MIN_SIZE <= ev.height <= MAX_SIZE
    ensures edges.vertical == Neither ==> ev.height == raw.height && ev.deltaTop == raw.deltaTop
    ensures edges.vertical == Start ==> ev.deltaTop + ev.height == raw.deltaTop + raw.height
    ensures edges.vertical == End ==> ev.deltaTop == raw.deltaTop
  {
    var width := if edges.horizontal == Neither then raw.width else RestrictSize(raw.width);
    var height := if edges.vertical == Neither then raw.height else RestrictSize(raw.height);
    ResizeEvent(
      width,
      height,
      if edges.horizontal == Start then raw.deltaLeft + (raw.width - width) else raw.deltaLeft,
      if edges.vertical == Start then raw.deltaTop + (raw.height - height) else raw.deltaTop)
  }

  /**
   * Pushing the left edge of an element already at the minimum width does not
   * slide it: the proposed 10-unit shrink is clamped away together with the shift.
   */
  lemma ClampedLeftEdgeStays(t: Transform, height: real)
    ensures ResizeMove(t, RestrictEvent(ResizeEvent(MIN_SIZE - 10.0, height, 10.0, 0.0), Edges(Start, Neither))) == t
  {
  }

  /**
   * A 40-by-40 door stretched from its bottom edge keeps its 40-pixel width and
   * its position: only the height is clamped, up to the minimum.
   */
  lemma DoorBottomResize(t: Transform, newHeight: real)
    requires newHeight < MIN_SIZE
    ensures RestrictEvent(ResizeEvent(40.0, newHeight, 0.0, 0.0), Edges(Neither, End)) == ResizeEvent(40.0, MIN_SIZE, 0.0, 0.0)
    ensures ResizeMove(t, RestrictEvent(ResizeEvent(40.0, newHeight, 0.0, 0.0), Edges(Neither, End))) == t
  {
  }

  /** One pointer delta of a drag. */
  datatype Delta = Delta(dx: real, dy: real)

  /** The transform after a sequence of drag moves, applied in the order received. */
  function Drags(t: Transform, moves: seq<Delta>): Transform
    decreases |moves|
  {
    if moves == [] then t else Drags(DragMove(t, moves[0].dx, moves[0].dy), moves[1..])
  }

  /** The transform after a sequence of gesture moves, applied in the order received. */
  function Gestures(t: Transform, das: seq<real>): Transform
    decreases |das|
  {
    if das == [] then t else Gestures(GestureMove(t, das[0]), das[1..])
  }

  function SumDx(moves: seq<Delta>): real {
    if moves == [] then 0.0 else moves[0].dx + SumDx(moves[1..])
  }

  function SumDy(moves: seq<Delta>): real {
    if moves == [] then 0.0 else moves[0].dy + SumDy(moves[1..])
  }

  function Sum(xs: seq<real>): real {
    if xs == [] then 0.0 else xs[0] + Sum(xs[1..])
  }

  /** A drag moves the element by the total of its deltas and never rotates it. */
  lemma {:induction false} DragsAccumulate(t: Transform, moves: seq<Delta>)
    ensures Drags(t, moves) == Transform(t.x + SumDx(moves), t.y + SumDy(moves), t.angle)
    decreases |moves|
  {
    if moves != [] {
      DragsAccumulate(DragMove(t, moves[0].dx, moves[0].dy), moves[1..]);
    }
  }

  /**
   * A rotation gesture leaves the position alone and adds up its deltas
   * exactly: the stored angle is the start angle plus the sum, with no wrap at 360.
   */
  lemma {:induction false} GesturesAccumulate(t: Transform, das: seq<real>)
    ensures Gestures(t, das) == Transform(t.x, t.y, t.angle + Sum(das))
    decreases |das|
  {
    if das != [] {
      GesturesAccumulate(GestureMove(t, das[0]), das[1..]);
    }
  }

  /**
   * A rendered rack, palet or door element as the listeners see it. The
   * listeners update its attributes in place. Where the attributes start
   * depends on the kind of element: a palet gets `data-x`/`data-y` from its
   * record, a rack always gets 0 and 0 whatever its record says, and a door
   * has no position attributes, which read as 0.
   */
  class Element {
    var x: real
    var y: real
    var angle: real
    var width: real
    var height: real

    function Current(): Transform
      reads this
    {
      Transform(x, y, angle)
    }

    /** An element as rendered: the starting `data-x`/`data-y` (see above), no `data-angle`, the element's CSS size. */
    constructor (x0: real, y0: real, w: real, h: real)
      ensures Current() == Transform(x0, y0, 0.0)
      ensures width == w && height == h
    {
      x, y, angle := x0, y0, 0.0;
      width, height := w, h;
    }

    /** The drag listener's `move`. */
    method OnDragMove(dx: real, dy: real)
      modifies this`x, this`y
      ensures Current() == DragMove(old(Current()), dx, dy)
    {
      x := x + dx;
      y := y + dy;
    }

    /**
     * The resize listener's `move`, fed the event the restrictSize modifier
     * makes of the proposed rectangle `raw` for the dragged `edges`.
     */
    method OnResizeMove(raw: ResizeEvent, edges: Edges)
      modifies this`x, this`y, this`width, this`height
      ensures width == RestrictEvent(raw, edges).width && height == RestrictEvent(raw, edges).height
      ensures edges.horizontal != Neither ==> MIN_SIZE <= width <= MAX_SIZE
      ensures edges.horizontal == Neither ==> width == raw.width
      ensures edges.vertical != Neither ==> MIN_SIZE <= height <= MAX_SIZE
      ensures edges.vertical == Neither ==> height == raw.height
      ensures Current() == ResizeMove(old(Current()), RestrictEvent(raw, edges))
    {
      var ev := RestrictEvent(raw, edges);
      width, height := ev.width, ev.height;
      x := x + ev.deltaLeft;
      y := y + ev.deltaTop;
    }

    /** The gesture listener's `move`. */
    method OnGestureMove(da: real)
      modifies this`angle
      ensures Current() == GestureMove(old(Current()), da)
    {
      angle := angle + da;
    }
  }
}

/**
 * The handler for circle elements: a move-to the rightmost point of the
 * circle, then four cubic Bézier curves through the top, leftmost, bottom and
 * rightmost points, each quarter's control points set off from its end points
 * along the circle's tangents by the standard four-arc offset.
 *
 * Coordinates are reals: Java's double rounding is not modelled, and
 * Math.sqrt(2) is the constant Sqrt2 below, the shortest decimal that rounds
 * to the double Math.sqrt(2) returns, read as an exact real (the double itself
 * is 1.41421356237309514547...).
 */
module CircleElementHandlers {
  import opened Outcomes
  import opened Content

  /** Math.sqrt(2): the shortest decimal that rounds to the double it returns. */
  const Sqrt2: real := 1.4142135623730951

  /** The factor (4 / 3)(sqrt 2 - 1) that turns the radius into the control-point offset. */
  const Kappa: real := (4.0 / 3.0) * (Sqrt2 - 1.0)

  lemma {:induction false} Sqrt2Close()
    ensures 1.41421356 < Sqrt2 < 1.41421357
    ensures -0.000000000000001 < Sqrt2 * Sqrt2 - 2.0 < 0.000000000000001
  {
  }

  /** The offset is a fixed multiple of the radius, more than half of it and less than all of it. */
  lemma {:induction false} KappaBounds()
    ensures 0.55 < Kappa < 0.56
  {
  }

  /** The distance from a curve's end point to its nearer control point. */
  function Offset(r: real): (d: real)
    ensures r > 0.0 ==> 0.0 < d < r
    ensures r == 0.0 ==> d == 0.0
  {
    KappaBounds();
    Kappa * r
  }

  datatype Point = Point(x: real, y: real)

  /** Where a move-to or a curve leaves the current point. */
  function EndPoint(op: Operator): Point
    requires op.MoveTo? || op.CurveTo?
  {
    if op.MoveTo? then Point(op.x, op.y) else Point(op.x3, op.y3)
  }

  function FirstControl(op: Operator): Point
    requires op.CurveTo?
  {
    Point(op.x1, op.y1)
  }

  function SecondControl(op: Operator): Point
    requires op.CurveTo?
  {
    Point(op.x2, op.y2)
  }

  /**
   * The point p moved by k times the radius vector from the centre c to p,
   * turned a quarter counter-clockwise: along the circle's tangent at p, in
   * the direction the path runs (y grows upwards on the page).
   */
  function AlongTangent(c: Point, p: Point, k: real): Point {
    Point(p.x - k * (p.y - c.y), p.y + k * (p.x - c.x))
  }

  /**
   * The five operators drawPath appends for the circle of centre (cx, cy) and
   * radius r, with x1, y1, x2, y2 reassigned between the segments as in the
   * handler.
   */
  function CirclePath(cx: real, cy: real, r: real): (ops: seq<Operator>)
    ensures |ops| == 5 && ops[0].MoveTo?
    ensures forall k :: 1 <= k < 5 ==> ops[k].CurveTo?
  {
    var offset := Offset(r);
    [MoveTo(cx + r, cy),
     CurveTo(cx + r, cy + offset, cx + offset, cy + r, cx, cy + r),
     CurveTo(cx - offset, cy + r, cx - r, cy + offset, cx - r, cy),
     CurveTo(cx - r, cy - offset, cx - offset, cy - r, cx, cy - r),
     CurveTo(cx + offset, cy - r, cx + r, cy - offset, cx + r, cy)]
  }

  /**
   * What drawPath appends, or the exception that stops it: r, cx and cy are
   * read in that order, cy is passed through invertY, and nothing is appended
   * before all three are read.
   */
  function Drawn(atts: Attributes, invertY: real -> real): (path: Result<seq<Operator>>)
    ensures path.Success? <==>
      ValueAsDouble(atts, "r").Success? && ValueAsDouble(atts, "cx").Success? && ValueAsDouble(atts, "cy").Success?
    ensures path.Success? ==>
      |path.value| == 5 && path.value[0].MoveTo? && path.value[4].CurveTo? && EndPoint(path.value[4]) == EndPoint(path.value[0])
  {
    var r :- ValueAsDouble(atts, "r");
    var cx :- ValueAsDouble(atts, "cx");
    var cy :- ValueAsDouble(atts, "cy");
    PathClosed(cx, invertY(cy), r);
    Success(CirclePath(cx, invertY(cy), r))
  }

  class CircleElementHandler {
    const atts: Attributes
    /** The base class's invertY, external to the core. */
    const invertY: real -> real
    /** The stream object's contents the handler appends to. */
    var contents: seq<Operator>

    constructor (atts: Attributes, invertY: real -> real)
      ensures this.atts == atts && this.invertY == invertY && contents == []
    {
      this.atts := atts;
      this.invertY := invertY;
      contents := [];
    }

    /** drawPath: one move-to, then the four quarter curves, counter-clockwise from angle 0. */
    method DrawPath() returns (status: Status)
      modifies this`contents
      ensures Drawn(atts, invertY).Failure? ==>
        status == Failed(Drawn(atts, invertY).error) && contents == old(contents)
      ensures Drawn(atts, invertY).Success? ==>
        status == Done && contents == old(contents) + Drawn(atts, invertY).value
    {
      DrawnCases(atts, invertY);
      var r := ValueAsDouble(atts, "r");
      if r.Failure? {
        return Failed(r.error);
      }
      var cx := ValueAsDouble(atts, "cx");
      if cx.Failure? {
        return Failed(cx.error);
      }
      var cyText := ValueAsDouble(atts, "cy");
      if cyText.Failure? {
        return Failed(cyText.error);
      }
      var cy := invertY(cyText.value);
      var offset := Kappa * r.value;
      ghost var path := CirclePath(cx.value, cy, r.value);

      // the tangent at 0 radians
      var x1 := cx.value + r.value;
      var y1 := cy;
      contents := contents + [MoveTo(x1, y1)];
      assert contents == old(contents) + path[..1];
      // to the tangent at pi / 2
      var x2 := cx.value;
      var y2 := cy + r.value;
      contents := contents + [CurveTo(x1, y1 + offset, x2 + offset, y2, x2, y2)];
      assert contents == old(contents) + path[..2];
      // to the tangent at pi
      x1, y1 := x2, y2;
      x2, y2 := cx.value - r.value, cy;
      contents := contents + [CurveTo(x1 - offset, y1, x2, y2 + offset, x2, y2)];
      assert contents == old(contents) + path[..3];
      // to the tangent at 3 pi / 2
      x1, y1 := x2, y2;
      x2, y2 := cx.value, cy - r.value;
      contents := contents + [CurveTo(x1, y1 - offset, x2 - offset, y2, x2, y2)];
      assert contents == old(contents) + path[..4];
      // back to the tangent at 2 pi
      x1, y1 := x2, y2;
      x2, y2 := cx.value + r.value, cy;
      contents := contents + [CurveTo(x1 + offset, y1, x2, y2 - offset, x2, y2)];
      assert contents == old(contents) + path[..5];
      assert path[..5] == path;
      status := Done;
    }
  }

  /** The move-to is the rightmost point; the curves end at the top, left, bottom and right. */
  lemma {:induction false} PathEndPoints(cx: real, cy: real, r: real)
    ensures var ops := CirclePath(cx, cy, r);
      EndPoint(ops[0]) == Point(cx + r, cy) &&
      EndPoint(ops[1]) == Point(cx, cy + r) &&
      EndPoint(ops[2]) == Point(cx - r, cy) &&
      EndPoint(ops[3]) == Point(cx, cy - r) &&
      EndPoint(ops[4]) == Point(cx + r, cy)
  {
  }

  /** The path is closed: the last curve ends where the move-to started it. */
  lemma {:induction false} PathClosed(cx: real, cy: real, r: real)
    ensures var ops := CirclePath(cx, cy, r);
      EndPoint(ops[4]) == EndPoint(ops[0])
  {
    PathEndPoints(cx, cy, r);
  }

  /**
   * Every end point of the path lies on the circle: its distance from the
   * centre, squared, is r squared.
   */
  lemma {:induction false} EndPointsOnCircle(cx: real, cy: real, r: real)
    ensures var ops := CirclePath(cx, cy, r);
      forall k :: 0 <= k < 5 ==>
        var p := EndPoint(ops[k]);
        (p.x - cx) * (p.x - cx) + (p.y - cy) * (p.y - cy) == r * r
  {
    PathEndPoints(cx, cy, r);
  }

  /**
   * Each curve leaves its start point (the end point of the operator before
   * it) along the tangent there, and arrives at its end point along the
   * tangent there, its control points set off by the offset (Kappa times the
   * radius) in the direction of travel.
   */
  lemma {:induction false} ControlPointsOnTangents(cx: real, cy: real, r: real)
    ensures var ops := CirclePath(cx, cy, r);
      var c := Point(cx, cy);
      FirstControl(ops[1]) == AlongTangent(c, EndPoint(ops[0]), Kappa) &&
      SecondControl(ops[1]) == AlongTangent(c, EndPoint(ops[1]), -Kappa) &&
      FirstControl(ops[2]) == AlongTangent(c, EndPoint(ops[1]), Kappa) &&
      SecondControl(ops[2]) == AlongTangent(c, EndPoint(ops[2]), -Kappa) &&
      FirstControl(ops[3]) == AlongTangent(c, EndPoint(ops[2]), Kappa) &&
      SecondControl(ops[3]) == AlongTangent(c, EndPoint(ops[3]), -Kappa) &&
      FirstControl(ops[4]) == AlongTangent(c, EndPoint(ops[3]), Kappa) &&
      SecondControl(ops[4]) == AlongTangent(c, EndPoint(ops[4]), -Kappa)
  {
    var c := Point(cx, cy);
    var d := Offset(r);
    PathEndPoints(cx, cy, r);
    Turn(c, r, d);
  }

  /** The tangent shifts at the four compass points of the circle. */
  lemma {:induction false} Turn(c: Point, r: real, d: real)
    requires d == Kappa * r
    ensures AlongTangent(c, Point(c.x + r, c.y), Kappa) == Point(c.x + r, c.y + d)
    ensures AlongTangent(c, Point(c.x, c.y + r), Kappa) == Point(c.x - d, c.y + r)
    ensures AlongTangent(c, Point(c.x - r, c.y), Kappa) == Point(c.x - r, c.y - d)
    ensures AlongTangent(c, Point(c.x, c.y - r), Kappa) == Point(c.x + d, c.y - r)
    ensures AlongTangent(c, Point(c.x + r, c.y), -Kappa) == Point(c.x + r, c.y - d)
    ensures AlongTangent(c, Point(c.x, c.y + r), -Kappa) == Point(c.x + d, c.y + r)
    ensures AlongTangent(c, Point(c.x - r, c.y), -Kappa) == Point(c.x - r, c.y + d)
    ensures AlongTangent(c, Point(c.x, c.y - r), -Kappa) == Point(c.x - d, c.y - r)
  {
    assert (c.x + r) - c.x == r && (c.y + r) - c.y == r;
    assert (c.x - r) - c.x == -r && (c.y - r) - c.y == -r;
    assert Kappa * (-r) == -d && -Kappa * r == -d && -Kappa * (-r) == d;
    assert Kappa * 0.0 == 0.0 && -Kappa * 0.0 == 0.0;
  }

  /** With a non-negative radius every point of the path lies in the circle's bounding box. */
  lemma {:induction false} PathInBox(cx: real, cy: real, r: real)
    requires r >= 0.0
    ensures var ops := CirclePath(cx, cy, r);
      forall k :: 1 <= k < 5 ==>
        InBox(FirstControl(ops[k]), cx, cy, r) && InBox(SecondControl(ops[k]), cx, cy, r) &&
        InBox(EndPoint(ops[k]), cx, cy, r)
    ensures InBox(EndPoint(CirclePath(cx, cy, r)[0]), cx, cy, r)
  {
    var offset := Offset(r);
    assert 0.0 <= offset <= r;
  }

  predicate InBox(p: Point, cx: real, cy: real, r: real) {
    cx - r <= p.x <= cx + r && cy - r <= p.y <= cy + r
  }

  /** A circle of radius 0 is drawn as the centre, every point of every operator on it. */
  lemma {:induction false} DegenerateCircle(cx: real, cy: real)
    ensures var ops := CirclePath(cx, cy, 0.0);
      EndPoint(ops[0]) == Point(cx, cy) &&
      forall k :: 1 <= k < 5 ==>
        FirstControl(ops[k]) == Point(cx, cy) && SecondControl(ops[k]) == Point(cx, cy) &&
        EndPoint(ops[k]) == Point(cx, cy)
  {
    assert Offset(0.0) == 0.0;
  }

  /**
   * drawPath fails exactly when one of r, cx, cy cannot be read, with the
   * error of the first of them in that order; otherwise it draws the circle
   * around (cx, invertY(cy)).
   */
  lemma {:induction false} DrawnCases(atts: Attributes, invertY: real -> real)
    ensures var r := ValueAsDouble(atts, "r");
      var cx := ValueAsDouble(atts, "cx");
      var cy := ValueAsDouble(atts, "cy");
      (r.Failure? ==> Drawn(atts, invertY) == Failure(r.error)) &&
      (r.Success? && cx.Failure? ==> Drawn(atts, invertY) == Failure(cx.error)) &&
      (r.Success? && cx.Success? && cy.Failure? ==> Drawn(atts, invertY) == Failure(cy.error)) &&
      (r.Success? && cx.Success? && cy.Success? ==>
        Drawn(atts, invertY) == Success(CirclePath(cx.value, invertY(cy.value), r.value)))
  {
  }
}

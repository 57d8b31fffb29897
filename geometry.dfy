/**
  * The scale transform and the layout geometry of the render pass: node
  * boxes, edge connectors (an S-shaped cubic curve) and arrowheads, all over
  * exact reals.
  */
module Geometry {
  import opened JsValues
  import opened PipelineData

  function Min(a: real, b: real): real {
    if a <= b then a else b
  }

  /**
    * The width `_setScale` measures: the canvas's client width, else its
    * offset width, else the host's bounding-box width, else the logical width.
    * Each measurement is a browser layout value, never negative.
    */
  function MeasuredWidth(clientWidth: real, offsetWidth: real, rectWidth: real): (w: real)
    ensures clientWidth != 0.0 ==> w == clientWidth
    ensures clientWidth == 0.0 && offsetWidth != 0.0 ==> w == offsetWidth
    ensures clientWidth == 0.0 && offsetWidth == 0.0 && rectWidth != 0.0 ==> w == rectWidth
    ensures clientWidth == 0.0 && offsetWidth == 0.0 && rectWidth == 0.0 ==> w == BG_W
    ensures clientWidth >= 0.0 && offsetWidth >= 0.0 && rectWidth >= 0.0 ==> w > 0.0
  {
    OrReal(clientWidth, OrReal(offsetWidth, OrReal(rectWidth, BG_W)))
  }

  /** The uniform scale factor for a container of width `w`: fit the width, never upscale. */
  function ScaleFor(w: real): (s: real)
    ensures w > 0.0 ==> 0.0 < s <= 1.0
    ensures s == 1.0 <==> w >= BG_W
    ensures s <= 1.0 && s <= w / BG_W
  {
    Min(w / BG_W, 1.0)
  }

  /** A wider container never gets a smaller scale. */
  lemma ScaleMonotone(w1: real, w2: real)
    requires w1 <= w2
    ensures ScaleFor(w1) <= ScaleFor(w2)
  {
  }

  /** The scaled canvas is exactly as wide as the container, up to the logical width. */
  lemma ScaledCanvasFits(w: real)
    requires w > 0.0
    ensures BG_W * ScaleFor(w) == Min(w, BG_W)
    ensures BG_H * ScaleFor(w) == BG_H * Min(w, BG_W) / BG_W
  {
  }

  /** A container that measures zero everywhere is drawn at scale 1. */
  lemma ZeroWidthFallsBack()
    ensures ScaleFor(MeasuredWidth(0.0, 0.0, 0.0)) == 1.0
  {
  }

  /** Every non-negative measurement yields a scale in (0, 1]. */
  lemma MeasuredScaleInRange(clientWidth: real, offsetWidth: real, rectWidth: real)
    requires clientWidth >= 0.0 && offsetWidth >= 0.0 && rectWidth >= 0.0
    ensures 0.0 < ScaleFor(MeasuredWidth(clientWidth, offsetWidth, rectWidth)) <= 1.0
  {
  }

  datatype Point = Point(x: real, y: real)

  /** An on-screen rectangle: left, top, width and height in pixels. */
  datatype Box = Box(left: real, top: real, width: real, height: real)

  /** Where a node is drawn at scale `s`. */
  function NodeBox(n: Node, s: real): (b: Box)
    ensures b.left == n.x * s && b.top == n.y * s
    ensures b.width == n.w * s && b.height == n.h * s
  {
    Box(n.x * s, n.y * s, n.w * s, n.h * s)
  }

  /** Middle of a box's right side, where outgoing connectors leave. */
  function RightMid(b: Box): Point {
    Point(b.left + b.width, b.top + b.height / 2.0)
  }

  /** Middle of a box's left side, where incoming connectors arrive. */
  function LeftMid(b: Box): Point {
    Point(b.left, b.top + b.height / 2.0)
  }

  /** A cubic Bezier curve through its four control points. */
  datatype Connector = Connector(start: Point, c1: Point, c2: Point, end: Point)

  /**
    * The connector drawn for an edge from node `a` to node `b` at scale `s`:
    * from the middle of `a`'s right side to the middle of `b`'s left side,
    * both inner control points at the horizontal midpoint, the first at the
    * start's height and the second at the end's height.
    */
  function EdgeConnector(a: Node, b: Node, s: real): (c: Connector)
    ensures c.start == RightMid(NodeBox(a, s)) && c.end == LeftMid(NodeBox(b, s))
    ensures c.c1.x == c.c2.x == (c.start.x + c.end.x) / 2.0
    ensures c.c1.y == c.start.y && c.c2.y == c.end.y
  {
    var x1 := (a.x + a.w) * s;
    var y1 := (a.y + a.h / 2.0) * s;
    var x2 := b.x * s;
    var y2 := (b.y + b.h / 2.0) * s;
    var midX := (x1 + x2) / 2.0;
    Connector(Point(x1, y1), Point(midX, y1), Point(midX, y2), Point(x2, y2))
  }

  function ScalePoint(p: Point, s: real): Point {
    Point(p.x * s, p.y * s)
  }

  /** The connector at any scale is the logical-size connector scaled uniformly. */
  lemma ConnectorScalesUniformly(a: Node, b: Node, s: real)
    ensures var c, c0 := EdgeConnector(a, b, s), EdgeConnector(a, b, 1.0);
      && c.start == ScalePoint(c0.start, s) && c.c1 == ScalePoint(c0.c1, s)
      && c.c2 == ScalePoint(c0.c2, s) && c.end == ScalePoint(c0.end, s)
  {
  }

  /** One coordinate of a cubic Bezier curve with control values p0..p3, at parameter `t`. */
  function Cubic(p0: real, p1: real, p2: real, p3: real, t: real): real {
    var u := 1.0 - t;
    u * u * u * p0 + 3.0 * u * u * t * p1 + 3.0 * u * t * t * p2 + t * t * t * p3
  }

  /** The point of the curve at parameter `t`. */
  function BezierAt(c: Connector, t: real): Point {
    Point(Cubic(c.start.x, c.c1.x, c.c2.x, c.end.x, t), Cubic(c.start.y, c.c1.y, c.c2.y, c.end.y, t))
  }

  lemma BezierEnds(c: Connector)
    ensures BezierAt(c, 0.0) == c.start && BezierAt(c, 1.0) == c.end
  {
  }

  /** The four Bernstein weights of a cubic sum to 1: (u + t)^3 = 1 when u + t = 1. */
  lemma BernsteinSum(u: real, t: real)
    requires u + t == 1.0
    ensures u * u * u + 3.0 * u * u * t + 3.0 * u * t * t + t * t * t == 1.0
  {
    assert (u + t) * (u + t) == 1.0;
    assert u * u + 2.0 * u * t + t * t == 1.0;
    assert (u * u + 2.0 * u * t + t * t) * (u + t) == 1.0;
  }

  /** Swapping `t` and `1 - t` swaps the Bernstein weights end for end. */
  lemma CubicReversed(p0: real, p1: real, p2: real, p3: real, t: real)
    ensures Cubic(p0, p1, p2, p3, 1.0 - t) == Cubic(p3, p2, p1, p0, t)
  {
    var u := 1.0 - t;
    assert 1.0 - u == t;
    assert u * u * t == t * u * u;
    assert u * t * t == t * t * u;
  }

  /** A cubic with inner control values at the mean of its ends averages to that mean at `t` and `1 - t`. */
  lemma CubicSymmetricAcross(x1: real, m: real, x2: real, t: real)
    requires 2.0 * m == x1 + x2
    ensures Cubic(x1, m, m, x2, t) + Cubic(x1, m, m, x2, 1.0 - t) == x1 + x2
  {
    var u := 1.0 - t;
    CubicReversed(x1, m, m, x2, t);
    BernsteinSum(u, t);
    var a, b, c, d := u * u * u, 3.0 * u * u * t, 3.0 * u * t * t, t * t * t;
    assert Cubic(x1, m, m, x2, t) + Cubic(x2, m, m, x1, t) == (a + d) * (x1 + x2) + (b + c) * (2.0 * m);
  }

  /** A cubic whose first two and last two control values agree averages to the mean of its ends at `t` and `1 - t`. */
  lemma CubicSymmetricAlong(y1: real, y2: real, t: real)
    ensures Cubic(y1, y1, y2, y2, t) + Cubic(y1, y1, y2, y2, 1.0 - t) == y1 + y2
  {
    var u := 1.0 - t;
    CubicReversed(y1, y1, y2, y2, t);
    BernsteinSum(u, t);
    var a, b, c, d := u * u * u, 3.0 * u * u * t, 3.0 * u * t * t, t * t * t;
    assert Cubic(y1, y1, y2, y2, t) + Cubic(y2, y2, y1, y1, t) == (a + b + c + d) * (y1 + y2);
  }

  /**
    * An edge's connector is point-symmetric about the midpoint of its two
    * anchors: the points at `t` and at `1 - t` always average to that
    * midpoint, so the curve is an S whose two halves mirror each other.
    */
  lemma ConnectorIsPointSymmetric(a: Node, b: Node, s: real, t: real)
    ensures var c := EdgeConnector(a, b, s);
      var p, q := BezierAt(c, t), BezierAt(c, 1.0 - t);
      p.x + q.x == c.start.x + c.end.x && p.y + q.y == c.start.y + c.end.y
  {
    var c := EdgeConnector(a, b, s);
    CubicSymmetricAcross(c.start.x, c.c1.x, c.end.x, t);
    CubicSymmetricAlong(c.start.y, c.end.y, t);
  }

  /** Halfway along, an edge's connector passes through the midpoint of its anchors. */
  lemma ConnectorMidpoint(a: Node, b: Node, s: real)
    ensures var c := EdgeConnector(a, b, s);
      BezierAt(c, 0.5) == Point((c.start.x + c.end.x) / 2.0, (c.start.y + c.end.y) / 2.0)
  {
    ConnectorIsPointSymmetric(a, b, s, 0.5);
  }

  /** Depth and half-width of an arrowhead, in pixels at every scale. */
  const ArrowDepth: real := 10.0
  const ArrowHalfWidth: real := 6.0

  /** A triangle given by its apex and the two corners of its base. */
  datatype Arrowhead = Arrowhead(apex: Point, upper: Point, lower: Point)

  /**
    * The arrowhead drawn at a connector's end point `p`, pointing right: its
    * apex is `p`, its base is a vertical segment `ArrowDepth` to the left,
    * and it is symmetric about the horizontal through `p`.
    */
  function ArrowheadAt(p: Point): (a: Arrowhead)
    ensures a.apex == p && a.upper.x == a.lower.x < p.x
    ensures a.upper.y + a.lower.y == 2.0 * p.y && a.lower.y - a.upper.y == 2.0 * ArrowHalfWidth
    ensures p.x - a.upper.x == ArrowDepth
  {
    Arrowhead(p, Point(p.x - ArrowDepth, p.y - ArrowHalfWidth), Point(p.x - ArrowDepth, p.y + ArrowHalfWidth))
  }

  /**
    * An edge's arrowhead touches the target box at the middle of its left side,
    * lies to the left of that side, is symmetric about the connector's final
    * horizontal tangent, and keeps its 10 by 12 size whatever the scale.
    */
  lemma ArrowheadMeetsTarget(a: Node, b: Node, s: real)
    ensures var box, arrow := NodeBox(b, s), ArrowheadAt(EdgeConnector(a, b, s).end);
      && arrow.apex == LeftMid(box)
      && arrow.upper.x == arrow.lower.x == box.left - 10.0
      && arrow.upper.y + arrow.lower.y == 2.0 * arrow.apex.y
      && arrow.lower.y - arrow.upper.y == 12.0
      && arrow.upper.y == EdgeConnector(a, b, s).c2.y - 6.0
  {
  }

  /** Node `raw` (logical box 20, 290, 190, 160) drawn at half scale. */
  lemma RawNodeAtHalfScale()
    ensures NodeBox(Nodes[0], 0.5) == Box(10.0, 145.0, 95.0, 80.0)
  {
  }
}

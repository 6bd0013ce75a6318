/** SVG path geometry shared by every connector builder: a path is a list of
    moveto / lineto / quadratic-curve commands over exact real coordinates. */
module Geometry {

  datatype Option<+T> = None | Some(value: T)

  datatype Point = Point(x: real, y: real)

  /** One SVG path command. `Q` carries its control point and then its end point. */
  datatype Segment = M(to: Point) | L(to: Point) | Q(ctrl: Point, to: Point)

  type Path = seq<Segment>

  function Abs(v: real): (r: real)
    ensures r >= 0.0
    ensures r == v || r == -v
  {
    if v < 0.0 then -v else v
  }

  function Min(a: real, b: real): (r: real)
    ensures r <= a && r <= b
    ensures r == a || r == b
  {
    if a <= b then a else b
  }

  function StartOf(p: Path): Point
    requires |p| > 0
  {
    p[0].to
  }

  function EndOf(p: Path): Point
    requires |p| > 0
  {
    p[|p| - 1].to
  }

  /** A step of an orthogonal route drawn from `from`: a line that is horizontal
      or vertical, or a quarter-turn corner whose control point is the corner
      of the axis-parallel box spanned by `from` and the curve's end. */
  predicate OrthogonalStep(from: Point, s: Segment)
  {
    match s
    case M(_) => false
    case L(to) => from.x == to.x || from.y == to.y
    case Q(c, to) => (from.x == c.x && c.y == to.y) || (from.y == c.y && c.x == to.x)
  }

  /** A single subpath that opens with a moveto and then only takes orthogonal steps. */
  predicate Orthogonal(p: Path)
  {
    && |p| > 0
    && p[0].M?
    && forall k :: 1 <= k < |p| ==> OrthogonalStep(p[k - 1].to, p[k])
  }

  function MirrorPoint(pt: Point, axisY: real): (r: Point)
    ensures r.x == pt.x && r.y - axisY == axisY - pt.y
  {
    Point(pt.x, 2.0 * axisY - pt.y)
  }

  function MirrorSegment(s: Segment, axisY: real): Segment
  {
    match s
    case M(to) => M(MirrorPoint(to, axisY))
    case L(to) => L(MirrorPoint(to, axisY))
    case Q(c, to) => Q(MirrorPoint(c, axisY), MirrorPoint(to, axisY))
  }

  /** The reflection of a path in the horizontal line y = axisY. */
  function MirrorY(p: Path, axisY: real): (r: Path)
    ensures |r| == |p|
    ensures forall k :: 0 <= k < |p| ==> r[k] == MirrorSegment(p[k], axisY)
  {
    seq(|p|, k requires 0 <= k < |p| => MirrorSegment(p[k], axisY))
  }
}

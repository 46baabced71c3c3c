/**
 * The part of SVG path data (SVG 1.1, section 8.3 "Path data") that the
 * corner-square markers emit, as a datatype of commands over exact reals,
 * together with the pen semantics that turns a command sequence into the
 * absolute points it visits.
 */
module SvgPath {

  datatype Point = Point(x: real, y: real)

  /** One path command. Every arc the markers draw has x-axis-rotation 0, so
      that parameter is not recorded. `z` and `Z` mean the same thing. */
  datatype Cmd =
    | MoveTo(x: real, y: real)        // M x y
    | MoveBy(dx: real, dy: real)      // m dx dy
    | LineTo(x: real, y: real)        // L x y
    | HorizontalBy(dx: real)          // h dx
    | VerticalBy(dy: real)            // v dy
    | ArcBy(rx: real, ry: real, largeArc: bool, sweep: bool, dx: real, dy: real)  // a rx ry 0 large sweep dx dy
    | ClosePath                       // z, Z

  type Path = seq<Cmd>

  /** The pen: where it is, and where the current subpath started. */
  datatype Pen = Pen(at: Point, start: Point)

  const Origin := Point(0.0, 0.0)
  const StartPen := Pen(Origin, Origin)

  /** The effect of one command on the pen (SVG 1.1, sections 8.3.2 to 8.3.8):
      a moveto starts a new subpath, closepath returns to the subpath's start,
      every other command moves the pen to its end point. */
  function Step(pen: Pen, c: Cmd): Pen
  {
    match c
    case MoveTo(x, y) => Pen(Point(x, y), Point(x, y))
    case MoveBy(dx, dy) =>
      var p := Point(pen.at.x + dx, pen.at.y + dy); Pen(p, p)
    case LineTo(x, y) => pen.(at := Point(x, y))
    case HorizontalBy(dx) => pen.(at := Point(pen.at.x + dx, pen.at.y))
    case VerticalBy(dy) => pen.(at := Point(pen.at.x, pen.at.y + dy))
    case ArcBy(_, _, _, _, dx, dy) => pen.(at := Point(pen.at.x + dx, pen.at.y + dy))
    case ClosePath => pen.(at := pen.start)
  }

  /** The pen after the first n commands of p. */
  function PenAfter(p: Path, n: nat): Pen
    requires n <= |p|
  {
    if n == 0 then StartPen else Step(PenAfter(p, n - 1), p[n - 1])
  }

  /** The absolute point the pen reaches after each command of p. */
  function Trace(p: Path): seq<Point>
  {
    seq(|p|, i requires 0 <= i < |p| => PenAfter(p, i + 1).at)
  }

  /** A path whose first command is an absolute moveto does not depend on
      where the pen was before it. */
  predicate StartsWithMoveTo(p: Path)
  {
    |p| > 0 && p[0].MoveTo?
  }

  lemma {:induction false} PenAfterPrefix(a: Path, b: Path, k: nat)
    requires k <= |a|
    ensures PenAfter(a + b, k) == PenAfter(a, k)
  {
    if k > 0 {
      PenAfterPrefix(a, b, k - 1);
      assert (a + b)[k - 1] == a[k - 1];
    }
  }

  lemma {:induction false} PenAfterSuffix(a: Path, b: Path, k: nat)
    requires StartsWithMoveTo(b)
    requires 1 <= k <= |b|
    ensures PenAfter(a + b, |a| + k) == PenAfter(b, k)
  {
    assert (a + b)[|a| + k - 1] == b[k - 1];
    if k > 1 {
      PenAfterSuffix(a, b, k - 1);
    }
  }

  /** The points visited by two subpaths drawn one after the other are those
      of each, when the second one opens with an absolute moveto. */
  lemma {:induction false} TraceAppend(a: Path, b: Path)
    requires StartsWithMoveTo(b)
    ensures Trace(a + b) == Trace(a) + Trace(b)
  {
    var t, ta, tb := Trace(a + b), Trace(a), Trace(b);
    forall i | 0 <= i < |t|
      ensures t[i] == (ta + tb)[i]
    {
      if i < |a| {
        PenAfterPrefix(a, b, i + 1);
      } else {
        PenAfterSuffix(a, b, i + 1 - |a|);
      }
    }
  }

  /** The pen ends where the path's first command put it: the contour returns
      to its starting point, whether by closepath or by its own moves. */
  predicate ReturnsToStart(p: Path)
  {
    |p| > 0 && Trace(p)[|p| - 1] == Trace(p)[0]
  }

  predicate InBox(pt: Point, left: real, top: real, right: real, bottom: real)
  {
    left <= pt.x <= right && top <= pt.y <= bottom
  }

  /** Every point the pen reaches lies in the rectangle [left, right] x [top, bottom]. */
  predicate StaysInBox(p: Path, left: real, top: real, right: real, bottom: real)
  {
    forall pt | pt in Trace(p) :: InBox(pt, left, top, right, bottom)
  }

  function DistSq(a: Point, b: Point): real
  {
    (a.x - b.x) * (a.x - b.x) + (a.y - b.y) * (a.y - b.y)
  }

  /** Cross product of a - c and b - c; positive when turning from a to b
      about c is clockwise on screen (the y axis points down). */
  function Cross(a: Point, b: Point, c: Point): real
  {
    (a.x - c.x) * (b.y - c.y) - (a.y - c.y) * (b.x - c.x)
  }

  /** Command i of p is a circular arc whose centre is c (SVG 1.1, appendix
      F.6.5). */
  predicate ArcCentredAt(p: Path, i: nat, c: Point)
  {
    i < |p| && ArcAbout(PenAfter(p, i).at, p[i], c)
  }

  /** The arc command cmd, drawn from a, is circular and centred at c: both
      end points lie on the circle of radius rx about c, and c is on the side
      of the chord that the flags select. A sweep flag of 1 turns in the
      positive-angle direction; the small arc then turns clockwise on screen,
      the large arc the other way round the centre. */
  predicate ArcAbout(a: Point, cmd: Cmd, c: Point)
  {
    cmd.ArcBy? && cmd.rx == cmd.ry &&
    var b := Point(a.x + cmd.dx, a.y + cmd.dy);
    DistSq(a, c) == cmd.rx * cmd.rx && DistSq(b, c) == cmd.rx * cmd.rx &&
    (Cross(a, b, c) > 0.0 ==> cmd.sweep != cmd.largeArc) &&
    (Cross(a, b, c) < 0.0 ==> cmd.sweep == cmd.largeArc)
  }

  /** A small circular arc whose relative end point is (±rx, ±rx) is a quarter
      circle centred at one of the two corners of the square it spans: below
      or above the start point when it turns the way the sign of its end
      point selects, beside it otherwise. */
  lemma QuarterArc(a: Point, cmd: Cmd)
    requires cmd.ArcBy? && cmd.rx == cmd.ry && !cmd.largeArc
    requires cmd.dx == cmd.rx || cmd.dx == -cmd.rx
    requires cmd.dy == cmd.rx || cmd.dy == -cmd.rx
    ensures cmd.sweep == ((cmd.dx > 0.0) == (cmd.dy > 0.0)) ==> ArcAbout(a, cmd, Point(a.x, a.y + cmd.dy))
    ensures cmd.sweep != ((cmd.dx > 0.0) == (cmd.dy > 0.0)) ==> ArcAbout(a, cmd, Point(a.x + cmd.dx, a.y))
  {
    var r, dx, dy := cmd.rx, cmd.dx, cmd.dy;
    var b := Point(a.x + dx, a.y + dy);
    assert dx * dx == r * r && dy * dy == r * r;
    var below, beside := Point(a.x, a.y + dy), Point(a.x + dx, a.y);
    assert DistSq(a, below) == dy * dy && DistSq(b, below) == dx * dx;
    assert DistSq(a, beside) == dx * dx && DistSq(b, beside) == dy * dy;
    assert Cross(a, b, below) == dx * dy && Cross(a, b, beside) == -(dx * dy);
    if dx > 0.0 && dy > 0.0 {
      assert dx * dy > 0.0;
    } else if dx < 0.0 && dy < 0.0 {
      assert dx * dy > 0.0;
    } else if dx > 0.0 && dy < 0.0 {
      assert dx * dy < 0.0;
    } else if dx < 0.0 && dy > 0.0 {
      assert dx * dy < 0.0;
    } else {
      assert dx * dy == 0.0;
    }
  }

  /** Command i of p is an arc that is actually drawn: SVG 1.1 appendix F.6.2 omits an arc whose
      end points coincide and draws a straight line for a zero radius. */
  predicate ArcDrawn(p: Path, i: nat)
  {
    i < |p| && p[i].ArcBy? && (p[i].dx, p[i].dy) != (0.0, 0.0) &&
    p[i].rx != 0.0 && p[i].ry != 0.0
  }

  /** Arc i of p is circular and its radius reaches across its chord, so SVG
      draws it at the stated radius instead of scaling the radius up (SVG 1.1,
      appendix F.6.6: the chord is at most a diameter). */
  predicate RadiusSpansChord(p: Path, i: nat)
  {
    i < |p| && p[i].ArcBy? && p[i].rx == p[i].ry &&
    p[i].dx * p[i].dx + p[i].dy * p[i].dy <= 4.0 * p[i].rx * p[i].rx
  }

  /** Every arc of p carries the given sweep flag, so the whole contour turns
      one way. */
  predicate ArcsSweep(p: Path, sweep: bool)
  {
    forall c | c in p && c.ArcBy? :: c.sweep == sweep
  }

  /** Twice the signed area of the polygon through vs (the shoelace sum),
      measured from vs[0]; positive for a polygon traversed clockwise on screen. */
  function TwiceSignedArea(vs: seq<Point>): real
  {
    if |vs| < 3 then 0.0 else FanSum(vs, 1)
  }

  function FanSum(vs: seq<Point>, i: nat): real
    requires 1 <= i && |vs| >= 1
    decreases |vs| - i
  {
    if i + 1 >= |vs| then 0.0 else Cross(vs[i], vs[i + 1], vs[0]) + FanSum(vs, i + 1)
  }
}

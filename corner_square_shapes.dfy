/**
 * The six corner-square geometry generators of QRCornerSquare
 * (_basicDot, _basicSquare, _basicExtraRounded, _basicStyle2, _basicStyle3,
 * _basicStyle4) as pure functions from the marker's top-left corner (x, y)
 * and side length `size` to the path data they emit, and what that path
 * data draws.
 */
module CornerSquareShapes {
  import opened SvgPath

  /** The marker spans 7 x 7 modules; every length is a multiple of one module. */
  function DotSize(size: real): real
  {
    size / 7.0
  }

  lemma MulLess(a: real, b: real, c: real)
    requires a > 0.0 && b <= c
    ensures a * b <= a * c
    ensures b < c ==> a * b < a * c
  {
  }

  // ---------------------------------------------------------------- dot

  /** A ring: a large arc from the top centre to 0.1 to its right, closed,
      then one module lower a large arc of the inner radius back 0.1 to the
      left, closed. The 0.1 is not scaled with size: it only keeps the end
      points of each arc apart. */
  function DotPath(x: real, y: real, size: real): Path
  {
    var d := DotSize(size);
    [ MoveTo(x + size / 2.0, y),
      ArcBy(size / 2.0, size / 2.0, true, false, 0.1, 0.0),
      ClosePath,
      MoveBy(0.0, d),
      ArcBy(size / 2.0 - d, size / 2.0 - d, true, true, -0.1, 0.0),
      ClosePath ]
  }

  lemma DotTrace(x: real, y: real, size: real)
    ensures var cx, d := x + size / 2.0, DotSize(size);
      Trace(DotPath(x, y, size)) ==
        [ Point(cx, y), Point(cx + 0.1, y), Point(cx, y),
          Point(cx, y + d), Point(cx - 0.1, y + d), Point(cx, y + d) ]
  {
    var p, cx, d := DotPath(x, y, size), x + size / 2.0, DotSize(size);
    assert PenAfter(p, 1) == Pen(Point(cx, y), Point(cx, y));
    assert PenAfter(p, 2) == Pen(Point(cx + 0.1, y), Point(cx, y));
    assert PenAfter(p, 3) == Pen(Point(cx, y), Point(cx, y));
    assert PenAfter(p, 4) == Pen(Point(cx, y + d), Point(cx, y + d));
    assert PenAfter(p, 5) == Pen(Point(cx - 0.1, y + d), Point(cx, y + d));
    assert PenAfter(p, 6) == Pen(Point(cx, y + d), Point(cx, y + d));
  }

  /** The outer arc has radius size/2 and opens at the top centre; the inner
      one starts a module lower with radius size/2 - dotSize and turns the other
      way. Both arcs are drawn for every nonzero size, because their end points
      are always 0.1 apart, and each subpath closes where it opened. */
  lemma DotRing(x: real, y: real, size: real)
    ensures var p, t, d := DotPath(x, y, size), Trace(DotPath(x, y, size)), DotSize(size);
      && p[1].ArcBy? && p[1].rx == p[1].ry == size / 2.0 && p[1].largeArc && !p[1].sweep
      && p[4].ArcBy? && p[4].rx == p[4].ry == size / 2.0 - d && p[4].largeArc && p[4].sweep
      && t[0] == Point(x + size / 2.0, y)
      && t[1] == Point(t[0].x + 0.1, t[0].y)
      && t[3] == Point(t[0].x, t[0].y + d)
      && t[4] == Point(t[3].x - 0.1, t[3].y)
      && t[2] == t[0] && t[5] == t[3]
      && (ArcDrawn(p, 1) && ArcDrawn(p, 4) <==> size != 0.0)
  {
    DotTrace(x, y, size);
  }

  /** The fixed 0.1 offset keeps every pen position of the ring (the end
      point of each command) inside the marker's box exactly when the marker
      is at least 0.2 wide. */
  lemma DotInBox(x: real, y: real, size: real)
    requires size >= 0.0
    ensures StaysInBox(DotPath(x, y, size), x, y, x + size, y + size) <==> size >= 0.2
  {
    DotTrace(x, y, size);
    var t := Trace(DotPath(x, y, size));
    if !(size >= 0.2) {
      assert !InBox(t[1], x, y, x + size, y + size);
    }
  }

  /** The 0.1 chord puts the outer circle's centre 0.05 right of the box's
      centre line, so with radius size/2 the drawn ring reaches 0.05 past the
      right edge of the marker's box, whatever the size. */
  lemma DotOuterCentre(x: real, y: real, size: real, c: Point)
    requires ArcCentredAt(DotPath(x, y, size), 1, c)
    ensures c.x == x + size / 2.0 + 0.05
    ensures c.x + DotPath(x, y, size)[1].rx == x + size + 0.05
  {
    var p, cx := DotPath(x, y, size), x + size / 2.0;
    DotTrace(x, y, size);
    assert PenAfter(p, 1).at == Point(cx, y);
    var u, v := cx - c.x, y - c.y;
    assert u * u + v * v == (u + 0.1) * (u + 0.1) + v * v;
    assert (u + 0.1) * (u + 0.1) == u * u + 0.2 * u + 0.01;
  }

  /** At size 0.26 every pen position lies in the box, yet the outer arc is
      centred at (0.18, 0.12) with radius 0.13, so its circle passes through
      (0.31, 0.12), past the right edge at 0.26 (the large arc covers all of
      that circle but the 0.1 chord at its top). */
  lemma DotRingOverhang()
    ensures StaysInBox(DotPath(0.0, 0.0, 0.26), 0.0, 0.0, 0.26, 0.26)
    ensures ArcCentredAt(DotPath(0.0, 0.0, 0.26), 1, Point(0.18, 0.12))
    ensures DotPath(0.0, 0.0, 0.26)[1].rx == 0.13
    ensures DistSq(Point(0.31, 0.12), Point(0.18, 0.12)) == 0.13 * 0.13 && !InBox(Point(0.31, 0.12), 0.0, 0.0, 0.26, 0.26)
  {
    DotInBox(0.0, 0.0, 0.26);
    DotTrace(0.0, 0.0, 0.26);
    assert PenAfter(DotPath(0.0, 0.0, 0.26), 1).at == Point(0.13, 0.0);
  }

  /** The inner arc's -0.1 chord puts its centre 0.05 left of the box's
      centre line, so with radius size/2 - d its circle reaches x + d - 0.05:
      past the left edge of the box whenever the marker is under 0.35 wide. */
  lemma DotInnerCentre(x: real, y: real, size: real, c: Point)
    requires ArcCentredAt(DotPath(x, y, size), 4, c)
    ensures c.x == x + size / 2.0 - 0.05
    ensures c.x - DotPath(x, y, size)[4].rx == x + DotSize(size) - 0.05
  {
    var p, cx := DotPath(x, y, size), x + size / 2.0;
    DotTrace(x, y, size);
    assert Trace(p)[3] == Point(cx, y + DotSize(size));
    assert PenAfter(p, 4).at == Point(cx, y + DotSize(size));
    var u, v := cx - c.x, y + DotSize(size) - c.y;
    assert u * u + v * v == (u - 0.1) * (u - 0.1) + v * v;
    assert (u - 0.1) * (u - 0.1) == u * u - 0.2 * u + 0.01;
  }

  /** At size 0.2975 every pen position lies in the box, yet the inner arc is
      centred at (0.09875, 0.13625) with radius 0.10625, so its circle passes
      through (-0.0075, 0.13625), past the left edge at 0. */
  lemma DotInnerOverhang()
    ensures StaysInBox(DotPath(0.0, 0.0, 0.2975), 0.0, 0.0, 0.2975, 0.2975)
    ensures ArcCentredAt(DotPath(0.0, 0.0, 0.2975), 4, Point(0.09875, 0.13625))
    ensures DotPath(0.0, 0.0, 0.2975)[4].rx == 0.10625
    ensures DistSq(Point(-0.0075, 0.13625), Point(0.09875, 0.13625)) == 0.10625 * 0.10625
        && !InBox(Point(-0.0075, 0.13625), 0.0, 0.0, 0.2975, 0.2975)
  {
    DotInBox(0.0, 0.0, 0.2975);
    DotTrace(0.0, 0.0, 0.2975);
    assert Trace(DotPath(0.0, 0.0, 0.2975))[3] == Point(0.14875, 0.0425);
    assert PenAfter(DotPath(0.0, 0.0, 0.2975), 4).at == Point(0.14875, 0.0425);
  }

  /** Both radii span the 0.1 chord (so SVG draws them at the stated radius,
      appendix F.6.6 of SVG 1.1) exactly when the marker is at least 0.14 wide:
      the inner diameter 5*size/7 is the binding one. */
  lemma DotRadiiSpanChord(x: real, y: real, size: real)
    requires size > 0.0
    ensures RadiusSpansChord(DotPath(x, y, size), 1) && RadiusSpansChord(DotPath(x, y, size), 4)
        <==> size >= 0.14
  {
    var p := DotPath(x, y, size);
    var r := size / 2.0 - DotSize(size);
    assert r == 5.0 * size / 14.0;
    assert 4.0 * r * r == (100.0 / 196.0) * (size * size);
    assert 4.0 * (size / 2.0) * (size / 2.0) == size * size;
    if size >= 0.14 {
      MulLess(size, 0.14, size);
      assert size * size >= 0.14 * size >= 0.0196;
    } else {
      MulLess(size, size, 0.14);
      assert size * size < 0.0196;
      assert !RadiusSpansChord(p, 4);
    }
  }

  // ---------------------------------------------------------------- square

  /** The full box, traced down, right, up and closed. */
  function SquareOuter(x: real, y: real, size: real): Path
  {
    [MoveTo(x, y), VerticalBy(size), HorizontalBy(size), VerticalBy(-size), ClosePath]
  }

  /** The box inset by one module, traced right, down, left and closed. */
  function SquareInner(x: real, y: real, size: real): Path
  {
    var d := DotSize(size);
    [ MoveTo(x + d, y + d),
      HorizontalBy(size - 2.0 * d),
      VerticalBy(size - 2.0 * d),
      HorizontalBy(-size + 2.0 * d),
      ClosePath ]
  }

  function SquarePath(x: real, y: real, size: real): Path
  {
    SquareOuter(x, y, size) + SquareInner(x, y, size)
  }

  /** The outer contour visits (x, y), (x, y+size), (x+size, y+size),
      (x+size, y) and closes; the inner one visits the corners of the box
      inset by dotSize in the other rotational order and closes. */
  lemma SquareTrace(x: real, y: real, size: real)
    ensures var d := DotSize(size);
      Trace(SquarePath(x, y, size)) ==
        [ Point(x, y), Point(x, y + size), Point(x + size, y + size), Point(x + size, y), Point(x, y) ] +
        [ Point(x + d, y + d), Point(x + size - d, y + d), Point(x + size - d, y + size - d),
          Point(x + d, y + size - d), Point(x + d, y + d) ]
  {
    var o, i, d := SquareOuter(x, y, size), SquareInner(x, y, size), DotSize(size);
    assert PenAfter(o, 1) == Pen(Point(x, y), Point(x, y));
    assert PenAfter(o, 2) == Pen(Point(x, y + size), Point(x, y));
    assert PenAfter(o, 3) == Pen(Point(x + size, y + size), Point(x, y));
    assert PenAfter(o, 4) == Pen(Point(x + size, y), Point(x, y));
    assert PenAfter(o, 5) == Pen(Point(x, y), Point(x, y));
    var s := Point(x + d, y + d);
    assert PenAfter(i, 1) == Pen(s, s);
    assert PenAfter(i, 2) == Pen(Point(x + size - d, y + d), s);
    assert PenAfter(i, 3) == Pen(Point(x + size - d, y + size - d), s);
    assert PenAfter(i, 4) == Pen(Point(x + d, y + size - d), s);
    assert PenAfter(i, 5) == Pen(s, s);
    TraceAppend(o, i);
  }

  /** For a positive size the outer square turns counter-clockwise on screen
      and the inner one clockwise: twice their signed areas are -size^2*2 and
      (5*size/7)^2*2. */
  lemma SquareWinding(x: real, y: real, size: real)
    requires size > 0.0
    ensures var t := Trace(SquarePath(x, y, size));
      && TwiceSignedArea(t[0..4]) == -2.0 * size * size < 0.0
      && TwiceSignedArea(t[5..9]) == 2.0 * (5.0 * size / 7.0) * (5.0 * size / 7.0) > 0.0
  {
    SquareTrace(x, y, size);
    var t := Trace(SquarePath(x, y, size));
    var o, i := t[0..4], t[5..9];
    assert FanSum(o, 3) == 0.0;
    assert FanSum(o, 2) == Cross(o[2], o[3], o[0]);
    assert FanSum(o, 1) == Cross(o[1], o[2], o[0]) + Cross(o[2], o[3], o[0]);
    assert FanSum(i, 3) == 0.0;
    assert FanSum(i, 2) == Cross(i[2], i[3], i[0]);
    assert FanSum(i, 1) == Cross(i[1], i[2], i[0]) + Cross(i[2], i[3], i[0]);
  }

  /** Every point lies in the marker's box, and the inner square's points in
      the box inset by one module. */
  lemma SquareInBox(x: real, y: real, size: real)
    requires size >= 0.0
    ensures StaysInBox(SquarePath(x, y, size), x, y, x + size, y + size)
    ensures var d := DotSize(size);
      StaysInBox(SquareInner(x, y, size), x + d, y + d, x + size - d, y + size - d)
  {
    SquareTrace(x, y, size);
    var d := DotSize(size);
    var i := SquareInner(x, y, size);
    assert Trace(i) == Trace(SquarePath(x, y, size))[5..] by {
      TraceAppend(SquareOuter(x, y, size), i);
    }
  }

  // ---------------------------------------------------------------- rounded inner square

  /** The inner rounded square shared by the extra-rounded style (which leaves
      it open) and style_2 / style_3 (which close it): from (x+2.5d, y+d),
      runs of 2d joined by clockwise quarter arcs of radius 1.5d. */
  function InnerRoundedSquare(x: real, y: real, size: real): Path
  {
    var d := DotSize(size);
    var r, l := 1.5 * d, 2.0 * d;
    [ MoveTo(x + d + r, y + d),
      HorizontalBy(l),
      ArcBy(r, r, false, true, r, r),
      VerticalBy(l),
      ArcBy(r, r, false, true, -r, r),
      HorizontalBy(-l),
      ArcBy(r, r, false, true, -r, -r),
      VerticalBy(-l),
      ArcBy(r, r, false, true, r, -r) ]
  }

  function ClosedInnerRoundedSquare(x: real, y: real, size: real): Path
  {
    InnerRoundedSquare(x, y, size) + [ClosePath]
  }

  lemma InnerRoundedSquareTrace(x: real, y: real, size: real)
    ensures var d := DotSize(size);
      Trace(ClosedInnerRoundedSquare(x, y, size)) ==
        [ Point(x + 2.5 * d, y + d), Point(x + 4.5 * d, y + d), Point(x + 6.0 * d, y + 2.5 * d),
          Point(x + 6.0 * d, y + 4.5 * d), Point(x + 4.5 * d, y + 6.0 * d), Point(x + 2.5 * d, y + 6.0 * d),
          Point(x + d, y + 4.5 * d), Point(x + d, y + 2.5 * d), Point(x + 2.5 * d, y + d),
          Point(x + 2.5 * d, y + d) ]
  {
    var p, d := ClosedInnerRoundedSquare(x, y, size), DotSize(size);
    var s := Point(x + 2.5 * d, y + d);
    assert PenAfter(p, 1) == Pen(s, s);
    assert PenAfter(p, 2) == Pen(Point(x + 4.5 * d, y + d), s);
    assert PenAfter(p, 3) == Pen(Point(x + 6.0 * d, y + 2.5 * d), s);
    assert PenAfter(p, 4) == Pen(Point(x + 6.0 * d, y + 4.5 * d), s);
    assert PenAfter(p, 5) == Pen(Point(x + 4.5 * d, y + 6.0 * d), s);
    assert PenAfter(p, 6) == Pen(Point(x + 2.5 * d, y + 6.0 * d), s);
    assert PenAfter(p, 7) == Pen(Point(x + d, y + 4.5 * d), s);
    assert PenAfter(p, 8) == Pen(Point(x + d, y + 2.5 * d), s);
    assert PenAfter(p, 9) == Pen(s, s);
    assert PenAfter(p, 10) == Pen(s, s);
  }

  /** Without its closepath the inner contour already ends where it started;
      the open contour's points are those of the closed one but the last. */
  lemma InnerRoundedSquareOpen(x: real, y: real, size: real)
    ensures Trace(InnerRoundedSquare(x, y, size)) == Trace(ClosedInnerRoundedSquare(x, y, size))[..9]
    ensures ReturnsToStart(InnerRoundedSquare(x, y, size))
  {
    var a := InnerRoundedSquare(x, y, size);
    InnerRoundedSquareTrace(x, y, size);
    forall k | 0 <= k <= 9
      ensures PenAfter(a + [ClosePath], k) == PenAfter(a, k)
    {
      PenAfterPrefix(a, [ClosePath], k);
    }
  }

  /** The centres of the four inner corner arcs, in the order the contour
      reaches them: (x+4.5d, y+2.5d) top-right, (x+4.5d, y+4.5d) bottom-right,
      (x+2.5d, y+4.5d) bottom-left, (x+2.5d, y+2.5d) top-left. */
  function InnerCorners(x: real, y: real, size: real): seq<Point>
  {
    var d := DotSize(size);
    [ Point(x + 4.5 * d, y + 2.5 * d), Point(x + 4.5 * d, y + 4.5 * d),
      Point(x + 2.5 * d, y + 4.5 * d), Point(x + 2.5 * d, y + 2.5 * d) ]
  }

  /** The inner rounded square: closed, starting at (x+2.5d, y+d), with
      runs of 2d and clockwise quarter arcs of radius 1.5d, and every point
      inside the box [x+d, x+6d] x [y+d, y+6d]. */
  lemma InnerRoundedSquareShape(x: real, y: real, size: real)
    requires size >= 0.0
    ensures var p, d := ClosedInnerRoundedSquare(x, y, size), DotSize(size);
      && ReturnsToStart(p) && p[|p| - 1] == ClosePath
      && Trace(p)[0] == Point(x + 2.5 * d, y + d)
      && ArcsSweep(p, true)
      && (forall k | 0 <= k < |p| && p[k].ArcBy? :: p[k].rx == p[k].ry == 1.5 * d && !p[k].largeArc)
      && (forall k | 0 <= k < |p| && p[k].HorizontalBy? :: p[k].dx == 2.0 * d || p[k].dx == -2.0 * d)
      && (forall k | 0 <= k < |p| && p[k].VerticalBy? :: p[k].dy == 2.0 * d || p[k].dy == -2.0 * d)
      && StaysInBox(p, x + d, y + d, x + 6.0 * d, y + 6.0 * d)
  {
    InnerRoundedSquareTrace(x, y, size);
  }

  /** Each corner of the inner rounded square is a quarter arc centred 1.5d
      in from the corner of the inset box [x+d, x+6d] x [y+d, y+6d]. */
  lemma InnerRoundedSquareCorners(x: real, y: real, size: real)
    ensures var p, c := ClosedInnerRoundedSquare(x, y, size), InnerCorners(x, y, size);
      && ArcCentredAt(p, 2, c[0]) && ArcCentredAt(p, 4, c[1])
      && ArcCentredAt(p, 6, c[2]) && ArcCentredAt(p, 8, c[3])
  {
    InnerRoundedSquareTrace(x, y, size);
    var p := ClosedInnerRoundedSquare(x, y, size);
    var t := Trace(p);
    assert PenAfter(p, 2).at == t[1] && PenAfter(p, 4).at == t[3];
    assert PenAfter(p, 6).at == t[5] && PenAfter(p, 8).at == t[7];
    QuarterArc(t[1], p[2]);
    QuarterArc(t[3], p[4]);
    QuarterArc(t[5], p[6]);
    QuarterArc(t[7], p[8]);
  }

  // ---------------------------------------------------------------- extra-rounded

  /** The outer contour: from (x, y+2.5d) down a run of 2d, then round the
      box counter-clockwise with quarter arcs of radius 2.5d and runs of 2d.
      It has no closepath; its relative moves bring it back to the start. */
  function ExtraRoundedOuter(x: real, y: real, size: real): Path
  {
    var d := DotSize(size);
    var r, l := 2.5 * d, 2.0 * d;
    [ MoveTo(x, y + r),
      VerticalBy(l),
      ArcBy(r, r, false, false, d * 2.5, d * 2.5),
      HorizontalBy(l),
      ArcBy(r, r, false, false, d * 2.5, -d * 2.5),
      VerticalBy(-l),
      ArcBy(r, r, false, false, -d * 2.5, -d * 2.5),
      HorizontalBy(-l),
      ArcBy(r, r, false, false, -d * 2.5, d * 2.5) ]
  }

  function ExtraRoundedPath(x: real, y: real, size: real): Path
  {
    ExtraRoundedOuter(x, y, size) + InnerRoundedSquare(x, y, size)
  }

  lemma ExtraRoundedOuterTrace(x: real, y: real, size: real)
    ensures var d := DotSize(size);
      Trace(ExtraRoundedOuter(x, y, size)) ==
        [ Point(x, y + 2.5 * d), Point(x, y + 4.5 * d), Point(x + 2.5 * d, y + size),
          Point(x + 4.5 * d, y + size), Point(x + size, y + 4.5 * d), Point(x + size, y + 2.5 * d),
          Point(x + 4.5 * d, y), Point(x + 2.5 * d, y), Point(x, y + 2.5 * d) ]
  {
    var p, d := ExtraRoundedOuter(x, y, size), DotSize(size);
    var s := Point(x, y + 2.5 * d);
    assert PenAfter(p, 1) == Pen(s, s);
    assert PenAfter(p, 2) == Pen(Point(x, y + 4.5 * d), s);
    assert PenAfter(p, 3) == Pen(Point(x + 2.5 * d, y + size), s);
    assert PenAfter(p, 4) == Pen(Point(x + 4.5 * d, y + size), s);
    assert PenAfter(p, 5) == Pen(Point(x + size, y + 4.5 * d), s);
    assert PenAfter(p, 6) == Pen(Point(x + size, y + 2.5 * d), s);
    assert PenAfter(p, 7) == Pen(Point(x + 4.5 * d, y), s);
    assert PenAfter(p, 8) == Pen(Point(x + 2.5 * d, y), s);
    assert PenAfter(p, 9) == Pen(s, s);
  }

  /** Neither contour has a closepath; each still ends where it started,
      the outer one at (x, y+2.5d), the inner one at (x+2.5d, y+d). */
  lemma ExtraRoundedContoursReturn(x: real, y: real, size: real)
    ensures ClosePath !in ExtraRoundedPath(x, y, size)
    ensures var d, o, i := DotSize(size), ExtraRoundedOuter(x, y, size), InnerRoundedSquare(x, y, size);
      && ReturnsToStart(o) && Trace(o)[0] == Point(x, y + 2.5 * d)
      && ReturnsToStart(i) && Trace(i)[0] == Point(x + 2.5 * d, y + d)
  {
    ExtraRoundedOuterTrace(x, y, size);
    InnerRoundedSquareTrace(x, y, size);
    InnerRoundedSquareOpen(x, y, size);
    var p := ExtraRoundedPath(x, y, size);
    forall k | 0 <= k < |p|
      ensures p[k] != ClosePath
    {
    }
  }

  /** The outer frame: four quarter arcs of radius 2.5d turning
      counter-clockwise, straight runs of 2d, every point in the marker's box. */
  lemma ExtraRoundedFrame(x: real, y: real, size: real)
    requires size >= 0.0
    ensures var p, d := ExtraRoundedOuter(x, y, size), DotSize(size);
      && ArcsSweep(p, false)
      && (forall k | 0 <= k < |p| && p[k].ArcBy? :: p[k].rx == p[k].ry == 2.5 * d && !p[k].largeArc)
      && (forall k | 0 <= k < |p| && p[k].HorizontalBy? :: p[k].dx == 2.0 * d || p[k].dx == -2.0 * d)
      && (forall k | 0 <= k < |p| && p[k].VerticalBy? :: p[k].dy == 2.0 * d || p[k].dy == -2.0 * d)
      && StaysInBox(p, x, y, x + size, y + size)
  {
    ExtraRoundedOuterTrace(x, y, size);
  }

  /** Each outer arc is centred on the centre of an inner corner arc (the
      bottom-left, bottom-right, top-right and top-left corners in drawing
      order), so the frame is one module thick all round. */
  lemma ExtraRoundedConcentric(x: real, y: real, size: real)
    ensures var p, c := ExtraRoundedOuter(x, y, size), InnerCorners(x, y, size);
      && ArcCentredAt(p, 2, c[2]) && ArcCentredAt(p, 4, c[1])
      && ArcCentredAt(p, 6, c[0]) && ArcCentredAt(p, 8, c[3])
  {
    ExtraRoundedOuterTrace(x, y, size);
    var p := ExtraRoundedOuter(x, y, size);
    var t := Trace(p);
    assert PenAfter(p, 2).at == t[1] && PenAfter(p, 4).at == t[3];
    assert PenAfter(p, 6).at == t[5] && PenAfter(p, 8).at == t[7];
    QuarterArc(t[1], p[2]);
    QuarterArc(t[3], p[4]);
    QuarterArc(t[5], p[6]);
    QuarterArc(t[7], p[8]);
  }

  lemma ExtraRoundedInBox(x: real, y: real, size: real)
    requires size >= 0.0
    ensures StaysInBox(ExtraRoundedPath(x, y, size), x, y, x + size, y + size)
  {
    var o, i, d := ExtraRoundedOuter(x, y, size), InnerRoundedSquare(x, y, size), DotSize(size);
    ExtraRoundedFrame(x, y, size);
    InnerRoundedSquareShape(x, y, size);
    InnerRoundedSquareOpen(x, y, size);
    TraceAppend(o, i);
    assert StaysInBox(ClosedInnerRoundedSquare(x, y, size), x + d, y + d, x + 6.0 * d, y + 6.0 * d);
    assert StaysInBox(i, x, y, x + size, y + size) by {
      forall pt | pt in Trace(i) ensures InBox(pt, x, y, x + size, y + size) {
        assert pt in Trace(ClosedInnerRoundedSquare(x, y, size));
      }
    }
  }

  // ---------------------------------------------------------------- style_2 and style_4 frame

  /** The frame shared by style_2 (r = 2.5d) and style_4 (r = 3.5d): rounded
      with radius r at the bottom-left, top-right and top-left corners, square
      at the bottom-right, with straight runs of size - 2r, closed. */
  function AsymmetricFrame(x: real, y: real, size: real, r: real): Path
  {
    var l := size - 2.0 * r;
    [ MoveTo(x, y + r),
      VerticalBy(l),
      ArcBy(r, r, false, false, r, r),
      HorizontalBy(l),
      LineTo(x + size, y + size),
      LineTo(x + size, y + r),
      ArcBy(r, r, false, false, -r, -r),
      HorizontalBy(-l),
      ArcBy(r, r, false, false, -r, r),
      ClosePath ]
  }

  lemma AsymmetricFrameTrace(x: real, y: real, size: real, r: real)
    ensures Trace(AsymmetricFrame(x, y, size, r)) ==
      [ Point(x, y + r), Point(x, y + size - r), Point(x + r, y + size), Point(x + size - r, y + size),
        Point(x + size, y + size), Point(x + size, y + r), Point(x + size - r, y), Point(x + r, y),
        Point(x, y + r), Point(x, y + r) ]
  {
    var p := AsymmetricFrame(x, y, size, r);
    var s := Point(x, y + r);
    assert PenAfter(p, 1) == Pen(s, s);
    assert PenAfter(p, 2) == Pen(Point(x, y + size - r), s);
    assert PenAfter(p, 3) == Pen(Point(x + r, y + size), s);
    assert PenAfter(p, 4) == Pen(Point(x + size - r, y + size), s);
    assert PenAfter(p, 5) == Pen(Point(x + size, y + size), s);
    assert PenAfter(p, 6) == Pen(Point(x + size, y + r), s);
    assert PenAfter(p, 7) == Pen(Point(x + size - r, y), s);
    assert PenAfter(p, 8) == Pen(Point(x + r, y), s);
    assert PenAfter(p, 9) == Pen(s, s);
    assert PenAfter(p, 10) == Pen(s, s);
  }

  /** The frame's corners: counter-clockwise quarter arcs of radius r centred
      r in from the bottom-left, top-right and top-left corners, a right angle
      at (x+size, y+size) between a horizontal line in and a vertical line
      out, and a closepath back to (x, y+r). */
  lemma AsymmetricFrameCorners(x: real, y: real, size: real, r: real)
    ensures var p := AsymmetricFrame(x, y, size, r);
      && ArcsSweep(p, false)
      && ArcCentredAt(p, 2, Point(x + r, y + size - r))
      && ArcCentredAt(p, 6, Point(x + size - r, y + r))
      && ArcCentredAt(p, 8, Point(x + r, y + r))
      && Point(x + size, y + size) in Trace(p)
      && p[4].LineTo? && p[5].LineTo?
      && Trace(p)[3..6] == [Point(x + size - r, y + size), Point(x + size, y + size), Point(x + size, y + r)]
      && p[|p| - 1] == ClosePath && ReturnsToStart(p) && Trace(p)[0] == Point(x, y + r)
  {
    AsymmetricFrameTrace(x, y, size, r);
    var p := AsymmetricFrame(x, y, size, r);
    var t := Trace(p);
    assert PenAfter(p, 2).at == t[1] && PenAfter(p, 6).at == t[5] && PenAfter(p, 8).at == t[7];
    QuarterArc(t[1], p[2]);
    QuarterArc(t[5], p[6]);
    QuarterArc(t[7], p[8]);
  }

  // ---------------------------------------------------------------- style_2

  function Style2Radius(size: real): real
  {
    2.5 * DotSize(size)
  }

  function Style2Path(x: real, y: real, size: real): Path
  {
    AsymmetricFrame(x, y, size, Style2Radius(size)) + ClosedInnerRoundedSquare(x, y, size)
  }

  /** style_2 visits the frame's points and then the inner rounded square's;
      with r = 2.5d the straight runs of the frame are 2d long. */
  lemma Style2Shape(x: real, y: real, size: real)
    ensures var r, d := Style2Radius(size), DotSize(size);
      && size - 2.0 * r == 2.0 * d
      && Trace(Style2Path(x, y, size)) ==
           Trace(AsymmetricFrame(x, y, size, r)) + Trace(ClosedInnerRoundedSquare(x, y, size))
      && Trace(Style2Path(x, y, size))[9] == Point(x, y + r)
      && Point(x + size, y + size) in Trace(Style2Path(x, y, size))
  {
    var r := Style2Radius(size);
    AsymmetricFrameTrace(x, y, size, r);
    TraceAppend(AsymmetricFrame(x, y, size, r), ClosedInnerRoundedSquare(x, y, size));
  }

  /** The frame turns counter-clockwise (sweep 0) and the inner square
      clockwise (sweep 1), and every point lies in the marker's box. */
  lemma Style2InBox(x: real, y: real, size: real)
    requires size >= 0.0
    ensures ArcsSweep(AsymmetricFrame(x, y, size, Style2Radius(size)), false)
    ensures ArcsSweep(ClosedInnerRoundedSquare(x, y, size), true)
    ensures StaysInBox(Style2Path(x, y, size), x, y, x + size, y + size)
  {
    var r, d := Style2Radius(size), DotSize(size);
    var f, i := AsymmetricFrame(x, y, size, r), ClosedInnerRoundedSquare(x, y, size);
    assert ArcsSweep(f, false) by {
      AsymmetricFrameCorners(x, y, size, r);
    }
    assert StaysInBox(f, x, y, x + size, y + size) by {
      AsymmetricFrameTrace(x, y, size, r);
    }
    InnerRoundedSquareShape(x, y, size);
    assert StaysInBox(i, x, y, x + size, y + size) by {
      forall pt | pt in Trace(i) ensures InBox(pt, x, y, x + size, y + size) {
        assert InBox(pt, x + d, y + d, x + 6.0 * d, y + 6.0 * d);
      }
    }
    TraceAppend(f, i);
  }

  // ---------------------------------------------------------------- style_3

  /** Square at the top-left and bottom-right, rounded with radius 2.5d at the
      top-right and bottom-left, turning clockwise; the left edge from
      (x, y+size-r) up to (x, y+r) is drawn only by the closepath. */
  function Style3Outer(x: real, y: real, size: real): Path
  {
    var r := 2.5 * DotSize(size);
    var l := size - 2.0 * r;
    [ MoveTo(x, y + r),
      LineTo(x, y),
      LineTo(x + r, y),
      HorizontalBy(l),
      ArcBy(r, r, false, true, r, r),
      VerticalBy(l),
      LineTo(x + size, y + size),
      LineTo(x + size - r, y + size),
      HorizontalBy(-l),
      ArcBy(r, r, false, true, -r, -r),
      ClosePath ]
  }

  function Style3Path(x: real, y: real, size: real): Path
  {
    Style3Outer(x, y, size) + ClosedInnerRoundedSquare(x, y, size)
  }

  lemma Style3OuterTrace(x: real, y: real, size: real)
    ensures var r := 2.5 * DotSize(size);
      Trace(Style3Outer(x, y, size)) ==
        [ Point(x, y + r), Point(x, y), Point(x + r, y), Point(x + size - r, y),
          Point(x + size, y + r), Point(x + size, y + size - r), Point(x + size, y + size),
          Point(x + size - r, y + size), Point(x + r, y + size), Point(x, y + size - r),
          Point(x, y + r) ]
  {
    var p, r := Style3Outer(x, y, size), 2.5 * DotSize(size);
    var s := Point(x, y + r);
    assert PenAfter(p, 1) == Pen(s, s);
    assert PenAfter(p, 2) == Pen(Point(x, y), s);
    assert PenAfter(p, 3) == Pen(Point(x + r, y), s);
    assert PenAfter(p, 4) == Pen(Point(x + size - r, y), s);
    assert PenAfter(p, 5) == Pen(Point(x + size, y + r), s);
    assert PenAfter(p, 6) == Pen(Point(x + size, y + size - r), s);
    assert PenAfter(p, 7) == Pen(Point(x + size, y + size), s);
    assert PenAfter(p, 8) == Pen(Point(x + size - r, y + size), s);
    assert PenAfter(p, 9) == Pen(Point(x + r, y + size), s);
    assert PenAfter(p, 10) == Pen(Point(x, y + size - r), s);
    assert PenAfter(p, 11) == Pen(s, s);
  }

  /** Right angles at (x, y) and (x+size, y+size); clockwise quarter arcs of
      radius 2.5d centred r in from the top-right and bottom-left corners. */
  lemma Style3Corners(x: real, y: real, size: real)
    ensures var p, r := Style3Outer(x, y, size), 2.5 * DotSize(size);
      && p[1].LineTo? && p[2].LineTo?
      && Trace(p)[0..3] == [Point(x, y + r), Point(x, y), Point(x + r, y)]
      && p[6].LineTo? && p[7].LineTo?
      && Trace(p)[5..8] == [Point(x + size, y + size - r), Point(x + size, y + size), Point(x + size - r, y + size)]
      && ArcsSweep(p, true)
      && ArcCentredAt(p, 4, Point(x + size - r, y + r))
      && ArcCentredAt(p, 9, Point(x + r, y + size - r))
  {
    Style3OuterTrace(x, y, size);
    var p, t := Style3Outer(x, y, size), Trace(Style3Outer(x, y, size));
    assert PenAfter(p, 4).at == t[3] && PenAfter(p, 9).at == t[8];
    QuarterArc(t[3], p[4]);
    QuarterArc(t[8], p[9]);
  }

  /** The only closepath is the last command, and the command before it ends
      at (x, y+size-r): for a nonzero size the closepath alone draws the left
      edge up to (x, y+r). */
  lemma Style3LeftEdge(x: real, y: real, size: real)
    ensures var p, r := Style3Outer(x, y, size), 2.5 * DotSize(size);
      && p[10] == ClosePath && (forall k | 0 <= k < 10 :: p[k] != ClosePath)
      && PenAfter(p, 10).at == Point(x, y + size - r)
      && PenAfter(p, 11).at == Point(x, y + r)
      && (size != 0.0 ==> PenAfter(p, 10).at != PenAfter(p, 11).at)
  {
    Style3OuterTrace(x, y, size);
    var p := Style3Outer(x, y, size);
    assert PenAfter(p, 10).at == Trace(p)[9] && PenAfter(p, 11).at == Trace(p)[10];
  }

  /** The fan sum of a ten-point polygon, written out. */
  lemma FanSumOfTen(v: seq<Point>)
    requires |v| == 10
    ensures FanSum(v, 1) == Cross(v[1], v[2], v[0]) + Cross(v[2], v[3], v[0]) + Cross(v[3], v[4], v[0])
      + Cross(v[4], v[5], v[0]) + Cross(v[5], v[6], v[0]) + Cross(v[6], v[7], v[0])
      + Cross(v[7], v[8], v[0]) + Cross(v[8], v[9], v[0])
  {
    assert FanSum(v, 9) == 0.0;
    assert FanSum(v, 8) == Cross(v[8], v[9], v[0]);
    assert FanSum(v, 7) == Cross(v[7], v[8], v[0]) + FanSum(v, 8);
    assert FanSum(v, 6) == Cross(v[6], v[7], v[0]) + FanSum(v, 7);
    assert FanSum(v, 5) == Cross(v[5], v[6], v[0]) + FanSum(v, 6);
    assert FanSum(v, 4) == Cross(v[4], v[5], v[0]) + FanSum(v, 5);
    assert FanSum(v, 3) == Cross(v[3], v[4], v[0]) + FanSum(v, 4);
    assert FanSum(v, 2) == Cross(v[2], v[3], v[0]) + FanSum(v, 3);
  }

  /** Cross products are unchanged by moving all three points together. */
  lemma CrossShift(a: Point, b: Point, c: Point, dx: real, dy: real)
    ensures Cross(Point(a.x + dx, a.y + dy), Point(b.x + dx, b.y + dy), Point(c.x + dx, c.y + dy))
      == Cross(a, b, c)
  {
  }

  /** The fan sum of a ten-point polygon does not change when the polygon is moved. */
  lemma FanSumShift(u: seq<Point>, v: seq<Point>, dx: real, dy: real)
    requires |u| == |v| == 10
    requires forall k | 0 <= k < 10 :: v[k] == Point(u[k].x + dx, u[k].y + dy)
    ensures FanSum(v, 1) == FanSum(u, 1)
  {
    FanSumOfTen(u);
    FanSumOfTen(v);
    forall k | 1 <= k < 9
      ensures Cross(v[k], v[k + 1], v[0]) == Cross(u[k], u[k + 1], u[0])
    {
      CrossShift(u[k], u[k + 1], u[0], dx, dy);
    }
  }

  /** Style_3's corner polygon with its first point moved to the origin. */
  function Style3CornerPolygon(size: real): seq<Point>
  {
    var s, r := size, 2.5 * DotSize(size);
    [ Point(0.0, 0.0), Point(0.0, -r), Point(r, -r), Point(s - r, -r), Point(s, 0.0),
      Point(s, s - 2.0 * r), Point(s, s - r), Point(s - r, s - r), Point(r, s - r),
      Point(0.0, s - 2.0 * r) ]
  }

  /** Twice its area is size^2 - r^2 with r = 2.5d, that is (171/98) size^2. */
  lemma Style3CornerArea(size: real)
    ensures FanSum(Style3CornerPolygon(size), 1) == (171.0 / 98.0) * size * size
    ensures size != 0.0 ==> (171.0 / 98.0) * size * size > 0.0
  {
    FanSumOfTen(Style3CornerPolygon(size));
  }

  /** Unlike style_2, both contours of style_3 turn clockwise: all arcs of
      both carry sweep flag 1, and the frame's corner polygon has the positive
      signed area size^2 - r^2 = (171/196) size^2 (the box less two
      corner triangles). The
      even-odd rule still cuts the hole. */
  lemma Style3SameWinding(x: real, y: real, size: real)
    ensures ArcsSweep(Style3Outer(x, y, size), true) && ArcsSweep(ClosedInnerRoundedSquare(x, y, size), true)
    ensures TwiceSignedArea(Trace(Style3Outer(x, y, size))[..10]) == (171.0 / 98.0) * size * size
    ensures size != 0.0 ==> (171.0 / 98.0) * size * size > 0.0
  {
    Style3OuterTrace(x, y, size);
    assert ArcsSweep(ClosedInnerRoundedSquare(x, y, size), true) by {
      var p := ClosedInnerRoundedSquare(x, y, size);
      forall c | c in p && c.ArcBy? ensures c.sweep {
        var k :| 0 <= k < |p| && p[k] == c;
      }
    }
    var v := Trace(Style3Outer(x, y, size))[..10];
    var u := Style3CornerPolygon(size);
    var r := 2.5 * DotSize(size);
    assert forall k | 0 <= k < 10 :: v[k] == Point(u[k].x + x, u[k].y + (y + r));
    FanSumShift(u, v, x, y + r);
    Style3CornerArea(size);
  }

  lemma Style3InBox(x: real, y: real, size: real)
    requires size >= 0.0
    ensures StaysInBox(Style3Path(x, y, size), x, y, x + size, y + size)
  {
    Style3OuterTrace(x, y, size);
    InnerRoundedSquareTrace(x, y, size);
    TraceAppend(Style3Outer(x, y, size), ClosedInnerRoundedSquare(x, y, size));
  }

  // ---------------------------------------------------------------- style_4

  function Style4Radius(size: real): real
  {
    3.5 * DotSize(size)
  }

  /** A circle of radius 2.5d about the marker's centre, drawn as two half
      arcs: from its top point down to its bottom point and back, closed. */
  function InnerCircle(x: real, y: real, size: real): Path
  {
    var rc := 2.5 * DotSize(size);
    var cx, cy := x + size / 2.0, y + size / 2.0;
    [ MoveTo(cx, cy - rc),
      ArcBy(rc, rc, false, false, 0.0, 2.0 * rc),
      ArcBy(rc, rc, false, false, 0.0, -2.0 * rc),
      ClosePath ]
  }

  function Style4Path(x: real, y: real, size: real): Path
  {
    AsymmetricFrame(x, y, size, Style4Radius(size)) + InnerCircle(x, y, size)
  }

  /** With r = 3.5d = size/2 the frame's straight runs have length zero and
      all three of its arcs are centred on the marker's centre: the frame is
      three quarters of the inscribed circle plus the square bottom-right
      corner (x+size, y+size). */
  lemma Style4Frame(x: real, y: real, size: real)
    ensures var p, c := AsymmetricFrame(x, y, size, Style4Radius(size)), Point(x + size / 2.0, y + size / 2.0);
      && Style4Radius(size) == size / 2.0
      && p[1] == VerticalBy(0.0) && p[3] == HorizontalBy(0.0) && p[7] == HorizontalBy(0.0)
      && ArcCentredAt(p, 2, c) && ArcCentredAt(p, 6, c) && ArcCentredAt(p, 8, c)
      && p[2].rx == size / 2.0
      && Point(x + size, y + size) in Trace(p)
  {
    var r, c := Style4Radius(size), Point(x + size / 2.0, y + size / 2.0);
    AsymmetricFrameCorners(x, y, size, r);
    assert r == size / 2.0;
    assert Point(x + r, y + size - r) == c && Point(x + size - r, y + r) == c && Point(x + r, y + r) == c;
  }

  lemma InnerCircleTrace(x: real, y: real, size: real)
    ensures var rc, cx, cy := 2.5 * DotSize(size), x + size / 2.0, y + size / 2.0;
      Trace(InnerCircle(x, y, size)) == [ Point(cx, cy - rc), Point(cx, cy + rc), Point(cx, cy - rc), Point(cx, cy - rc) ]
  {
    var p, rc := InnerCircle(x, y, size), 2.5 * DotSize(size);
    var top := Point(x + size / 2.0, y + size / 2.0 - rc);
    assert PenAfter(p, 1) == Pen(top, top);
    assert PenAfter(p, 2) == Pen(Point(top.x, y + size / 2.0 + rc), top);
    assert PenAfter(p, 3) == Pen(top, top);
    assert PenAfter(p, 4) == Pen(top, top);
  }

  /** The inner contour is the circle of radius 2.5d about (x+size/2, y+size/2):
      each of its two arcs spans a diameter, from the top point to the bottom
      point and back, both with sweep 0 like the frame's arcs, and the contour
      ends at the top point. */
  lemma Style4Circle(x: real, y: real, size: real)
    ensures var p, rc := InnerCircle(x, y, size), 2.5 * DotSize(size);
      var c := Point(x + size / 2.0, y + size / 2.0);
      && Trace(p) == [ Point(c.x, c.y - rc), Point(c.x, c.y + rc), Point(c.x, c.y - rc), Point(c.x, c.y - rc) ]
      && ArcCentredAt(p, 1, c) && ArcCentredAt(p, 2, c)
      && p[1].rx == rc && p[2].rx == rc
      && ArcsSweep(p, false)
      && ReturnsToStart(p)
  {
    InnerCircleTrace(x, y, size);
    var p := InnerCircle(x, y, size);
    assert PenAfter(p, 1).at == Trace(p)[0] && PenAfter(p, 2).at == Trace(p)[1];
    assert PenAfter(p, 3).at == Trace(p)[2];
  }

  lemma Style4InBox(x: real, y: real, size: real)
    requires size >= 0.0
    ensures StaysInBox(Style4Path(x, y, size), x, y, x + size, y + size)
  {
    var r := Style4Radius(size);
    var f, c := AsymmetricFrame(x, y, size, r), InnerCircle(x, y, size);
    assert StaysInBox(f, x, y, x + size, y + size) by {
      AsymmetricFrameTrace(x, y, size, r);
    }
    assert StaysInBox(c, x, y, x + size, y + size) by {
      InnerCircleTrace(x, y, size);
    }
    TraceAppend(f, c);
  }
}

/**
 * The QRCornerSquare builder: the dispatcher that picks a geometry generator
 * from the configured style identifier, the rotation adapter that wraps every
 * generator, and the single path node the builder keeps and overwrites on
 * every draw.
 */
module CornerSquareFigure {
  import opened SvgPath
  import opened CornerSquareTypes
  import opened CornerSquareShapes

  datatype Option<T> = None | Some(value: T)

  // ---------------------------------------------------------------- dispatch

  /** The generator the dispatcher's switch picks for an identifier: the style
      it names when it is one of the table's identifiers, the dot style for
      every other string. */
  function Generator(styleType: string): (g: CornerSquareType)
    ensures !g.Other?
    ensures styleType in AvailableTypes() ==> Name(g) == styleType
    ensures styleType !in AvailableTypes() ==> g == Dot
  {
    var t := Parse(styleType);
    if t.Other? then Dot else t
  }

  /** The path data each generator emits for a marker at (x, y) of side size. */
  function GeneratorPath(g: CornerSquareType, x: real, y: real, size: real): Path
  {
    match g
    case Square => SquarePath(x, y, size)
    case ExtraRounded => ExtraRoundedPath(x, y, size)
    case Style2 => Style2Path(x, y, size)
    case Style3 => Style3Path(x, y, size)
    case Style4 => Style4Path(x, y, size)
    case _ => DotPath(x, y, size)
  }

  /** The path data a draw call stores for the configured identifier. */
  function FigurePath(styleType: string, x: real, y: real, size: real): Path
  {
    GeneratorPath(Generator(styleType), x, y, size)
  }

  /** Each identifier of the table selects its own style, and the dot style
      is selected exactly by "dot" and by every identifier outside the table;
      the latter then draw exactly what "dot" draws. */
  lemma SelectsOwnStyle(styleType: string, x: real, y: real, size: real)
    ensures forall t | t in Known :: (Generator(styleType) == t <==> styleType == Name(t) || (t == Dot && styleType !in AvailableTypes()))
    ensures styleType !in AvailableTypes() ==> FigurePath(styleType, x, y, size) == FigurePath(Name(Dot), x, y, size)
  {
    AvailableTypesAreKnownNames();
    TableShape();
    if styleType in AvailableTypes() {
      forall t | t in Known
        ensures Generator(styleType) == t <==> styleType == Name(t)
      {
        ParseName(t);
      }
    }
  }

  /** Different styles emit different path data, for every position and size:
      the six generators have six different command counts. */
  lemma GeneratorsDistinct(g: CornerSquareType, h: CornerSquareType, x: real, y: real, size: real)
    requires g in Known && h in Known && g != h
    ensures GeneratorPath(g, x, y, size) != GeneratorPath(h, x, y, size)
  {
    assert |GeneratorPath(Dot, x, y, size)| == 6;
    assert |GeneratorPath(Square, x, y, size)| == 10;
    assert |GeneratorPath(ExtraRounded, x, y, size)| == 18;
    assert |GeneratorPath(Style2, x, y, size)| == 20;
    assert |GeneratorPath(Style3, x, y, size)| == 21;
    assert |GeneratorPath(Style4, x, y, size)| == 14;
  }

  /** Whatever identifier is configured, every pen position of the drawn
      marker (the end point of each command) lies in its box
      [x, x+size] x [y, y+size], except that the dot ring's top end point
      leaves it when size is below 0.2, where the fixed 0.1 offset is too
      large. The arc curves between end points are not checked here. */
  lemma FigureInBox(styleType: string, x: real, y: real, size: real)
    requires size >= 0.0
    ensures Generator(styleType) != Dot ==> StaysInBox(FigurePath(styleType, x, y, size), x, y, x + size, y + size)
    ensures Generator(styleType) == Dot ==> (StaysInBox(FigurePath(styleType, x, y, size), x, y, x + size, y + size) <==> size >= 0.2)
  {
    match Generator(styleType)
    case Dot => DotInBox(x, y, size);
    case Square => SquareInBox(x, y, size);
    case ExtraRounded => ExtraRoundedInBox(x, y, size);
    case Style2 => Style2InBox(x, y, size);
    case Style3 => Style3InBox(x, y, size);
    case Style4 => Style4InBox(x, y, size);
  }

  // ---------------------------------------------------------------- rotation

  /** Math.PI, the double nearest to pi, as an exact decimal. */
  const Pi: real := 3.141592653589793

  /** The transform rotate(degrees, cx, cy). */
  datatype Rotate = Rotate(degrees: real, cx: real, cy: real)

  /** The rotation in radians, 0 when the caller leaves it out. */
  function Angle(rotation: Option<real>): real
  {
    match rotation
    case None => 0.0
    case Some(r) => r
  }

  function Degrees(radians: real): real
  {
    180.0 * radians / Pi
  }

  function Radians(degrees: real): real
  {
    degrees * Pi / 180.0
  }

  /** Degrees and Radians are inverse, and a quarter, half and full turn in
      radians give 90, 180 and 360 degrees. */
  lemma DegreesRadians(radians: real, degrees: real)
    ensures Radians(Degrees(radians)) == radians
    ensures Degrees(Radians(degrees)) == degrees
    ensures Degrees(Pi / 2.0) == 90.0 && Degrees(Pi) == 180.0 && Degrees(2.0 * Pi) == 360.0
  {
  }

  /** The transform the rotation adapter stamps on the node: the rotation in
      degrees about the centre of the marker's box. */
  function RotationTransform(x: real, y: real, size: real, rotation: Option<real>): (t: Rotate)
    ensures t.cx - x == x + size - t.cx && t.cy - y == y + size - t.cy
    ensures Radians(t.degrees) == Angle(rotation)
    ensures rotation.None? ==> t.degrees == 0.0
  {
    Rotate(Degrees(Angle(rotation)), x + size / 2.0, y + size / 2.0)
  }

  // ---------------------------------------------------------------- the path node

  /** The three attributes the builder sets on its node. */
  datatype Attribute =
    | ClipRule(rule: string)
    | PathData(d: Path)
    | Transform(t: Rotate)

  /** An SVG path element, reduced to the attributes the builder sets. */
  class PathElement {
    var clipRule: Option<string>
    var d: Option<Path>
    var transform: Option<Rotate>

    /** A freshly created node carries none of the attributes. */
    constructor ()
      ensures clipRule == None && d == None && transform == None
    {
      clipRule := None;
      d := None;
      transform := None;
    }

    /** Sets one attribute, replacing its previous value and keeping the others. */
    method SetAttribute(a: Attribute)
      modifies this
      ensures a.ClipRule? ==> clipRule == Some(a.rule) && d == old(d) && transform == old(transform)
      ensures a.PathData? ==> d == Some(a.d) && clipRule == old(clipRule) && transform == old(transform)
      ensures a.Transform? ==> transform == Some(a.t) && clipRule == old(clipRule) && d == old(d)
    {
      match a
      case ClipRule(rule) => clipRule := Some(rule);
      case PathData(p) => d := Some(p);
      case Transform(t) => transform := Some(t);
    }
  }

  // ---------------------------------------------------------------- the builder

  class QRCornerSquare {
    var element: PathElement?
    const styleType: string

    constructor (styleType: string)
      ensures this.styleType == styleType && element == null
    {
      this.styleType := styleType;
      element := null;
    }

    /** The builder's node exists, has even-odd clipping, path data p and
        transform t. */
    predicate Shows(p: Path, t: Rotate)
      reads this, element
    {
      element != null && element.clipRule == Some("evenodd") && element.d == Some(p) && element.transform == Some(t)
    }

    /** The draw callback every generator hands to the rotation adapter:
        replaces the node with a fresh one carrying even-odd clipping and the
        path data. */
    method NewElement(p: Path)
      modifies this
      ensures element != null && fresh(element)
      ensures element.clipRule == Some("evenodd") && element.d == Some(p) && element.transform == None
    {
      var e := new PathElement();
      element := e;
      e.SetAttribute(ClipRule("evenodd"));
      e.SetAttribute(PathData(p));
    }

    /** Runs the draw callback, then rotates the node it created about the
        centre of the marker's box, also when the rotation is 0 or absent. */
    method RotateFigure(x: real, y: real, size: real, rotation: Option<real>, p: Path)
      modifies this
      ensures fresh(element) && Shows(p, RotationTransform(x, y, size, rotation))
    {
      var cx := x + size / 2.0;
      var cy := y + size / 2.0;
      NewElement(p);
      if element != null {
        element.SetAttribute(Transform(Rotate(180.0 * Angle(rotation) / Pi, cx, cy)));
      }
    }

    method BasicDot(x: real, y: real, size: real, rotation: Option<real>)
      modifies this
      ensures fresh(element) && Shows(DotPath(x, y, size), RotationTransform(x, y, size, rotation))
    {
      RotateFigure(x, y, size, rotation, DotPath(x, y, size));
    }

    method BasicSquare(x: real, y: real, size: real, rotation: Option<real>)
      modifies this
      ensures fresh(element) && Shows(SquarePath(x, y, size), RotationTransform(x, y, size, rotation))
    {
      RotateFigure(x, y, size, rotation, SquarePath(x, y, size));
    }

    method BasicExtraRounded(x: real, y: real, size: real, rotation: Option<real>)
      modifies this
      ensures fresh(element) && Shows(ExtraRoundedPath(x, y, size), RotationTransform(x, y, size, rotation))
    {
      RotateFigure(x, y, size, rotation, ExtraRoundedPath(x, y, size));
    }

    method BasicStyle2(x: real, y: real, size: real, rotation: Option<real>)
      modifies this
      ensures fresh(element) && Shows(Style2Path(x, y, size), RotationTransform(x, y, size, rotation))
    {
      RotateFigure(x, y, size, rotation, Style2Path(x, y, size));
    }

    method BasicStyle3(x: real, y: real, size: real, rotation: Option<real>)
      modifies this
      ensures fresh(element) && Shows(Style3Path(x, y, size), RotationTransform(x, y, size, rotation))
    {
      RotateFigure(x, y, size, rotation, Style3Path(x, y, size));
    }

    method BasicStyle4(x: real, y: real, size: real, rotation: Option<real>)
      modifies this
      ensures fresh(element) && Shows(Style4Path(x, y, size), RotationTransform(x, y, size, rotation))
    {
      RotateFigure(x, y, size, rotation, Style4Path(x, y, size));
    }

    method DrawDot(x: real, y: real, size: real, rotation: Option<real>)
      modifies this
      ensures fresh(element) && Shows(DotPath(x, y, size), RotationTransform(x, y, size, rotation))
    {
      BasicDot(x, y, size, rotation);
    }

    method DrawSquare(x: real, y: real, size: real, rotation: Option<real>)
      modifies this
      ensures fresh(element) && Shows(SquarePath(x, y, size), RotationTransform(x, y, size, rotation))
    {
      BasicSquare(x, y, size, rotation);
    }

    method DrawExtraRounded(x: real, y: real, size: real, rotation: Option<real>)
      modifies this
      ensures fresh(element) && Shows(ExtraRoundedPath(x, y, size), RotationTransform(x, y, size, rotation))
    {
      BasicExtraRounded(x, y, size, rotation);
    }

    method DrawStyle2(x: real, y: real, size: real, rotation: Option<real>)
      modifies this
      ensures fresh(element) && Shows(Style2Path(x, y, size), RotationTransform(x, y, size, rotation))
    {
      BasicStyle2(x, y, size, rotation);
    }

    method DrawStyle3(x: real, y: real, size: real, rotation: Option<real>)
      modifies this
      ensures fresh(element) && Shows(Style3Path(x, y, size), RotationTransform(x, y, size, rotation))
    {
      BasicStyle3(x, y, size, rotation);
    }

    method DrawStyle4(x: real, y: real, size: real, rotation: Option<real>)
      modifies this
      ensures fresh(element) && Shows(Style4Path(x, y, size), RotationTransform(x, y, size, rotation))
    {
      BasicStyle4(x, y, size, rotation);
    }

    /** Draws the configured style: compares the identifier with the table's
        values in the switch's order and falls back to the dot style. */
    method Draw(x: real, y: real, size: real, rotation: real)
      modifies this
      ensures fresh(element) && Shows(FigurePath(styleType, x, y, size), RotationTransform(x, y, size, Some(rotation)))
    {
      if styleType == Table[1].1 {
        DrawSquare(x, y, size, Some(rotation));
      } else if styleType == Table[2].1 {
        DrawExtraRounded(x, y, size, Some(rotation));
      } else if styleType == Table[0].1 {
        DrawDot(x, y, size, Some(rotation));
      } else if styleType == Table[3].1 {
        DrawStyle2(x, y, size, Some(rotation));
      } else if styleType == Table[4].1 {
        DrawStyle3(x, y, size, Some(rotation));
      } else if styleType == Table[5].1 {
        DrawStyle4(x, y, size, Some(rotation));
      } else {
        DrawDot(x, y, size, Some(rotation));
      }
    }
  }

  // ---------------------------------------------------------------- examples

  /** A 70-unit dot marker at the origin (one module is 10): the ring's outer
      radius is 35 and its inner radius 25, and without a rotation the node
      is rotated by 0 degrees about (35, 35). An unknown identifier draws the
      same ring. */
  lemma DotExample()
    ensures FigurePath("dot", 0.0, 0.0, 70.0) ==
      [ MoveTo(35.0, 0.0), ArcBy(35.0, 35.0, true, false, 0.1, 0.0), ClosePath,
        MoveBy(0.0, 10.0), ArcBy(25.0, 25.0, true, true, -0.1, 0.0), ClosePath ]
    ensures FigurePath("nonexistent", 0.0, 0.0, 70.0) == FigurePath("dot", 0.0, 0.0, 70.0)
    ensures RotationTransform(0.0, 0.0, 70.0, None) == Rotate(0.0, 35.0, 35.0)
  {
    AvailableTypesAreKnownNames();
    assert Generator("dot") == Dot;
    assert "nonexistent" !in AvailableTypes();
    assert Generator("nonexistent") == Dot;
    assert DotSize(70.0) == 10.0;
  }

  /** A 35-unit square marker at (10, 20) rotated a quarter turn: its frame
      runs round the box [10, 45] x [20, 55], its hole is inset by 5, and the
      node is rotated by 90 degrees about (27.5, 37.5). */
  lemma SquareExample()
    ensures FigurePath("square", 10.0, 20.0, 35.0) ==
      [ MoveTo(10.0, 20.0), VerticalBy(35.0), HorizontalBy(35.0), VerticalBy(-35.0), ClosePath,
        MoveTo(15.0, 25.0), HorizontalBy(25.0), VerticalBy(25.0), HorizontalBy(-25.0), ClosePath ]
    ensures RotationTransform(10.0, 20.0, 35.0, Some(Pi / 2.0)) == Rotate(90.0, 27.5, 37.5)
  {
    AvailableTypesAreKnownNames();
    assert Generator("square") == Square;
    assert DotSize(35.0) == 5.0;
  }
}

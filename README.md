# Corner-square markers of qr-styling, in Dafny

This project models the corner-square marker builder of the qr-styling library: the class
`QRCornerSquare` and the table of corner-square style identifiers. A QR code has three 7 x 7
finder patterns; the builder draws the outer square of each as one SVG path node. The style
identifier chooses the shape of the marker:

- `dot`: a ring;
- `square`: a square frame;
- `extra-rounded`: a frame rounded at every corner;
- `style_2`, `style_3`, `style_4`: asymmetric variants.

The model has four modules.

- `SvgPath` (svg_path.dfy): the subset of SVG path data the builder emits, as a datatype of
  commands over exact reals (`MoveTo`, `MoveBy`, `LineTo`, `HorizontalBy`, `VerticalBy`,
  `ArcBy`, `ClosePath`). It also has the pen semantics of SVG 1.1 section 8.3: a moveto opens a
  subpath, a closepath returns to that subpath's start. `Trace` lists the absolute points the
  pen reaches. The module also defines what the lemmas state about a path:
  - `ReturnsToStart`, `StaysInBox`, `TwiceSignedArea` (the shoelace sum);
  - `ArcCentredAt`: the centre of a circular arc from its end points and flags, as in SVG 1.1
    appendix F.6.5;
  - `ArcDrawn` (SVG 1.1 appendix F.6.2: an arc whose end points coincide is omitted, one with
    a zero radius is a straight line), `RadiusSpansChord` (appendix F.6.6) and `ArcsSweep`.
- `CornerSquareTypes` (corner_square_types.dfy): the identifier table, `availableCornerSquareTypes`
  and the style datatype. The style datatype has an `Other` case for any other configured string.
- `CornerSquareShapes` (corner_square_shapes.dfy): the six generators `_basicDot` …
  `_basicStyle4` as pure functions from `(x, y, size)` to the path they emit:
  - `DotPath`, `SquarePath`, `ExtraRoundedPath`, `Style2Path`, `Style3Path`, `Style4Path`;
  - the shared pieces `InnerRoundedSquare`, `AsymmetricFrame` and `InnerCircle`.
  
  Every length is a multiple of one module, `DotSize(size) = size / 7`, except the dot ring's
  fixed 0.1 chord.
- `CornerSquareFigure` (qr_corner_square.dfy): the stateful part of the builder.
  - The dispatcher `draw` picks a generator and falls back to the dot style.
  - The rotation adapter `_rotateFigure` runs the generator's draw callback. The callback
    replaces the `element` field with a fresh node carrying `clip-rule="evenodd"` and the path
    data. The adapter then sets `transform="rotate(deg, cx, cy)"` on that node.
  - The node is a class `PathElement` whose fields are the three attributes. The builder is a
    class `QRCornerSquare` with the mutable field `element`.

The direction of every rounded corner is checked from the arc flags. `ArcCentredAt` places
each arc's centre; `ArcsSweep` and the signed area give the direction each contour turns. The
signed area is positive for clockwise on screen, because the y axis points down.

Two outer contours turn the same way as the contour nested inside them:
- the style_3 outer contour, like its inner rounded square, turns clockwise: all arcs have
  sweep 1, and twice the signed area of its corner polygon is +171/98·size²
  (`Style3SameWinding`);
- the style_4 frame and its inner circle both use sweep 0.

The even-odd clip rule still cuts the hole in both. The square, extra-rounded, style_2 and dot
markers pair contours of opposite direction. The attribute the builder sets is `clip-rule`.

The box lemmas (`StaysInBox`) speak of pen positions, the end point of every command, not of
the curves the arcs draw between them. Both arcs of the dot ring span an unscaled 0.1 chord,
and both leave the box although their end points do not:
- the outer arc's centre sits 0.05 right of the box's centre line, so its circle reaches 0.05
  past the right edge at every size (`DotOuterCentre`, `DotRingOverhang`);
- the inner arc's centre sits 0.05 left of that line, so its circle reaches x + size/7 − 0.05,
  past the left edge by 0.05 − size/7 whenever size is below 0.35 (`DotInnerCentre`,
  `DotInnerOverhang`).

## Model

| member | source | states |
|---|---|---|
| CornerSquareTypes.AvailableTypes | src/figures/cornerSquare/QRCornerSquare.ts:4 | Object.values of the table is exactly the list dot, square, extra-rounded, style_2, style_3, style_4; its entries are pairwise distinct; the fallback "dot" is among them |
| CornerSquareTypes.Name | src/constants/cornerSquareTypes.ts:4-9 | definition, no contract: the identifier each style reads from the table (the `cornerSquareTypes.<key>` reads of ts:23-38); its properties are in `Parse`, `ParseName` and `TableShape` |
| CornerSquareTypes.Parse | src/figures/cornerSquare/QRCornerSquare.ts:22-44 | an identifier reads as a known style exactly when it is one of the advertised identifiers, and the style read back names the identifier |
| CornerSquareTypes.ParseName | src/constants/cornerSquareTypes.ts:3-10 | reading the name of any canonical style gives that style back |
| CornerSquareTypes.TableShape | src/constants/cornerSquareTypes.ts:3-10 | six entries; property names pairwise distinct and identifiers pairwise distinct; the six styles name them in order |
| CornerSquareTypes.TableValues | src/constants/cornerSquareTypes.ts:4-9 | each identifier equals its property name except extraRounded, whose identifier is "extra-rounded" |
| CornerSquareTypes.AvailableTypesAreKnownNames | src/constants/cornerSquareTypes.ts:3-10 | the identifier of every known style is among the advertised ones |
| CornerSquareShapes.DotPath | src/figures/cornerSquare/QRCornerSquare.ts:68-73 | definition, no contract: the ring's path data; its properties are in `DotTrace`, `DotRing`, `DotInBox`, `DotOuterCentre`, `DotInnerCentre` and `DotRadiiSpanChord` |
| CornerSquareShapes.DotTrace | src/figures/cornerSquare/QRCornerSquare.ts:68-73 | the ring visits the top centre, 0.1 to its right, back to the top centre, one module lower, 0.1 to the left, and back |
| CornerSquareShapes.DotRing | src/figures/cornerSquare/QRCornerSquare.ts:68-73 | outer large arc of radius size/2 with sweep 0; inner large arc of radius size/2 - dotSize with sweep 1, one module below; each subpath closes where it opened; both arcs are drawn exactly when size is nonzero |
| CornerSquareShapes.DotInBox | src/figures/cornerSquare/QRCornerSquare.ts:68-69 | every pen position (command end point) of the ring is in the marker's box exactly when size is at least 0.2 (the 0.1 offset is not scaled); the arc curves are not covered |
| CornerSquareShapes.DotOuterCentre | src/figures/cornerSquare/QRCornerSquare.ts:68-69 | any centre of the outer arc lies 0.05 right of the box's centre line, so its circle reaches 0.05 past the right edge of the box at every size |
| CornerSquareShapes.DotRingOverhang | src/figures/cornerSquare/QRCornerSquare.ts:68-69 | at size 0.26 every pen position is in the box, yet the outer arc is centred at (0.18, 0.12) with radius 0.13 and its circle passes (0.31, 0.12), outside the box |
| CornerSquareShapes.DotInnerCentre | src/figures/cornerSquare/QRCornerSquare.ts:71-72 | any centre of the inner arc lies 0.05 left of the box's centre line, so its circle reaches x + size/7 − 0.05, left of the box whenever size < 0.35 |
| CornerSquareShapes.DotInnerOverhang | src/figures/cornerSquare/QRCornerSquare.ts:71-72 | at size 0.2975 every pen position is in the box, yet the inner arc is centred at (0.09875, 0.13625) with radius 0.10625 and its circle passes (−0.0075, 0.13625), outside the box |
| CornerSquareShapes.DotRadiiSpanChord | src/figures/cornerSquare/QRCornerSquare.ts:69-72 | both radii reach across their 0.1 chord, so SVG keeps them, exactly when size is at least 0.14 |
| CornerSquareShapes.SquareOuter | src/figures/cornerSquare/QRCornerSquare.ts:90-94 | definition, no contract: the outer square contour; properties in `SquareTrace` and `SquareWinding` |
| CornerSquareShapes.SquareInner | src/figures/cornerSquare/QRCornerSquare.ts:95-99 | definition, no contract: the inset inner square contour; properties in `SquareTrace`, `SquareWinding` and `SquareInBox` |
| CornerSquareShapes.SquarePath | src/figures/cornerSquare/QRCornerSquare.ts:90-99 | definition, no contract: the two square contours in order; properties in `SquareTrace`, `SquareWinding` and `SquareInBox` |
| CornerSquareShapes.SquareTrace | src/figures/cornerSquare/QRCornerSquare.ts:90-99 | outer contour (x,y), (x,y+size), (x+size,y+size), (x+size,y), closed; inner contour the box inset by dotSize, visited in the other rotational order, closed |
| CornerSquareShapes.SquareWinding | src/figures/cornerSquare/QRCornerSquare.ts:90-99 | for positive size the outer contour has negative and the inner positive signed area (opposite directions), of sizes size² and (5·size/7)² |
| CornerSquareShapes.SquareInBox | src/figures/cornerSquare/QRCornerSquare.ts:90-99 | every pen position (command end point) is in the marker's box, the inner contour's in the box inset by dotSize |
| CornerSquareShapes.InnerRoundedSquare | src/figures/cornerSquare/QRCornerSquare.ts:125-133 | definition, no contract: the inner rounded square without Z (extra-rounded); properties in `InnerRoundedSquareOpen` and `ExtraRoundedContoursReturn` |
| CornerSquareShapes.ClosedInnerRoundedSquare | src/figures/cornerSquare/QRCornerSquare.ts:164-173 | definition, no contract: the same contour closed with Z (style_2, and style_3 at ts:211-220); properties in `InnerRoundedSquareTrace`, `InnerRoundedSquareShape` and `InnerRoundedSquareCorners` |
| CornerSquareShapes.InnerRoundedSquareTrace | src/figures/cornerSquare/QRCornerSquare.ts:164-173 | the closed inner rounded square visits its ten points from (x+2.5d, y+d) back to it |
| CornerSquareShapes.InnerRoundedSquareOpen | src/figures/cornerSquare/QRCornerSquare.ts:125-133 | the extra-rounded inner contour, without Z, visits the same points and still ends where it began |
| CornerSquareShapes.InnerRoundedSquareShape | src/figures/cornerSquare/QRCornerSquare.ts:164-173 | closed, starts at (x+2.5d, y+d), all arcs small with sweep 1 and radius 1.5d, runs of ±2d, every pen position in [x+d, x+6d] × [y+d, y+6d] |
| CornerSquareShapes.InnerRoundedSquareCorners | src/figures/cornerSquare/QRCornerSquare.ts:164-173 | its four arcs are centred 1.5d inside the four corners of the inset box |
| CornerSquareShapes.ExtraRoundedOuter | src/figures/cornerSquare/QRCornerSquare.ts:116-124 | definition, no contract: the extra-rounded outer contour; properties in `ExtraRoundedOuterTrace`, `ExtraRoundedFrame` and `ExtraRoundedConcentric` |
| CornerSquareShapes.ExtraRoundedPath | src/figures/cornerSquare/QRCornerSquare.ts:116-133 | definition, no contract: outer then open inner contour; properties in `ExtraRoundedContoursReturn` and `ExtraRoundedInBox` |
| CornerSquareShapes.ExtraRoundedOuterTrace | src/figures/cornerSquare/QRCornerSquare.ts:116-124 | the outer contour visits its nine points and its relative moves bring it back to (x, y+2.5d) |
| CornerSquareShapes.ExtraRoundedContoursReturn | src/figures/cornerSquare/QRCornerSquare.ts:116-133 | no closepath anywhere; the outer contour returns to (x, y+2.5d) and the inner one to (x+2.5d, y+d) |
| CornerSquareShapes.ExtraRoundedFrame | src/figures/cornerSquare/QRCornerSquare.ts:116-124 | four small sweep-0 circular arcs (rx = ry = 2.5d), runs of ±2d, every pen position inside the box |
| CornerSquareShapes.ExtraRoundedConcentric | src/figures/cornerSquare/QRCornerSquare.ts:116-133 | each outer arc is concentric with an inner corner arc (radii 2.5d and 1.5d), so the frame is one module thick all round |
| CornerSquareShapes.ExtraRoundedInBox | src/figures/cornerSquare/QRCornerSquare.ts:116-133 | every pen position of both contours is in the marker's box |
| CornerSquareShapes.AsymmetricFrame | src/figures/cornerSquare/QRCornerSquare.ts:154-163 | definition, no contract: the frame shared by style_2 and style_4 (ts:244-253) for corner radius r; properties in `AsymmetricFrameTrace` and `AsymmetricFrameCorners` |
| CornerSquareShapes.AsymmetricFrameTrace | src/figures/cornerSquare/QRCornerSquare.ts:154-163 | the style_2 / style_4 frame visits its ten points for any corner radius r |
| CornerSquareShapes.AsymmetricFrameCorners | src/figures/cornerSquare/QRCornerSquare.ts:154-163 | sweep-0 arcs centred r in from the bottom-left, top-right and top-left corners; a right angle at (x+size, y+size), reached by a horizontal line and left by a vertical one; closed back to (x, y+r) |
| CornerSquareShapes.Style2Path | src/figures/cornerSquare/QRCornerSquare.ts:153-173 | definition, no contract: the frame with radius 2.5d, then the closed inner rounded square; properties in `Style2Shape` and `Style2InBox` |
| CornerSquareShapes.Style2Shape | src/figures/cornerSquare/QRCornerSquare.ts:142-173 | straight runs of 2d; the path visits the frame's points and then the inner square's; the frame ends at (x, y+rOuter); (x+size, y+size) is visited |
| CornerSquareShapes.Style2InBox | src/figures/cornerSquare/QRCornerSquare.ts:154-173 | frame arcs sweep 0, inner arcs sweep 1, every pen position in the box |
| CornerSquareShapes.Style3Outer | src/figures/cornerSquare/QRCornerSquare.ts:199-209 | definition, no contract: the style_3 outer contour; properties in `Style3OuterTrace`, `Style3Corners`, `Style3LeftEdge` and `Style3SameWinding` |
| CornerSquareShapes.Style3Path | src/figures/cornerSquare/QRCornerSquare.ts:198-220 | definition, no contract: outer contour then the closed inner rounded square; properties in `Style3SameWinding` and `Style3InBox` |
| CornerSquareShapes.Style3OuterTrace | src/figures/cornerSquare/QRCornerSquare.ts:199-209 | the style_3 outer contour visits its eleven points, ending at (x, y+r) through the closepath |
| CornerSquareShapes.Style3Corners | src/figures/cornerSquare/QRCornerSquare.ts:199-208 | right angles at (x,y) (vertical line in, horizontal out) and at (x+size,y+size) (vertical in, horizontal out); sweep-1 arcs of radius 2.5d centred r in from the top-right and bottom-left corners |
| CornerSquareShapes.Style3LeftEdge | src/figures/cornerSquare/QRCornerSquare.ts:206-209 | the only closepath is the last command; the command before it ends at (x, y+size-r), so for nonzero size the closepath alone draws the left edge up to (x, y+r) |
| CornerSquareShapes.Style3SameWinding | src/figures/cornerSquare/QRCornerSquare.ts:199-220 | outer and inner contours both have every arc sweep 1, and twice the signed area of the outer corner polygon is +171/98·size², positive for nonzero size: it turns clockwise like the inner one |
| CornerSquareShapes.Style3InBox | src/figures/cornerSquare/QRCornerSquare.ts:199-220 | every pen position of style_3 is in the marker's box |
| CornerSquareShapes.InnerCircle | src/figures/cornerSquare/QRCornerSquare.ts:254-257 | definition, no contract: the circle of two half arcs; properties in `InnerCircleTrace` and `Style4Circle` |
| CornerSquareShapes.Style4Path | src/figures/cornerSquare/QRCornerSquare.ts:243-257 | definition, no contract: the frame with radius 3.5d, then the inner circle; properties in `Style4Frame`, `Style4Circle` and `Style4InBox` |
| CornerSquareShapes.Style4Frame | src/figures/cornerSquare/QRCornerSquare.ts:234-253 | rOuter = size/2, so the three runs have length 0 and the three arcs are all centred on the marker's centre with radius size/2; (x+size, y+size) stays a corner |
| CornerSquareShapes.InnerCircleTrace | src/figures/cornerSquare/QRCornerSquare.ts:254-257 | the style_4 inner contour visits the circle's top point, its bottom point, the top point again, and closes there |
| CornerSquareShapes.Style4Circle | src/figures/cornerSquare/QRCornerSquare.ts:236-257 | the inner contour goes from the top point of the circle of radius 2.5d about the centre to its bottom point and back, both half arcs centred there with sweep 0, and closes |
| CornerSquareShapes.Style4InBox | src/figures/cornerSquare/QRCornerSquare.ts:243-257 | every pen position of style_4 is in the marker's box |
| CornerSquareFigure.Generator | src/figures/cornerSquare/QRCornerSquare.ts:22-44 | never Other; an advertised identifier selects the style it names; any other string selects the dot style |
| CornerSquareFigure.GeneratorPath | src/figures/cornerSquare/QRCornerSquare.ts:22-46 | definition, no contract: the path each switch target emits; properties in `GeneratorsDistinct` and `FigureInBox` |
| CornerSquareFigure.FigurePath | src/figures/cornerSquare/QRCornerSquare.ts:18-46 | definition, no contract: the path a draw call stores for an identifier; properties in `SelectsOwnStyle`, `FigureInBox` and `QRCornerSquare.Draw` |
| CornerSquareFigure.SelectsOwnStyle | src/figures/cornerSquare/QRCornerSquare.ts:22-46 | each style is selected exactly by its own identifier, the dot style also by every unknown one, and an unknown identifier draws the same path as "dot" |
| CornerSquareFigure.GeneratorsDistinct | src/figures/cornerSquare/QRCornerSquare.ts:22-44 | two different styles emit different path data at every position and size |
| CornerSquareFigure.FigureInBox | src/figures/cornerSquare/QRCornerSquare.ts:18-47 | whatever the identifier, every pen position of the drawn marker is in its box, for the dot style exactly when size ≥ 0.2; the arc curves are not covered |
| CornerSquareFigure.DegreesRadians | src/figures/cornerSquare/QRCornerSquare.ts:54 | the degree conversion 180·r/π is inverted by r·π/180; π/2, π and 2π give 90, 180 and 360 degrees |
| CornerSquareFigure.RotationTransform | src/figures/cornerSquare/QRCornerSquare.ts:49-54 | the pivot is equidistant from opposite sides of the box (its centre); the angle converts back to the given rotation; an absent rotation gives 0 degrees |
| CornerSquareFigure.PathElement.constructor | src/figures/cornerSquare/QRCornerSquare.ts:64 | a new node has no attributes |
| CornerSquareFigure.PathElement.SetAttribute | src/figures/cornerSquare/QRCornerSquare.ts:65 | sets one attribute and leaves the other two unchanged |
| CornerSquareFigure.QRCornerSquare.constructor | src/figures/cornerSquare/QRCornerSquare.ts:12-16 | keeps the configured identifier; no node yet |
| CornerSquareFigure.QRCornerSquare.NewElement | src/figures/cornerSquare/QRCornerSquare.ts:64-73 | the draw callback: element is a fresh node with clip-rule evenodd, the path data, and no transform |
| CornerSquareFigure.QRCornerSquare.RotateFigure | src/figures/cornerSquare/QRCornerSquare.ts:49-55 | after the callback, the fresh node also carries the rotation about the box centre, even for rotation 0 or none |
| CornerSquareFigure.QRCornerSquare.BasicDot | src/figures/cornerSquare/QRCornerSquare.ts:57-77 | a fresh node showing the dot path, rotated about the box centre |
| CornerSquareFigure.QRCornerSquare.BasicSquare | src/figures/cornerSquare/QRCornerSquare.ts:79-103 | a fresh node showing the square path, rotated about the box centre |
| CornerSquareFigure.QRCornerSquare.BasicExtraRounded | src/figures/cornerSquare/QRCornerSquare.ts:105-137 | a fresh node showing the extra-rounded path, rotated about the box centre |
| CornerSquareFigure.QRCornerSquare.BasicStyle2 | src/figures/cornerSquare/QRCornerSquare.ts:139-182 | a fresh node showing the style_2 path, rotated about the box centre |
| CornerSquareFigure.QRCornerSquare.BasicStyle3 | src/figures/cornerSquare/QRCornerSquare.ts:184-229 | a fresh node showing the style_3 path, rotated about the box centre |
| CornerSquareFigure.QRCornerSquare.BasicStyle4 | src/figures/cornerSquare/QRCornerSquare.ts:231-266 | a fresh node showing the style_4 path, rotated about the box centre |
| CornerSquareFigure.QRCornerSquare.DrawDot | src/figures/cornerSquare/QRCornerSquare.ts:268-270 | forwards to the dot generator with the same effect |
| CornerSquareFigure.QRCornerSquare.DrawSquare | src/figures/cornerSquare/QRCornerSquare.ts:272-274 | forwards to the square generator with the same effect |
| CornerSquareFigure.QRCornerSquare.DrawExtraRounded | src/figures/cornerSquare/QRCornerSquare.ts:276-278 | forwards to the extra-rounded generator with the same effect |
| CornerSquareFigure.QRCornerSquare.DrawStyle2 | src/figures/cornerSquare/QRCornerSquare.ts:280-282 | forwards to the style_2 generator with the same effect |
| CornerSquareFigure.QRCornerSquare.DrawStyle3 | src/figures/cornerSquare/QRCornerSquare.ts:284-286 | forwards to the style_3 generator with the same effect |
| CornerSquareFigure.QRCornerSquare.DrawStyle4 | src/figures/cornerSquare/QRCornerSquare.ts:288-290 | forwards to the style_4 generator with the same effect |
| CornerSquareFigure.QRCornerSquare.Draw | src/figures/cornerSquare/QRCornerSquare.ts:18-47 | a fresh node (earlier nodes are not modified), showing the path of the style the identifier selects (dot for unknown ones), with clip-rule evenodd and the rotation about the box centre |
| CornerSquareFigure.DotExample | src/figures/cornerSquare/QRCornerSquare.ts:57-77 | a 70-wide dot marker at the origin: radii 35 and 25, offset 10; "nonexistent" draws the same; no rotation gives rotate(0, 35, 35) |
| CornerSquareFigure.SquareExample | src/figures/cornerSquare/QRCornerSquare.ts:79-103 | a 35-wide square marker at (10, 20): frame and hole inset by 5; a rotation of π/2 gives rotate(90, 27.5, 37.5) |

## Left out

- The text of the `d` attribute. The path is a command datatype, not a string. The JavaScript
  number formatting of coordinates and the exact spacing and separators are not modelled.
- IEEE double arithmetic. Coordinates are exact reals, so the rounding of `size / 7` and of the
  other products is not modelled. Math.PI is the exact decimal 3.141592653589793.
- The DOM. `createElementNS` is a fresh `PathElement`, and `setAttribute` is a field update on
  it. The `svg` and `window` constructor arguments are not kept, because this file only uses
  `window` to create the node and never reads `svg`.
- Rendering. Even-odd clipping, and which pixels an arc covers, are not modelled. The model
  states the arc flags, the centres they imply, and the direction each contour turns.
- The arc curves. Box containment is stated for pen positions (command end points) only. The
  curves between them are not checked. The dot ring's outer circle does reach 0.05 past the
  right edge of the box (`DotOuterCentre`), and below size 0.35 its inner circle reaches past
  the left edge (`DotInnerCentre`).
- CornerSquareShapes.DotInBox: covers the ring's pen positions only, not its arcs. The outer
  circle leaves the box on the right by 0.05 at every size (`DotRingOverhang`), and the inner
  circle leaves it on the left by 0.05 − size/7 below size 0.35 (`DotInnerOverhang`).
- CornerSquareFigure.FigureInBox: covers the pen positions of every style only, not the arc
  curves between them.
- RadiusSpansChord: checks only circular arcs against their chord. It does not model SVG's
  general radius scale-up for elliptical arcs, which no generator emits.
- The x-axis-rotation of the arcs. It is 0 in every arc the builder emits, so the `ArcBy`
  command does not record it.
- The imported argument types. `DrawArgs`, `BasicFigureDrawArgs` and `RotateFigureArgs` are plain
  parameters. `RotateFigureArgs.draw` is the callback `NewElement` applied to the generator's path.
- CornerSquareFigure.QRCornerSquare.RotateFigure: the `?.` guard on the node is modelled, but
  it never fails, because the callback always creates the node first.

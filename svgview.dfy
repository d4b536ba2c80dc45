/**
 * The section view (`SvgRenderer.render`): outer profile, inner edges,
 * haunch diagonals, column girders, anti-float slab, ground and groundwater
 * level and dimensions, as a sequence of abstract SVG elements in drawing
 * order. Two copies exist, the ES module and the bundled app; they differ in
 * the haunch corners they read and in how far labels sit from their lines.
 */
module SvgView {
  import opened Section
  import opened Geometry
  import opened Layout

  datatype Variant = EsModule | Bundle

  function Rule(v: Variant): CornerRule
  {
    if v == EsModule then ModuleCorners else BundleCorners
  }

  /** Distance of a dimension label from its dimension line. */
  function TextGap(v: Variant): real
  {
    if v == EsModule then 25.0 else 175.0
  }

  const ARROW_SIZE: real := 100.0
  const EXT_LINE_GAP: real := 500.0

  datatype Direction = ArrowRight | ArrowLeft | ArrowUp | ArrowDown

  /** The CSS class of a drawn element: `outer-line`, `inner-line`, `extension-line`, `dimension-line`,
   * `dimension-arrow`, `ground-line`, `ground-hatch`, `water-level-line`, `water-level-symbol`,
   * `girder-line`, `girder-x-line` and `leader-line`. */
  datatype Style =
    | OuterLine | InnerLine | ExtensionLine | DimensionLine | DimensionArrow | GroundLine | GroundHatch
    | WaterLevelLine | WaterLevelSymbol | GirderBox | GirderBracing | LeaderLine

  /** The two leader texts of a column wall, `CTC=<columnCTC>` and `W=<columnWidth>`. */
  datatype Caption = CtcCaption | WidthCaption

  /**
   * An element appended to the drawing; a text carries the number it
   * displays. A `Dimension` stands for one call of the dimension helpers,
   * which `DimElements` expands into the lines, arrows and label they append.
   */
  datatype Element =
    | Line(s: Seg, cls: Style)
    | Polyline(pts: seq<Point>, cls: Style)
    | Polygon(pts: seq<Point>, cls: Style)
    | Text(at: Point, value: real, vertical: bool)
    | LeaderText(at: Point, caption: Caption, value: real)
    | Dimension(call: DimCall)
    | Placeholder

  /** `drawArrow`: a triangle with its tip at (x, y). */
  function Arrow(x: real, y: real, dir: Direction): Element
  {
    var s := ARROW_SIZE;
    var pts := match dir
      case ArrowRight => [Pt(x, y), Pt(x + s, y - s / 3.0), Pt(x + s, y + s / 3.0)]
      case ArrowLeft => [Pt(x, y), Pt(x - s, y - s / 3.0), Pt(x - s, y + s / 3.0)]
      case ArrowUp => [Pt(x, y), Pt(x - s / 3.0, y + s), Pt(x + s / 3.0, y + s)]
      case ArrowDown => [Pt(x, y), Pt(x - s / 3.0, y - s), Pt(x + s / 3.0, y - s)];
    Polygon(pts, DimensionArrow)
  }

  function Sign(offset: real): real
  {
    if offset > 0.0 then 1.0 else -1.0
  }

  /** `drawHorizontalDimension`: two extension lines, the dimension line, two arrows and the label. */
  function HorizontalDimension(v: Variant, x1: real, x2: real, y: real, offset: real, value: real): seq<Element>
  {
    var dimY := y + offset;
    var extStart := y + Sign(offset) * EXT_LINE_GAP;
    [ Line(Seg(Pt(x1, extStart), Pt(x1, dimY)), ExtensionLine),
      Line(Seg(Pt(x2, extStart), Pt(x2, dimY)), ExtensionLine),
      Line(Seg(Pt(x1, dimY), Pt(x2, dimY)), DimensionLine),
      Arrow(x1, dimY, ArrowRight),
      Arrow(x2, dimY, ArrowLeft),
      Text(Pt((x1 + x2) / 2.0, dimY + TextGap(v)), value, false) ]
  }

  /** `drawVerticalDimension`; an omitted `extGap` means the standard gap of 500. */
  function VerticalDimension(v: Variant, x: real, y1: real, y2: real, offset: real, value: real, extGap: Option<real>): seq<Element>
  {
    var dimX := x + offset;
    var extStart := x + Sign(offset) * (if extGap.Some? then extGap.value else EXT_LINE_GAP);
    [ Line(Seg(Pt(extStart, y1), Pt(dimX, y1)), ExtensionLine),
      Line(Seg(Pt(extStart, y2), Pt(dimX, y2)), ExtensionLine),
      Line(Seg(Pt(dimX, y1), Pt(dimX, y2)), DimensionLine),
      Arrow(dimX, y1, ArrowUp),
      Arrow(dimX, y2, ArrowDown),
      Text(Pt(dimX - TextGap(v), (y1 + y2) / 2.0), value, true) ]
  }

  /** The outer tier passes `EXT_LINE_GAP + 500`; every other vertical dimension omits the gap. */
  function DimElements(v: Variant, c: DimCall): seq<Element>
  {
    match c
    case HDim(x1, x2, y, offset, value) => HorizontalDimension(v, x1, x2, y, offset, value)
    case VDim(x, y1, y2, offset, value, far) =>
      VerticalDimension(v, x, y1, y2, offset, value, if far then Some(EXT_LINE_GAP + 500.0) else None)
  }

  /** The two points a dimension call measures between, on its dimension line. */
  function DimEnds(c: DimCall): (Point, Point)
  {
    match c
    case HDim(x1, x2, y, offset, _) => (Pt(x1, y + offset), Pt(x2, y + offset))
    case VDim(x, y1, y2, offset, _, _) => (Pt(x + offset, y1), Pt(x + offset, y2))
  }

  /**
   * Every dimension is two extension lines ending on the dimension line, the
   * dimension line itself, an arrow with its tip on each end and a label that
   * shows the measured value, turned for a vertical dimension.
   */
  lemma DimensionShape(v: Variant, c: DimCall)
    ensures var es := DimElements(v, c);
      var (p, q) := DimEnds(c);
      && |es| == 6
      && es[0].Line? && es[0].s.b == p && es[1].Line? && es[1].s.b == q
      && es[2] == Line(Seg(p, q), DimensionLine)
      && es[3].Polygon? && es[3].pts[0] == p
      && es[4].Polygon? && es[4].pts[0] == q
      && es[5].Text? && es[5].value == c.value && es[5].vertical == c.VDim?
  {
  }

  /**
   * Extension lines start 500 from the measured object on the side of the
   * dimension line, 1000 on the outer tier of vertical dimensions.
   */
  lemma ExtensionGap(v: Variant, c: DimCall)
    ensures c.HDim? ==> DimElements(v, c)[0].s.a.y == c.y + Sign(c.offset) * 500.0
    ensures c.VDim? ==> DimElements(v, c)[0].s.a.x == c.x + Sign(c.offset) * (if c.far then 1000.0 else 500.0)
  {
  }

  /**
   * The two renderers draw the same lines and arrows for every dimension; only
   * the label moves: 150 further from the dimension line in the bundle.
   */
  lemma VariantsDifferOnlyInLabel(c: DimCall)
    ensures DimElements(EsModule, c)[..5] == DimElements(Bundle, c)[..5]
    ensures c.HDim? ==> DimElements(Bundle, c)[5].at.y == DimElements(EsModule, c)[5].at.y + 150.0
    ensures c.VDim? ==> DimElements(Bundle, c)[5].at.x == DimElements(EsModule, c)[5].at.x - 150.0
  {
  }

  /** Each dimension call of a plan, in order. */
  function Dimensions(cs: seq<DimCall>): (r: seq<Element>)
    ensures |r| == |cs|
    ensures forall k :: 0 <= k < |cs| ==> r[k] == Dimension(cs[k])
  {
    seq(|cs|, k requires 0 <= k < |cs| => Dimension(cs[k]))
  }

  lemma DimensionsAppend(a: seq<DimCall>, b: seq<DimCall>)
    ensures Dimensions(a + b) == Dimensions(a) + Dimensions(b)
  {
  }

  function Lines(ss: seq<Seg>, cls: Style): (r: seq<Element>)
    ensures |r| == |ss|
    ensures forall k :: 0 <= k < |ss| ==> r[k] == Line(ss[k], cls)
  {
    seq(|ss|, k requires 0 <= k < |ss| => Line(ss[k], cls))
  }

  lemma LinesAppend(a: seq<Seg>, b: seq<Seg>, cls: Style)
    ensures Lines(a + b, cls) == Lines(a, cls) + Lines(b, cls)
  {
  }

  lemma InnerEdgesStep(d: SectionData, rule: CornerRule, i: nat)
    requires i < |d.B|
    ensures Lines(InnerEdges(d, rule, i + 1), InnerLine) == Lines(InnerEdges(d, rule, i), InnerLine) + Lines(CellEdgesAt(d, rule, i), InnerLine)
  {
    LinesAppend(InnerEdges(d, rule, i), CellEdgesAt(d, rule, i), InnerLine);
  }

  lemma DiagonalsStep(d: SectionData, rule: CornerRule, i: nat)
    requires i < |d.B|
    ensures Lines(Diagonals(d, rule, i + 1), InnerLine) == Lines(Diagonals(d, rule, i), InnerLine) + Lines(CellDiagonalsAt(d, rule, i), InnerLine)
  {
    LinesAppend(Diagonals(d, rule, i), CellDiagonalsAt(d, rule, i), InnerLine);
  }

  function GirderClass(g: GirderLine): Style
  {
    if g.bracing then GirderBracing else GirderBox
  }

  function GirderElements(gs: seq<GirderLine>): (r: seq<Element>)
    ensures |r| == |gs|
    ensures forall k :: 0 <= k < |gs| ==> r[k] == Line(gs[k].s, GirderClass(gs[k]))
  {
    seq(|gs|, k requires 0 <= k < |gs| => Line(gs[k].s, GirderClass(gs[k])))
  }

  lemma GirderElementsAppend(a: seq<GirderLine>, b: seq<GirderLine>)
    ensures GirderElements(a + b) == GirderElements(a) + GirderElements(b)
  {
  }

  lemma GirdersStep(d: SectionData, i: nat, upperAdd: real, lowerAdd: real, es: seq<Element>, wallLines: seq<Element>)
    requires i < |d.B|
    requires es == GirderElements(GirdersUpTo(d, i, upperAdd, lowerAdd))
    requires wallLines == GirderElements(GirdersAfterCell(d, i, upperAdd, lowerAdd))
    ensures es + wallLines == GirderElements(GirdersUpTo(d, i + 1, upperAdd, lowerAdd))
  {
    GirderElementsAppend(GirdersUpTo(d, i, upperAdd, lowerAdd), GirdersAfterCell(d, i, upperAdd, lowerAdd));
  }

  // ----- the parts of the drawing -----

  /** `drawOuterProfile`: with the slab in use and thick, the walls stop at its top and the bottom is a separate line. */
  function OuterProfile(d: SectionData, dims: Dims): seq<Element>
  {
    var t := if AntiFloatOn(d) then d.antiFloat.value.thickness else 0.0;
    var w := dims.totalWidth;
    var h := dims.totalHeight;
    if AntiFloatOn(d) && t > 0.0 then
      [ Polyline([Pt(0.0, t), Pt(0.0, h), Pt(w, h), Pt(w, t)], OuterLine),
        Line(Seg(Pt(0.0, 0.0), Pt(w, 0.0)), OuterLine) ]
    else
      [ Polyline([Pt(0.0, 0.0), Pt(w, 0.0), Pt(w, h), Pt(0.0, h), Pt(0.0, 0.0)], OuterLine) ]
  }

  /** `drawAntiFloatSlab`: one outline per positive side extension, nothing when the slab is off or all values are non-positive. */
  function AntiFloatSlab(d: SectionData, dims: Dims): seq<Element>
  {
    if !AntiFloatOn(d) then []
    else
      var af := d.antiFloat.value;
      var l := af.leftExtension;
      var r := af.rightExtension;
      var t := af.thickness;
      var w := dims.totalWidth;
      if l <= 0.0 && r <= 0.0 && t <= 0.0 then []
      else
        (if l > 0.0 then [Polyline([Pt(0.0, t), Pt(-l, t), Pt(-l, 0.0), Pt(0.0, 0.0)], OuterLine)] else [])
        + (if r > 0.0 then [Polyline([Pt(w, t), Pt(w + r, t), Pt(w + r, 0.0), Pt(w, 0.0)], OuterLine)] else [])
  }

  /** The slab outlines are exactly one per positive extension, and none when the slab is not in use. */
  lemma AntiFloatSlabOutlines(d: SectionData, dims: Dims)
    ensures !AntiFloatOn(d) ==> AntiFloatSlab(d, dims) == []
    ensures AntiFloatOn(d) ==>
      |AntiFloatSlab(d, dims)| == (if d.antiFloat.value.leftExtension > 0.0 then 1 else 0) + (if d.antiFloat.value.rightExtension > 0.0 then 1 else 0)
  {
  }

  /** `drawGroundLevel`: the ground line and its hatch marks, only for a positive earth cover. */
  function GroundLevel(d: SectionData, dims: Dims, g: GroundInfo): seq<Element>
  {
    var ec := g.earthCoverDepth;
    if ec <= 0.0 then []
    else
      var groundY := dims.totalHeight + ec;
      var (lineLeft, lineRight) := GroundExtent(d, dims);
      [Line(Seg(Pt(lineLeft, groundY), Pt(lineRight, groundY)), GroundLine)]
      + Lines(Hatch(lineLeft, lineRight, groundY), GroundHatch)
  }

  /** Water symbol: a line 700 long from the wall face and a triangle of base 300 and height 260 centred on it. */
  function WaterSymbol(x0: real, dir: real, waterY: real): seq<Element>
  {
    var cx := x0 + dir * 350.0;
    [ Line(Seg(Pt(x0, waterY), Pt(x0 + dir * 700.0, waterY)), WaterLevelLine),
      Polygon([Pt(cx - 150.0, waterY + 260.0), Pt(cx + 150.0, waterY + 260.0), Pt(cx, waterY)], WaterLevelSymbol) ]
  }

  /** `drawGroundwaterLevel`: the symbol outside each wall at `totalHeight + earthCover - groundwaterLevel`. */
  function GroundwaterLevel(d: SectionData, dims: Dims, g: GroundInfo): seq<Element>
  {
    var wl := g.groundwaterLevel;
    if wl <= 0.0 then []
    else
      var waterY := dims.totalHeight + g.earthCoverDepth - wl;
      WaterSymbol(dims.totalWidth, 1.0, waterY) + WaterSymbol(0.0, -1.0, waterY)
  }

  // ----- the drawing passes that scan the cells -----

  /** `drawInnerCompartments`: the running offset visits the cells left to right. */
  method DrawInnerCompartments(v: Variant, d: SectionData) returns (es: seq<Element>)
    requires Drawable(d)
    ensures es == Lines(InnerEdges(d, Rule(v), CellCount(d)), InnerLine)
  {
    es := [];
    var xOffset := d.WL;
    var i := 0;
    while i < d.culvertCount
      invariant 0 <= i <= CellCount(d)
      invariant xOffset == CellLeft(d, i)
      invariant es == Lines(InnerEdges(d, Rule(v), i), InnerLine)
    {
      es, xOffset := CompartmentPass(v, d, i, xOffset, es);
      i := i + 1;
    }
  }

  /** One pass of the compartment loop: the edges of cell `i`, then past it and its wall. */
  method CompartmentPass(v: Variant, d: SectionData, i: nat, xOffset: real, es: seq<Element>) returns (es': seq<Element>, xNext: real)
    requires i < |d.B| && xOffset == CellLeft(d, i)
    requires es == Lines(InnerEdges(d, Rule(v), i), InnerLine)
    ensures xNext == CellLeft(d, i + 1)
    ensures es' == Lines(InnerEdges(d, Rule(v), i + 1), InnerLine)
  {
    var b := d.B[i];
    var left, right := xOffset, xOffset + b;
    var c := CornersFor(Rule(v), d, i);
    es' := es + Lines(CellEdges(d, c, left, right), InnerLine);
    InnerEdgesStep(d, Rule(v), i);
    CellLeftStep(d, i);
    xNext := xOffset + b;
    if i < |d.middleWalls| {
      xNext := xNext + d.middleWalls[i].thickness;
    }
  }

  /** The diagonals of one cell, upper-left, upper-right, lower-left, lower-right. */
  method DrawCellHaunches(d: SectionData, c: Corners, left: real, right: real) returns (cell: seq<Element>)
    ensures cell == Lines(CellDiagonals(d, c, left, right), InnerLine)
  {
    var ul := if HasDiagonal(c.ul) then [Line(UlDiagonal(d, c, left), InnerLine)] else [];
    var ur := if HasDiagonal(c.ur) then [Line(UrDiagonal(d, c, right), InnerLine)] else [];
    var ll := if HasDiagonal(c.ll) then [Line(LlDiagonal(d, c, left), InnerLine)] else [];
    var lr := if HasDiagonal(c.lr) then [Line(LrDiagonal(d, c, right), InnerLine)] else [];
    cell := ul + ur + ll + lr;
  }

  /** `drawHaunches`: a diagonal for each corner whose legs are both positive. */
  method DrawHaunches(v: Variant, d: SectionData) returns (es: seq<Element>)
    requires Drawable(d)
    ensures es == Lines(Diagonals(d, Rule(v), CellCount(d)), InnerLine)
  {
    es := [];
    var xOffset := d.WL;
    var i := 0;
    while i < d.culvertCount
      invariant 0 <= i <= CellCount(d)
      invariant xOffset == CellLeft(d, i)
      invariant es == Lines(Diagonals(d, Rule(v), i), InnerLine)
    {
      es, xOffset := HaunchPass(v, d, i, xOffset, es);
      i := i + 1;
    }
  }

  /** One pass of the haunch loop: the diagonals of cell `i`, then past it and its wall. */
  method HaunchPass(v: Variant, d: SectionData, i: nat, xOffset: real, es: seq<Element>) returns (es': seq<Element>, xNext: real)
    requires i < |d.B| && xOffset == CellLeft(d, i)
    requires es == Lines(Diagonals(d, Rule(v), i), InnerLine)
    ensures xNext == CellLeft(d, i + 1)
    ensures es' == Lines(Diagonals(d, Rule(v), i + 1), InnerLine)
  {
    var b := d.B[i];
    var left, right := xOffset, xOffset + b;
    var c := CornersFor(Rule(v), d, i);
    var cell := DrawCellHaunches(d, c, left, right);
    es' := es + cell;
    DiagonalsStep(d, Rule(v), i);
    CellLeftStep(d, i);
    xNext := xOffset + b;
    if i < |d.middleWalls| {
      xNext := xNext + d.middleWalls[i].thickness;
    }
  }

  /** The girders drawn on the wall after cell `i`, whose left face is at `wLeft`. */
  method DrawWallGirders(d: SectionData, i: nat, wLeft: real, upperAdd: real, lowerAdd: real) returns (es: seq<Element>)
    requires i < |d.B| && wLeft == WallLeft(d, i)
    ensures es == GirderElements(GirdersAfterCell(d, i, upperAdd, lowerAdd))
  {
    es := [];
    if i < |d.middleWalls| {
      var wall := d.middleWalls[i];
      if wall.kind == Column {
        es := GirderElements(WallGirders(d, i, wLeft, wLeft + wall.thickness, upperAdd, lowerAdd));
      }
    }
  }

  /** One pass of the `drawColumnGirders` loop: past cell `i`, the girders of the wall after it, past that wall. */
  method DrawGirdersAfterCell(d: SectionData, i: nat, xOffset: real, upperAdd: real, lowerAdd: real, es: seq<Element>)
    returns (xNext: real, esNext: seq<Element>)
    requires i < |d.B| && xOffset == CellLeft(d, i)
    requires es == GirderElements(GirdersUpTo(d, i, upperAdd, lowerAdd))
    ensures xNext == CellLeft(d, i + 1)
    ensures esNext == GirderElements(GirdersUpTo(d, i + 1, upperAdd, lowerAdd))
  {
    CellLeftStep(d, i);
    xNext := xOffset + d.B[i];
    var wallLines := DrawWallGirders(d, i, xNext, upperAdd, lowerAdd);
    GirdersStep(d, i, upperAdd, lowerAdd, es, wallLines);
    esNext := es + wallLines;
    if i < |d.middleWalls| {
      xNext := xNext + d.middleWalls[i].thickness;
    }
  }

  /** The loop of `drawColumnGirders` over the cells, once the added heights are known. */
  method DrawGirderWalls(d: SectionData, upperAdd: real, lowerAdd: real) returns (es: seq<Element>)
    requires Drawable(d)
    ensures es == GirderElements(GirdersUpTo(d, CellCount(d), upperAdd, lowerAdd))
  {
    es := [];
    var xOffset := d.WL;
    var i := 0;
    while i < d.culvertCount
      invariant 0 <= i <= CellCount(d)
      invariant xOffset == CellLeft(d, i)
      invariant es == GirderElements(GirdersUpTo(d, i, upperAdd, lowerAdd))
    {
      xOffset, es := DrawGirdersAfterCell(d, i, xOffset, upperAdd, lowerAdd, es);
      i := i + 1;
    }
  }

  // ----- column leaders -----

  /**
   * `drawColumnLeaders` at the wall after cell `i`: nothing unless it is a
   * column wall; otherwise a leader 800 long from the wall's right face at
   * mid-height of the cells, a tick of 60 (text size 200 times 0.3) and the
   * two texts 50 past the leader's end, 130 (half the line gap of 260) above
   * and below it.
   */
  function LeaderAt(d: SectionData, i: nat, cg: ColumnGirder): seq<Element>
    requires i < |d.B|
  {
    if i < |d.middleWalls| && d.middleWalls[i].kind == Column then
      var midY := (d.LT + (d.LT + d.H)) / 2.0;
      var surface := WallLeft(d, i) + d.middleWalls[i].thickness;
      var leaderEnd := surface + 800.0;
      [ Line(Seg(Pt(surface, midY), Pt(leaderEnd, midY)), LeaderLine),
        Line(Seg(Pt(leaderEnd, midY), Pt(leaderEnd, midY + 60.0)), LeaderLine),
        LeaderText(Pt(leaderEnd + 50.0, midY + 130.0), CtcCaption, cg.columnCTC),
        LeaderText(Pt(leaderEnd + 50.0, midY - 130.0), WidthCaption, cg.columnWidth) ]
    else []
  }

  function LeadersUpTo(d: SectionData, n: nat, cg: ColumnGirder): seq<Element>
    requires n <= |d.B|
  {
    if n == 0 then [] else LeadersUpTo(d, n - 1, cg) + LeaderAt(d, n - 1, cg)
  }

  /** Everything `drawColumnLeaders` draws: nothing without middle walls or girder data; the added heights play no part. */
  function ColumnLeaders(d: SectionData): seq<Element>
    requires Drawable(d)
  {
    if |d.middleWalls| == 0 || d.columnGirder.None? then [] else LeadersUpTo(d, CellCount(d), d.columnGirder.value)
  }

  /** Number of column walls after the first `n` cells. */
  function ColumnWallsUpTo(d: SectionData, n: nat): nat
    requires n <= |d.B|
  {
    if n == 0 then 0
    else ColumnWallsUpTo(d, n - 1) + (if n - 1 < |d.middleWalls| && d.middleWalls[n - 1].kind == Column then 1 else 0)
  }

  /**
   * One leader: a level line 800 long, a tick hanging 60 from its end, the
   * text of the girder's CTC and the text of its width.
   */
  predicate LeaderBlock(b: seq<Element>, cg: ColumnGirder)
  {
    && |b| == 4
    && b[0].Line? && b[0].cls == LeaderLine && b[0].s.b == Pt(b[0].s.a.x + 800.0, b[0].s.a.y)
    && b[1] == Line(Seg(b[0].s.b, Pt(b[0].s.b.x, b[0].s.b.y + 60.0)), LeaderLine)
    && b[2].LeaderText? && b[2].caption == CtcCaption && b[2].value == cg.columnCTC
    && b[3].LeaderText? && b[3].caption == WidthCaption && b[3].value == cg.columnWidth
  }

  /** The `q`-th group of four elements. */
  function Quad(ls: seq<Element>, q: nat): seq<Element>
    requires 4 * q + 4 <= |ls|
  {
    ls[4 * q..4 * q + 4]
  }

  /** A sequence made of whole leaders only. */
  ghost predicate AllLeaders(ls: seq<Element>, cg: ColumnGirder)
  {
    && |ls| % 4 == 0
    && forall q: nat :: 4 * q + 4 <= |ls| ==> LeaderBlock(Quad(ls, q), cg)
  }

  lemma AllLeadersAppend(a: seq<Element>, b: seq<Element>, cg: ColumnGirder)
    requires AllLeaders(a, cg) && (b == [] || LeaderBlock(b, cg))
    ensures AllLeaders(a + b, cg)
  {
    if b == [] {
      assert a + b == a;
    } else {
      forall q: nat | 4 * q + 4 <= |a + b|
        ensures LeaderBlock(Quad(a + b, q), cg)
      {
        if 4 * q + 4 <= |a| {
          assert Quad(a + b, q) == Quad(a, q);
        } else {
          assert 4 * q == |a|;
          assert Quad(a + b, q) == b;
        }
      }
    }
  }

  /** Every column wall gets one whole leader and every other wall none. */
  lemma LeaderAtShape(d: SectionData, i: nat, cg: ColumnGirder)
    requires i < |d.B|
    ensures var l := LeaderAt(d, i, cg);
            if i < |d.middleWalls| && d.middleWalls[i].kind == Column then LeaderBlock(l, cg) else l == []
  {
  }

  /** The leader pass draws nothing but whole leaders. */
  lemma {:induction false} LeadersWhole(d: SectionData, n: nat, cg: ColumnGirder)
    requires n <= |d.B|
    ensures AllLeaders(LeadersUpTo(d, n, cg), cg)
  {
    if n > 0 {
      LeadersWhole(d, n - 1, cg);
      LeaderAtShape(d, n - 1, cg);
      AllLeadersAppend(LeadersUpTo(d, n - 1, cg), LeaderAt(d, n - 1, cg), cg);
    }
  }

  /** One leader per column wall: four elements each. */
  lemma {:induction false} LeadersCount(d: SectionData, n: nat, cg: ColumnGirder)
    requires n <= |d.B|
    ensures |LeadersUpTo(d, n, cg)| == 4 * ColumnWallsUpTo(d, n)
  {
    if n > 0 {
      LeadersCount(d, n - 1, cg);
    }
  }

  /** With only continuous walls no leader is drawn. */
  lemma {:induction false} NoColumnsNoLeaders(d: SectionData, n: nat, cg: ColumnGirder)
    requires n <= |d.B| && NoColumnWall(d)
    ensures LeadersUpTo(d, n, cg) == []
  {
    if n > 0 {
      NoColumnsNoLeaders(d, n - 1, cg);
    }
  }

  /** One pass of the `drawColumnLeaders` loop: past cell `i`, the leader of the wall after it, past that wall. */
  method LeaderPass(d: SectionData, i: nat, xOffset: real, midY: real, cg: ColumnGirder, es: seq<Element>)
    returns (xNext: real, esNext: seq<Element>)
    requires i < |d.B| && xOffset == CellLeft(d, i) && midY == (d.LT + (d.LT + d.H)) / 2.0
    requires es == LeadersUpTo(d, i, cg)
    ensures xNext == CellLeft(d, i + 1)
    ensures esNext == LeadersUpTo(d, i + 1, cg)
  {
    CellLeftStep(d, i);
    xNext := xOffset + d.B[i];
    esNext := es;
    if i < |d.middleWalls| {
      var wall := d.middleWalls[i];
      if wall.kind == Column {
        var wSurface := xNext + wall.thickness;
        var leaderEnd := wSurface + 800.0;
        var textSize := 200.0;
        var lineGap := textSize * 1.3;
        esNext := esNext + [Line(Seg(Pt(wSurface, midY), Pt(leaderEnd, midY)), LeaderLine)];
        esNext := esNext + [Line(Seg(Pt(leaderEnd, midY), Pt(leaderEnd, midY + textSize * 0.3)), LeaderLine)];
        esNext := esNext + [LeaderText(Pt(leaderEnd + 50.0, midY + lineGap * 0.5), CtcCaption, cg.columnCTC)];
        esNext := esNext + [LeaderText(Pt(leaderEnd + 50.0, midY - lineGap * 0.5), WidthCaption, cg.columnWidth)];
      }
      xNext := xNext + wall.thickness;
    }
  }

  /** `drawColumnLeaders`. */
  method DrawColumnLeaders(d: SectionData) returns (es: seq<Element>)
    requires Drawable(d)
    ensures es == ColumnLeaders(d)
  {
    es := [];
    if |d.middleWalls| == 0 || d.columnGirder.None? {
      return;
    }
    var cg := d.columnGirder.value;
    var midY := (d.LT + (d.LT + d.H)) / 2.0;
    var xOffset := d.WL;
    var i := 0;
    while i < d.culvertCount
      invariant 0 <= i <= CellCount(d)
      invariant xOffset == CellLeft(d, i)
      invariant es == LeadersUpTo(d, i, cg)
    {
      xOffset, es := LeaderPass(d, i, xOffset, midY, cg, es);
      i := i + 1;
    }
  }

  /** `drawColumnGirders`: girder boxes and bracing on every column wall, nothing without middle walls, girder data or added height. */
  method DrawColumnGirders(d: SectionData) returns (es: seq<Element>)
    requires Drawable(d)
    ensures es == GirderElements(Girders(d))
  {
    if |d.middleWalls| == 0 || d.columnGirder.None? {
      return [];
    }
    var upperAdd := d.columnGirder.value.upperAdditionalHeight;
    var lowerAdd := d.columnGirder.value.lowerAdditionalHeight;
    if upperAdd <= 0.0 && lowerAdd <= 0.0 {
      return [];
    }
    es := DrawGirderWalls(d, upperAdd, lowerAdd);
  }

  /** `drawGroundLevel`; the hatch loop steps `x` by 400 while `x <= lineRight`. */
  method DrawGroundLevel(d: SectionData, dims: Dims, g: GroundInfo) returns (es: seq<Element>)
    ensures es == GroundLevel(d, dims, g)
  {
    es := [];
    var earthCover := g.earthCoverDepth;
    if earthCover <= 0.0 {
      return;
    }
    var groundY := dims.totalHeight + earthCover;
    var (lineLeft, lineRight) := GroundExtent(d, dims);
    es := [Line(Seg(Pt(lineLeft, groundY), Pt(lineRight, groundY)), GroundLine)];
    var x := lineLeft + 200.0;
    ghost var k: nat := 0;
    ghost var marks := Hatch(lineLeft, lineRight, groundY);
    HatchBound(lineLeft, lineRight, 0);
    while x <= lineRight
      invariant k <= |marks|
      invariant x == HatchX(lineLeft, k)
      invariant x <= lineRight <==> k < |marks|
      invariant es == [Line(Seg(Pt(lineLeft, groundY), Pt(lineRight, groundY)), GroundLine)] + Lines(marks[..k], GroundHatch)
      decreases |marks| - k
    {
      es := es + [Line(Seg(Pt(x, groundY), Pt(x - 200.0, groundY - 200.0)), GroundHatch)];
      assert marks[..k + 1] == marks[..k] + [HatchMark(lineLeft, groundY, k)];
      LinesAppend(marks[..k], [HatchMark(lineLeft, groundY, k)], GroundHatch);
      x := x + 400.0;
      k := k + 1;
      HatchBound(lineLeft, lineRight, k);
    }
    assert marks[..k] == marks;
  }

  lemma CellWidthStep(d: SectionData, dims: Dims, i: nat, x: real, es: seq<Element>)
    requires i < |d.B| && x == CellLeft(d, i) && es == Dimensions(CellWidthDims(d, dims, i))
    ensures es + [Dimension(HDim(x, x + d.B[i], dims.totalHeight, 1000.0, d.B[i]))] == Dimensions(CellWidthDims(d, dims, i + 1))
  {
    DimensionsAppend(CellWidthDims(d, dims, i), [HDim(x, x + d.B[i], dims.totalHeight, 1000.0, d.B[i])]);
  }

  /** The width of every cell, measured above the top slab. */
  method DrawCellWidths(d: SectionData, dims: Dims) returns (es: seq<Element>)
    requires Drawable(d)
    ensures es == Dimensions(CellWidthDims(d, dims, CellCount(d)))
  {
    es := [];
    var xOffset := d.WL;
    var i := 0;
    while i < d.culvertCount
      invariant 0 <= i <= CellCount(d)
      invariant xOffset == CellLeft(d, i)
      invariant es == Dimensions(CellWidthDims(d, dims, i))
    {
      var b := d.B[i];
      CellWidthStep(d, dims, i, xOffset, es);
      es := es + [Dimension(HDim(xOffset, xOffset + b, dims.totalHeight, 1000.0, b))];
      CellLeftStep(d, i);
      xOffset := xOffset + b;
      if i < |d.middleWalls| {
        xOffset := xOffset + d.middleWalls[i].thickness;
      }
      i := i + 1;
    }
  }

  /** The thickness of every middle wall, measured above the top slab. */
  method DrawWallThicknesses(d: SectionData, dims: Dims) returns (es: seq<Element>)
    requires Drawable(d)
    ensures es == Dimensions(WallDims(d, dims, CellCount(d)))
  {
    es := [];
    var xOffset := d.WL;
    var i := 0;
    while i < d.culvertCount
      invariant 0 <= i <= CellCount(d)
      invariant xOffset == CellLeft(d, i)
      invariant es == Dimensions(WallDims(d, dims, i))
    {
      xOffset := xOffset + d.B[i];
      if i < |d.middleWalls| {
        var wt := d.middleWalls[i].thickness;
        es := es + [Dimension(HDim(xOffset, xOffset + wt, dims.totalHeight, 1000.0, wt))];
        DimensionsAppend(WallDims(d, dims, i), [HDim(xOffset, xOffset + wt, dims.totalHeight, 1000.0, wt)]);
        xOffset := xOffset + wt;
      } else {
        assert WallDims(d, dims, i + 1) == WallDims(d, dims, i) + [];
      }
      CellLeftStep(d, i);
      i := i + 1;
    }
  }

  /** `drawDimensions`: every dimension of the plan, in drawing order. */
  method DrawDimensions(d: SectionData, g: GroundInfo) returns (es: seq<Element>)
    requires Drawable(d)
    ensures es == Dimensions(DimensionPlan(d, g, Independent))
  {
    var dims := CalculateDimensions(d);
    var widths := DrawCellWidths(d, dims);
    var walls: seq<Element> := [];
    if |d.middleWalls| > 0 {
      walls := DrawWallThicknesses(d, dims);
    }
    es := Dimensions(LeadDimCalls(d, dims)) + widths + Dimensions(SlabWallDimCalls(d, dims)) + walls
          + Dimensions(AntiFloatDimCalls(d, Independent)) + Dimensions(GroundDimCalls(d, dims, g));
    var p1 := LeadDimCalls(d, dims);
    var p2 := CellWidthDims(d, dims, CellCount(d));
    var p3 := SlabWallDimCalls(d, dims);
    var p4: seq<DimCall> := if |d.middleWalls| > 0 then WallDims(d, dims, CellCount(d)) else [];
    var p5 := AntiFloatDimCalls(d, Independent);
    var p6 := GroundDimCalls(d, dims, g);
    DimensionsAppend(p1, p2);
    DimensionsAppend(p1 + p2, p3);
    DimensionsAppend(p1 + p2 + p3, p4);
    DimensionsAppend(p1 + p2 + p3 + p4, p5);
    DimensionsAppend(p1 + p2 + p3 + p4 + p5, p6);
  }

  /** The complete drawing of a valid section, in drawing order. */
  function Drawing(v: Variant, d: SectionData, g: GroundInfo): seq<Element>
    requires Drawable(d)
  {
    var dims := CalculateDimensions(d);
    var body := Lines(InnerEdges(d, Rule(v), CellCount(d)), InnerLine)
      + Lines(Diagonals(d, Rule(v), CellCount(d)), InnerLine)
      + GirderElements(Girders(d))
      + ColumnLeaders(d);
    // the bundle draws the slab straight after the outline, the module after the leaders
    (if v == Bundle then OuterProfile(d, dims) + AntiFloatSlab(d, dims) + body
     else OuterProfile(d, dims) + body + AntiFloatSlab(d, dims))
    + GroundLevel(d, dims, g)
    + GroundwaterLevel(d, dims, g)
    + Dimensions(DimensionPlan(d, g, Independent))
  }

  /** `render`: the placeholder alone for invalid input, otherwise every pass in order. */
  method Render(v: Variant, d: SectionData, g: GroundInfo) returns (es: seq<Element>)
    requires ValidForView(d) ==> Drawable(d)
    ensures !ValidForView(d) ==> es == [Placeholder]
    ensures ValidForView(d) ==> es == Drawing(v, d, g)
  {
    if !ValidForView(d) {
      return [Placeholder];
    }
    var dims := CalculateDimensions(d);
    var inner := DrawInnerCompartments(v, d);
    var haunches := DrawHaunches(v, d);
    var girders := DrawColumnGirders(d);
    var leaders := DrawColumnLeaders(d);
    var ground := DrawGroundLevel(d, dims, g);
    var dimensions := DrawDimensions(d, g);
    var body := inner + haunches + girders + leaders;
    var front: seq<Element>;
    if v == Bundle {
      front := OuterProfile(d, dims) + AntiFloatSlab(d, dims) + body;
    } else {
      front := OuterProfile(d, dims) + body + AntiFloatSlab(d, dims);
    }
    es := front + ground + GroundwaterLevel(d, dims, g) + dimensions;
  }
}

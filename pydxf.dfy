/**
 * The Python prototype's `create_culvert_dxf`: the section appended to an
 * ezdxf model space entity by entity. The model space is the sequence of
 * entities appended so far; colours are AutoCAD colour numbers and the
 * ezdxf dimension objects are kept as their three defining points.
 */
module PyDxf {
  import opened Section
  import opened Geometry
  import opened Layout
  import Dxf
  import DxfExport
  import SvgView

  /** The two texts of a column leader: `CTC=<n>` and `W=<n>`. */
  datatype Label = CtcLabel(n: int) | WidthLabel(n: int)

  datatype PyEntity =
    | LwPolyline(points: seq<Point>, color: int)
    | Line(s: Seg, color: int, dashed: bool)
    | Text(caption: Label, insert: Point, height: real, color: int)
    | LinearDim(base: Point, p1: Point, p2: Point, vertical: bool)

  /** Python's `int(x)` on a float: truncation toward zero. */
  function Trunc(x: real): (r: int)
    ensures 0.0 <= x ==> r as real <= x < r as real + 1.0
    ensures x < 0.0 ==> r as real - 1.0 < x <= r as real
  {
    if x >= 0.0 then x.Floor else -((-x).Floor)
  }

  function PyLines(ss: seq<Seg>, color: int): (r: seq<PyEntity>)
    ensures |r| == |ss|
  {
    seq(|ss|, k requires 0 <= k < |ss| => Line(ss[k], color, false))
  }

  lemma PyLinesAppend(a: seq<Seg>, b: seq<Seg>, color: int)
    ensures PyLines(a + b, color) == PyLines(a, color) + PyLines(b, color)
  {
  }

  /** `ground_info.get(key, 0)` for the earth cover and the groundwater level; no ground info reads as zeros. */
  function GroundValues(g: Option<GroundInfo>): (real, real)
  {
    if g.Some? then (g.value.earthCoverDepth, g.value.groundwaterLevel) else (0.0, 0.0)
  }

  /** Left and right slab extensions, zero unless the anti-float slab is used. */
  function Extensions(d: SectionData): (real, real)
  {
    if AntiFloatOn(d) then (d.antiFloat.value.leftExtension, d.antiFloat.value.rightExtension) else (0.0, 0.0)
  }

  // ----- what each pass appends -----

  /**
   * Outline: with the anti-float slab used and extended on either side, the
   * walls stop at the top of the bottom slab `LT` and a separate bottom line
   * is drawn; otherwise one rectangle closed by repeating its first point.
   */
  function PyOutline(d: SectionData, dims: Dims): seq<PyEntity>
  {
    var (l, r) := Extensions(d);
    var tw := dims.totalWidth;
    var th := dims.totalHeight;
    if AntiFloatOn(d) && (l > 0.0 || r > 0.0) then
      [ LwPolyline([Pt(0.0, d.LT), Pt(0.0, th), Pt(tw, th), Pt(tw, d.LT)], 7),
        Line(Seg(Pt(0.0, 0.0), Pt(tw, 0.0)), 7, false) ]
    else
      [ LwPolyline([Pt(0.0, 0.0), Pt(tw, 0.0), Pt(tw, th), Pt(0.0, th), Pt(0.0, 0.0)], 7) ]
  }

  /** Girder box lines are dashed; the X-bracing lines are not. */
  function GirderEntities(gs: seq<GirderLine>): (r: seq<PyEntity>)
    ensures |r| == |gs|
  {
    seq(|gs|, k requires 0 <= k < |gs| => Line(gs[k].s, 3, !gs[k].bracing))
  }

  lemma GirderEntitiesAppend(a: seq<GirderLine>, b: seq<GirderLine>)
    ensures GirderEntities(a + b) == GirderEntities(a) + GirderEntities(b)
  {
  }

  /** Leader of the column wall after cell `i`: a line 800 long at mid-height, a tick, and the CTC and width texts. */
  function LeaderAfterCell(d: SectionData, i: nat, cg: ColumnGirder): seq<PyEntity>
    requires i < |d.B|
  {
    if i < |d.middleWalls| && d.middleWalls[i].kind == Column then
      var midY := d.LT + d.H / 2.0;
      var surface := WallLeft(d, i) + d.middleWalls[i].thickness;
      var leaderEnd := surface + 800.0;
      [ Line(Seg(Pt(surface, midY), Pt(leaderEnd, midY)), 7, false),
        Line(Seg(Pt(leaderEnd, midY), Pt(leaderEnd, midY + 45.0)), 7, false),
        Text(CtcLabel(Trunc(cg.columnCTC)), Pt(leaderEnd + 50.0, midY + 22.5), 150.0, 7),
        Text(WidthLabel(Trunc(cg.columnWidth)), Pt(leaderEnd + 50.0, midY - 202.5), 150.0, 7) ]
    else []
  }

  function LeadersUpTo(d: SectionData, n: nat, cg: ColumnGirder): seq<PyEntity>
    requires n <= |d.B|
  {
    if n == 0 then [] else LeadersUpTo(d, n - 1, cg) + LeaderAfterCell(d, n - 1, cg)
  }

  /** Column leaders: drawn whenever girder data and a middle wall exist, whatever the additional heights. */
  function PyLeaders(d: SectionData): seq<PyEntity>
    requires Drawable(d)
  {
    if d.columnGirder.Some? && |d.middleWalls| > 0 then LeadersUpTo(d, CellCount(d), d.columnGirder.value) else []
  }

  /**
   * A leader element of the section view and its DXF counterpart: lines
   * start at the same point and end at the same `x` (only the tick length
   * differs), texts sit at the same `x` and carry the same caption with the
   * number truncated.
   */
  predicate SameLeaderPart(e: SvgView.Element, p: PyEntity)
  {
    match e
    case Line(s, cls) => cls == SvgView.LeaderLine && p.Line? && p.s.a == s.a && p.s.b.x == s.b.x
    case LeaderText(at, caption, value) =>
      && p.Text? && p.insert.x == at.x
      && p.caption == (if caption == SvgView.CtcCaption then CtcLabel(Trunc(value)) else WidthLabel(Trunc(value)))
    case _ => false
  }

  predicate SameLeaders(sv: seq<SvgView.Element>, py: seq<PyEntity>)
  {
    |sv| == |py| && forall k :: 0 <= k < |sv| ==> SameLeaderPart(sv[k], py[k])
  }

  lemma SameLeadersAppend(a: seq<SvgView.Element>, b: seq<PyEntity>, c: seq<SvgView.Element>, e: seq<PyEntity>)
    requires SameLeaders(a, b) && SameLeaders(c, e)
    ensures SameLeaders(a + c, b + e)
  {
    forall k | 0 <= k < |a + c|
      ensures SameLeaderPart((a + c)[k], (b + e)[k])
    {
      if k < |a| {
        assert (a + c)[k] == a[k] && (b + e)[k] == b[k];
      } else {
        assert (a + c)[k] == c[k - |a|] && (b + e)[k] == e[k - |b|];
      }
    }
  }

  /** The prototype draws the same leaders as the web view, wall by wall, in the same order. */
  lemma {:induction false} LeadersMatchView(d: SectionData, n: nat, cg: ColumnGirder)
    requires n <= |d.B|
    ensures SameLeaders(SvgView.LeadersUpTo(d, n, cg), LeadersUpTo(d, n, cg))
  {
    if n > 0 {
      LeadersMatchView(d, n - 1, cg);
      assert SameLeaders(SvgView.LeaderAt(d, n - 1, cg), LeaderAfterCell(d, n - 1, cg));
      SameLeadersAppend(SvgView.LeadersUpTo(d, n - 1, cg), LeadersUpTo(d, n - 1, cg),
                        SvgView.LeaderAt(d, n - 1, cg), LeaderAfterCell(d, n - 1, cg));
    }
  }

  /** Both programs draw leaders under the same conditions: girder data and at least one middle wall. */
  lemma PyLeadersMatchView(d: SectionData)
    requires Drawable(d)
    ensures SameLeaders(SvgView.ColumnLeaders(d), PyLeaders(d))
  {
    if d.columnGirder.Some? && |d.middleWalls| > 0 {
      LeadersMatchView(d, CellCount(d), d.columnGirder.value);
    }
  }

  /** The anti-float slab: an outline per positive extension, from the bottom to the top of the bottom slab `LT`. */
  function PySlabs(d: SectionData, dims: Dims): seq<PyEntity>
  {
    var (l, r) := Extensions(d);
    var tw := dims.totalWidth;
    if !AntiFloatOn(d) then []
    else
      (if l > 0.0 then [LwPolyline([Pt(0.0, d.LT), Pt(-l, d.LT), Pt(-l, 0.0), Pt(0.0, 0.0)], 7)] else [])
      + (if r > 0.0 then [LwPolyline([Pt(tw, d.LT), Pt(tw + r, d.LT), Pt(tw + r, 0.0), Pt(tw, 0.0)], 7)] else [])
  }

  /** Ground line 500 beyond the structure and slab, and its hatch, only for a positive earth cover. */
  function PyGround(d: SectionData, dims: Dims, ec: real): seq<PyEntity>
  {
    if ec <= 0.0 then []
    else
      var groundY := dims.totalHeight + ec;
      var (lineLeft, lineRight) := GroundExtent(d, dims);
      [Line(Seg(Pt(lineLeft, groundY), Pt(lineRight, groundY)), 3, false)] + PyLines(Hatch(lineLeft, lineRight, groundY), 3)
  }

  /** One water symbol: a level line 800 long away from the wall and a triangle of base 400 and height 350 on it. */
  function PyWaterMark(x0: real, dir: real, waterY: real): seq<PyEntity>
  {
    var cx := x0 + dir * 400.0;
    [ Line(Seg(Pt(x0, waterY), Pt(x0 + dir * 800.0, waterY)), 4, false),
      Line(Seg(Pt(cx - 200.0, waterY + 350.0), Pt(cx + 200.0, waterY + 350.0)), 4, false),
      Line(Seg(Pt(cx - 200.0, waterY + 350.0), Pt(cx, waterY)), 4, false),
      Line(Seg(Pt(cx + 200.0, waterY + 350.0), Pt(cx, waterY)), 4, false) ]
  }

  /** Water symbols right and left of the structure, only when both the level and the earth cover are positive. */
  function PyWater(dims: Dims, ec: real, wl: real): seq<PyEntity>
  {
    if wl > 0.0 && ec > 0.0 then
      var waterY := dims.totalHeight + ec - wl;
      PyWaterMark(dims.totalWidth, 1.0, waterY) + PyWaterMark(0.0, -1.0, waterY)
    else []
  }

  function HDimAt(x1: real, x2: real, y: real, baseY: real): PyEntity
  {
    LinearDim(Pt((x1 + x2) / 2.0, baseY), Pt(x1, y), Pt(x2, y), false)
  }

  function VDimAt(x: real, y1: real, y2: real, baseX: real): PyEntity
  {
    LinearDim(Pt(baseX, (y1 + y2) / 2.0), Pt(x, y1), Pt(x, y2), true)
  }

  /** Width of cell `i`, 1000 above the top. */
  function CellDim(d: SectionData, th: real, i: nat): PyEntity
    requires i < |d.B|
  {
    HDimAt(CellLeft(d, i), CellLeft(d, i) + d.B[i], th, th + 1000.0)
  }

  function CellDimsUpTo(d: SectionData, th: real, n: nat): seq<PyEntity>
    requires n <= |d.B|
  {
    if n == 0 then [] else CellDimsUpTo(d, th, n - 1) + [CellDim(d, th, n - 1)]
  }

  /** Thickness of the middle wall after cell `i`, when it exists, 1000 above the top. */
  function WallDimAfterCell(d: SectionData, th: real, i: nat): seq<PyEntity>
    requires i < |d.B|
  {
    if i < |d.middleWalls| then [HDimAt(WallLeft(d, i), WallLeft(d, i) + d.middleWalls[i].thickness, th, th + 1000.0)] else []
  }

  function WallDimsUpTo(d: SectionData, th: real, n: nat): seq<PyEntity>
    requires n <= |d.B|
  {
    if n == 0 then [] else WallDimsUpTo(d, th, n - 1) + WallDimAfterCell(d, th, n - 1)
  }

  /** Total width below, total height on the far right, clear height on the left. */
  function LeadDims(d: SectionData, dims: Dims): seq<PyEntity>
  {
    var tw := dims.totalWidth;
    var th := dims.totalHeight;
    var leftX := -Extensions(d).0;
    [ HDimAt(0.0, tw, 0.0, -1000.0),
      VDimAt(tw + 1000.0, 0.0, th, tw + 2000.0),
      VDimAt(leftX, d.LT, d.LT + d.H, leftX - 1000.0) ]
  }

  /** Top and bottom slab on the left, left and right wall above the top. */
  function SlabWallDims(d: SectionData, dims: Dims): seq<PyEntity>
  {
    var tw := dims.totalWidth;
    var th := dims.totalHeight;
    var leftX := -Extensions(d).0;
    [ VDimAt(leftX, d.LT + d.H, th, leftX - 1000.0),
      VDimAt(leftX, 0.0, d.LT, leftX - 1000.0),
      HDimAt(0.0, d.WL, th, th + 1000.0),
      HDimAt(tw - d.WR, tw, th, th + 1000.0) ]
  }

  /** The left extension and, beside it, the slab height `LT`, only for a used slab with a positive left extension. */
  function SlabDims(d: SectionData): seq<PyEntity>
  {
    var l := Extensions(d).0;
    if AntiFloatOn(d) && l > 0.0 then [HDimAt(-l, 0.0, 0.0, -1000.0), VDimAt(-l, 0.0, d.LT, -l - 1000.0)] else []
  }

  /** Earth cover on the far right and, nested in it, the groundwater depth 500 right of the structure. */
  function GroundDims(dims: Dims, ec: real, wl: real): seq<PyEntity>
  {
    var tw := dims.totalWidth;
    var th := dims.totalHeight;
    var groundY := th + ec;
    if ec <= 0.0 then []
    else [VDimAt(tw + 1000.0, th, groundY, tw + 2000.0)]
         + (if wl > 0.0 then [VDimAt(tw + 500.0, groundY - wl, groundY, tw + 1500.0)] else [])
  }

  function PyDims(d: SectionData, dims: Dims, ec: real, wl: real): seq<PyEntity>
    requires Drawable(d)
  {
    var th := dims.totalHeight;
    LeadDims(d, dims) + CellDimsUpTo(d, th, CellCount(d)) + SlabWallDims(d, dims)
    + (if |d.middleWalls| > 0 then WallDimsUpTo(d, th, CellCount(d)) else [])
    + SlabDims(d) + GroundDims(dims, ec, wl)
  }

  /** The structure itself: outline, inner edges, haunch diagonals, girders, column leaders and anti-float slab. */
  function PyStructure(d: SectionData): seq<PyEntity>
    requires Drawable(d)
  {
    var dims := CalculateDimensions(d);
    var n := CellCount(d);
    PyOutline(d, dims)
    + PyLines(InnerEdges(d, PythonCorners, n), 3)
    + PyLines(Diagonals(d, PythonCorners, n), 3)
    + GirderEntities(Girders(d))
    + PyLeaders(d)
    + PySlabs(d, dims)
  }

  /** What is drawn around it: ground, groundwater and dimensions. */
  function PySurroundings(d: SectionData, ground: Option<GroundInfo>): seq<PyEntity>
    requires Drawable(d)
  {
    var dims := CalculateDimensions(d);
    var ec := GroundValues(ground).0;
    var wl := GroundValues(ground).1;
    PyGround(d, dims, ec) + PyWater(dims, ec, wl) + PyDims(d, dims, ec, wl)
  }

  /** Everything `create_culvert_dxf` appends, in order; no section data gives an empty drawing. */
  function PyDrawing(data: Option<SectionData>, ground: Option<GroundInfo>): seq<PyEntity>
    requires data.Some? ==> Drawable(data.value)
  {
    if data.None? then [] else PyStructure(data.value) + PySurroundings(data.value, ground)
  }

  // ----- the passes, as the source runs them -----

  /**
   * `create_culvert_dxf`: each pass appends to the model space in turn. No
   * section data leaves the model space empty.
   */
  method CreateCulvertDxf(data: Option<SectionData>, ground: Option<GroundInfo>) returns (msp: seq<PyEntity>)
    requires data.Some? ==> Drawable(data.value)
    ensures msp == PyDrawing(data, ground)
  {
    msp := [];
    if data.None? {
      return;
    }
    var d := data.value;
    msp := AddStructure(d);
    var rest := AddSurroundings(d, ground);
    msp := msp + rest;
  }

  method AddStructure(d: SectionData) returns (msp: seq<PyEntity>)
    requires Drawable(d)
    ensures msp == PyStructure(d)
  {
    var dims := CalculateDimensions(d);
    var part := AddOutline(d, dims);
    msp := part;
    part := AddInnerEdges(d);
    msp := msp + part;
    part := AddDiagonals(d);
    msp := msp + part;
    part := AddGirders(d);
    msp := msp + part;
    part := AddLeaders(d);
    msp := msp + part;
    part := AddSlabs(d, dims);
    msp := msp + part;
  }

  method AddSurroundings(d: SectionData, ground: Option<GroundInfo>) returns (msp: seq<PyEntity>)
    requires Drawable(d)
    ensures msp == PySurroundings(d, ground)
  {
    var dims := CalculateDimensions(d);
    var ec := if ground.Some? then ground.value.earthCoverDepth else 0.0;
    var wl := if ground.Some? then ground.value.groundwaterLevel else 0.0;
    var part := AddGround(d, dims, ec);
    msp := part;
    part := AddWater(dims, ec, wl);
    msp := msp + part;
    part := AddDims(d, dims, ec, wl);
    msp := msp + part;
  }

  method AddOutline(d: SectionData, dims: Dims) returns (es: seq<PyEntity>)
    ensures es == PyOutline(d, dims)
  {
    var (l, r) := Extensions(d);
    var tw := dims.totalWidth;
    var th := dims.totalHeight;
    if AntiFloatOn(d) && (l > 0.0 || r > 0.0) {
      es := [LwPolyline([Pt(0.0, d.LT), Pt(0.0, th), Pt(tw, th), Pt(tw, d.LT)], 7)];
      es := es + [Line(Seg(Pt(0.0, 0.0), Pt(tw, 0.0)), 7, false)];
    } else {
      es := [LwPolyline([Pt(0.0, 0.0), Pt(tw, 0.0), Pt(tw, th), Pt(0.0, th), Pt(0.0, 0.0)], 7)];
    }
  }

  /** The four inner edges of one cell: bottom, right, top, left, each shortened by the adjacent haunch legs. */
  method AddCellEdges(d: SectionData, h: Corners, left: real, right: real) returns (es: seq<PyEntity>)
    ensures es == PyLines(CellEdges(d, h, left, right), 3)
  {
    var bottom, top := d.LT, d.LT + d.H;
    es := [Line(Seg(Pt(left + h.ll.width, bottom), Pt(right - h.lr.width, bottom)), 3, false)];
    es := es + [Line(Seg(Pt(right, bottom + h.lr.height), Pt(right, top - h.ur.height)), 3, false)];
    es := es + [Line(Seg(Pt(right - h.ur.width, top), Pt(left + h.ul.width, top)), 3, false)];
    es := es + [Line(Seg(Pt(left, top - h.ul.height), Pt(left, bottom + h.ll.height)), 3, false)];
  }

  lemma InnerEdgesStep(d: SectionData, i: nat)
    requires i < |d.B|
    ensures PyLines(InnerEdges(d, PythonCorners, i + 1), 3)
            == PyLines(InnerEdges(d, PythonCorners, i), 3) + PyLines(CellEdgesAt(d, PythonCorners, i), 3)
  {
    PyLinesAppend(InnerEdges(d, PythonCorners, i), CellEdgesAt(d, PythonCorners, i), 3);
  }

  /** The first cell scan: four inner edges per cell, each shortened by the corner haunches. */
  method AddInnerEdges(d: SectionData) returns (es: seq<PyEntity>)
    requires Drawable(d)
    ensures es == PyLines(InnerEdges(d, PythonCorners, CellCount(d)), 3)
  {
    es := [];
    var xOffset := d.WL;
    var i := 0;
    while i < d.culvertCount
      invariant 0 <= i <= CellCount(d)
      invariant xOffset == CellLeft(d, i)
      invariant es == PyLines(InnerEdges(d, PythonCorners, i), 3)
    {
      es, xOffset := EdgesPass(d, i, xOffset, es);
      i := i + 1;
    }
  }

  /** One pass of the first cell scan: the edges of cell `i`, then past it and its wall. */
  method EdgesPass(d: SectionData, i: nat, xOffset: real, es: seq<PyEntity>) returns (es': seq<PyEntity>, xNext: real)
    requires i < |d.B| && xOffset == CellLeft(d, i)
    requires es == PyLines(InnerEdges(d, PythonCorners, i), 3)
    ensures xNext == CellLeft(d, i + 1)
    ensures es' == PyLines(InnerEdges(d, PythonCorners, i + 1), 3)
  {
    var b := d.B[i];
    var cell := AddCellEdges(d, PyCompartmentHaunches(d, i), xOffset, xOffset + b);
    es' := es + cell;
    InnerEdgesStep(d, i);
    CellLeftStep(d, i);
    xNext := xOffset + b;
    if i < |d.middleWalls| {
      xNext := xNext + d.middleWalls[i].thickness;
    }
  }

  /** The diagonals of one cell, each only when both legs of its corner are positive. */
  method AddCellDiagonals(d: SectionData, c: Corners, left: real, right: real) returns (es: seq<PyEntity>)
    ensures es == PyLines(CellDiagonals(d, c, left, right), 3)
  {
    var bottom, top := d.LT, d.LT + d.H;
    es := [];
    if c.ul.width > 0.0 && c.ul.height > 0.0 {
      es := es + [Line(Seg(Pt(left, top - c.ul.height), Pt(left + c.ul.width, top)), 3, false)];
    }
    if c.ur.width > 0.0 && c.ur.height > 0.0 {
      es := es + [Line(Seg(Pt(right - c.ur.width, top), Pt(right, top - c.ur.height)), 3, false)];
    }
    if c.ll.width > 0.0 && c.ll.height > 0.0 {
      es := es + [Line(Seg(Pt(left, bottom + c.ll.height), Pt(left + c.ll.width, bottom)), 3, false)];
    }
    if c.lr.width > 0.0 && c.lr.height > 0.0 {
      es := es + [Line(Seg(Pt(right - c.lr.width, bottom), Pt(right, bottom + c.lr.height)), 3, false)];
    }
  }

  /** The second cell scan: haunch diagonals. */
  method AddDiagonals(d: SectionData) returns (es: seq<PyEntity>)
    requires Drawable(d)
    ensures es == PyLines(Diagonals(d, PythonCorners, CellCount(d)), 3)
  {
    es := [];
    var xOffset := d.WL;
    var i := 0;
    while i < d.culvertCount
      invariant 0 <= i <= CellCount(d)
      invariant xOffset == CellLeft(d, i)
      invariant es == PyLines(Diagonals(d, PythonCorners, i), 3)
    {
      es, xOffset := DiagonalsPass(d, i, xOffset, es);
      i := i + 1;
    }
  }

  /** One pass of the second cell scan: the diagonals of cell `i`, then past it and its wall. */
  method DiagonalsPass(d: SectionData, i: nat, xOffset: real, es: seq<PyEntity>) returns (es': seq<PyEntity>, xNext: real)
    requires i < |d.B| && xOffset == CellLeft(d, i)
    requires es == PyLines(Diagonals(d, PythonCorners, i), 3)
    ensures xNext == CellLeft(d, i + 1)
    ensures es' == PyLines(Diagonals(d, PythonCorners, i + 1), 3)
  {
    var b := d.B[i];
    var cell := AddCellDiagonals(d, PyCompartmentHaunches(d, i), xOffset, xOffset + b);
    es' := es + cell;
    PyLinesAppend(Diagonals(d, PythonCorners, i), CellDiagonalsAt(d, PythonCorners, i), 3);
    CellLeftStep(d, i);
    xNext := xOffset + b;
    if i < |d.middleWalls| {
      xNext := xNext + d.middleWalls[i].thickness;
    }
  }

  /** Girders of one column wall: an upper box, a lower box, and the X-bracing when the column top is above its bottom. */
  method AddWallGirders(d: SectionData, i: nat, wLeft: real, wRight: real, upperAdd: real, lowerAdd: real) returns (es: seq<PyEntity>)
    ensures es == GirderEntities(WallGirders(d, i, wLeft, wRight, upperAdd, lowerAdd))
  {
    var topY, bottom := d.LT + d.H, d.LT;
    var upperH := UpperOf(MiddleAt(d.haunch, i)).height;
    var lowerH := LowerOf(MiddleAt(d.haunch, i)).height;
    es := [];
    if upperAdd > 0.0 {
      var yStart := topY - upperH;
      var yEnd := yStart - upperAdd;
      es := es + [ Line(Seg(Pt(wLeft, yStart), Pt(wLeft, yEnd)), 3, true), Line(Seg(Pt(wRight, yStart), Pt(wRight, yEnd)), 3, true),
                   Line(Seg(Pt(wLeft, yEnd), Pt(wRight, yEnd)), 3, true) ];
    }
    if lowerAdd > 0.0 {
      var yStart := bottom + lowerH;
      var yEnd := yStart + lowerAdd;
      es := es + [ Line(Seg(Pt(wLeft, yStart), Pt(wLeft, yEnd)), 3, true), Line(Seg(Pt(wRight, yStart), Pt(wRight, yEnd)), 3, true),
                   Line(Seg(Pt(wLeft, yEnd), Pt(wRight, yEnd)), 3, true) ];
    }
    var xTop := if upperAdd > 0.0 then topY - upperH - upperAdd else topY - upperH;
    var xBottom := if lowerAdd > 0.0 then bottom + lowerH + lowerAdd else bottom + lowerH;
    if xTop > xBottom {
      es := es + [Line(Seg(Pt(wLeft, xTop), Pt(wRight, xBottom)), 3, false), Line(Seg(Pt(wRight, xTop), Pt(wLeft, xBottom)), 3, false)];
    }
  }

  lemma GirdersStep(d: SectionData, i: nat, upperAdd: real, lowerAdd: real)
    requires i < |d.B|
    ensures GirderEntities(GirdersUpTo(d, i + 1, upperAdd, lowerAdd))
            == GirderEntities(GirdersUpTo(d, i, upperAdd, lowerAdd)) + GirderEntities(GirdersAfterCell(d, i, upperAdd, lowerAdd))
  {
    GirderEntitiesAppend(GirdersUpTo(d, i, upperAdd, lowerAdd), GirdersAfterCell(d, i, upperAdd, lowerAdd));
  }

  /** What the girder scan appends after cell `i`: the girders of wall `i` when it is a column wall. */
  method AddCellGirders(d: SectionData, i: nat, wLeft: real, upperAdd: real, lowerAdd: real) returns (es: seq<PyEntity>)
    requires i < |d.B| && wLeft == WallLeft(d, i)
    ensures es == GirderEntities(GirdersAfterCell(d, i, upperAdd, lowerAdd))
  {
    es := [];
    if i < |d.middleWalls| && d.middleWalls[i].kind == Column {
      es := AddWallGirders(d, i, wLeft, wLeft + d.middleWalls[i].thickness, upperAdd, lowerAdd);
    }
  }

  /** The scan over the cells once the additional heights are known. */
  method AddGirdersUpTo(d: SectionData, upperAdd: real, lowerAdd: real) returns (es: seq<PyEntity>)
    requires Drawable(d)
    ensures es == GirderEntities(GirdersUpTo(d, CellCount(d), upperAdd, lowerAdd))
  {
    es := [];
    var xOff := d.WL;
    var i := 0;
    while i < d.culvertCount
      invariant 0 <= i <= CellCount(d)
      invariant xOff == CellLeft(d, i)
      invariant es == GirderEntities(GirdersUpTo(d, i, upperAdd, lowerAdd))
    {
      es, xOff := GirderScanStep(d, i, xOff, es, upperAdd, lowerAdd);
      i := i + 1;
    }
  }

  /** One turn of the girder scan: past cell `i`, its wall's girders, and past wall `i`. */
  method GirderScanStep(d: SectionData, i: nat, xOff: real, es: seq<PyEntity>, upperAdd: real, lowerAdd: real)
    returns (es': seq<PyEntity>, xOff': real)
    requires i < |d.B| && xOff == CellLeft(d, i)
    requires es == GirderEntities(GirdersUpTo(d, i, upperAdd, lowerAdd))
    ensures xOff' == CellLeft(d, i + 1)
    ensures es' == GirderEntities(GirdersUpTo(d, i + 1, upperAdd, lowerAdd))
  {
    xOff' := xOff + d.B[i];
    var part := AddCellGirders(d, i, xOff', upperAdd, lowerAdd);
    GirdersStep(d, i, upperAdd, lowerAdd);
    es' := es + part;
    CellLeftStep(d, i);
    if i < |d.middleWalls| {
      xOff' := xOff' + d.middleWalls[i].thickness;
    }
  }

  /** The girder scan: only with girder data, a middle wall and a positive additional height. */
  method AddGirders(d: SectionData) returns (es: seq<PyEntity>)
    requires Drawable(d)
    ensures es == GirderEntities(Girders(d))
  {
    es := [];
    if d.columnGirder.None? || |d.middleWalls| == 0 {
      return;
    }
    var upperAdd := d.columnGirder.value.upperAdditionalHeight;
    var lowerAdd := d.columnGirder.value.lowerAdditionalHeight;
    if !(upperAdd > 0.0 || lowerAdd > 0.0) {
      return;
    }
    assert GirderAdds(d) == Some((upperAdd, lowerAdd));
    es := AddGirdersUpTo(d, upperAdd, lowerAdd);
  }

  /** One column leader: the line from the wall face, the tick, and the two texts. */
  method AddLeader(surface: real, midY: real, cg: ColumnGirder) returns (es: seq<PyEntity>)
    ensures es == [ Line(Seg(Pt(surface, midY), Pt(surface + 800.0, midY)), 7, false),
                    Line(Seg(Pt(surface + 800.0, midY), Pt(surface + 800.0, midY + 45.0)), 7, false),
                    Text(CtcLabel(Trunc(cg.columnCTC)), Pt(surface + 800.0 + 50.0, midY + 22.5), 150.0, 7),
                    Text(WidthLabel(Trunc(cg.columnWidth)), Pt(surface + 800.0 + 50.0, midY - 202.5), 150.0, 7) ]
  {
    var leaderLen, textHeight := 800.0, 150.0;
    var lineGap := textHeight * 1.5;
    var leaderEnd := surface + leaderLen;
    es := [Line(Seg(Pt(surface, midY), Pt(leaderEnd, midY)), 7, false)];
    es := es + [Line(Seg(Pt(leaderEnd, midY), Pt(leaderEnd, midY + textHeight * 0.3)), 7, false)];
    es := es + [Text(CtcLabel(Trunc(cg.columnCTC)), Pt(leaderEnd + 50.0, midY + lineGap * 0.1), textHeight, 7)];
    es := es + [Text(WidthLabel(Trunc(cg.columnWidth)), Pt(leaderEnd + 50.0, midY - lineGap * 0.9), textHeight, 7)];
  }

  /** The leader scan: one leader per column wall. */
  method AddLeaders(d: SectionData) returns (es: seq<PyEntity>)
    requires Drawable(d)
    ensures es == PyLeaders(d)
  {
    es := [];
    if d.columnGirder.None? || |d.middleWalls| == 0 {
      return;
    }
    var cg := d.columnGirder.value;
    var midY := d.LT + d.H / 2.0;
    var xOff := d.WL;
    var i := 0;
    while i < d.culvertCount
      invariant 0 <= i <= CellCount(d)
      invariant xOff == CellLeft(d, i)
      invariant es == LeadersUpTo(d, i, cg)
    {
      es, xOff := LeaderPass(d, i, xOff, midY, cg, es);
      i := i + 1;
    }
  }

  /** One pass of the leader scan: past cell `i`, and the leader of its wall when that is a column wall. */
  method LeaderPass(d: SectionData, i: nat, xOff: real, midY: real, cg: ColumnGirder, es: seq<PyEntity>)
    returns (es': seq<PyEntity>, xNext: real)
    requires i < |d.B| && xOff == CellLeft(d, i) && midY == d.LT + d.H / 2.0
    requires es == LeadersUpTo(d, i, cg)
    ensures xNext == CellLeft(d, i + 1)
    ensures es' == LeadersUpTo(d, i + 1, cg)
  {
    es' := es;
    xNext := xOff + d.B[i];
    CellLeftStep(d, i);
    if i < |d.middleWalls| {
      var wall := d.middleWalls[i];
      if wall.kind == Column {
        var part := AddLeader(xNext + wall.thickness, midY, cg);
        es' := es' + part;
      }
      xNext := xNext + wall.thickness;
    }
  }

  method AddSlabs(d: SectionData, dims: Dims) returns (es: seq<PyEntity>)
    ensures es == PySlabs(d, dims)
  {
    es := [];
    if AntiFloatOn(d) {
      var (l, r) := Extensions(d);
      var tw := dims.totalWidth;
      if l > 0.0 {
        es := es + [LwPolyline([Pt(0.0, d.LT), Pt(-l, d.LT), Pt(-l, 0.0), Pt(0.0, 0.0)], 7)];
      }
      if r > 0.0 {
        es := es + [LwPolyline([Pt(tw, d.LT), Pt(tw + r, d.LT), Pt(tw + r, 0.0), Pt(tw, 0.0)], 7)];
      }
    }
  }

  /** The hatch loop: `x` starts 200 right of the line's left end and steps by 400 while `x <= lineRight`. */
  method AddHatch(lineLeft: real, lineRight: real, groundY: real) returns (es: seq<PyEntity>)
    ensures es == PyLines(Hatch(lineLeft, lineRight, groundY), 3)
  {
    es := [];
    ghost var marks := Hatch(lineLeft, lineRight, groundY);
    ghost var k: nat := 0;
    var x := lineLeft + 400.0 / 2.0;
    HatchBound(lineLeft, lineRight, 0);
    while x <= lineRight
      invariant k <= |marks|
      invariant x == HatchX(lineLeft, k)
      invariant x <= lineRight <==> k < |marks|
      invariant es == PyLines(marks[..k], 3)
      decreases |marks| - k
    {
      es := es + [Line(Seg(Pt(x, groundY), Pt(x - 200.0, groundY - 200.0)), 3, false)];
      assert marks[..k + 1] == marks[..k] + [HatchMark(lineLeft, groundY, k)];
      PyLinesAppend(marks[..k], [HatchMark(lineLeft, groundY, k)], 3);
      x := x + 400.0;
      k := k + 1;
      HatchBound(lineLeft, lineRight, k);
    }
    assert marks[..k] == marks;
  }

  method AddGround(d: SectionData, dims: Dims, ec: real) returns (es: seq<PyEntity>)
    ensures es == PyGround(d, dims, ec)
  {
    es := [];
    if ec > 0.0 {
      var groundY := dims.totalHeight + ec;
      var (lineLeft, lineRight) := GroundExtent(d, dims);
      es := [Line(Seg(Pt(lineLeft, groundY), Pt(lineRight, groundY)), 3, false)];
      var hatch := AddHatch(lineLeft, lineRight, groundY);
      es := es + hatch;
    }
  }

  method AddWater(dims: Dims, ec: real, wl: real) returns (es: seq<PyEntity>)
    ensures es == PyWater(dims, ec, wl)
  {
    es := [];
    if wl > 0.0 && ec > 0.0 {
      var waterY := dims.totalHeight + ec - wl;
      es := PyWaterMark(dims.totalWidth, 1.0, waterY);
      es := es + PyWaterMark(0.0, -1.0, waterY);
    }
  }

  /** The dimension pass, with its two cell scans. */
  method AddDims(d: SectionData, dims: Dims, ec: real, wl: real) returns (es: seq<PyEntity>)
    requires Drawable(d)
    ensures es == PyDims(d, dims, ec, wl)
  {
    var th := dims.totalHeight;
    es := LeadDims(d, dims);
    var cells := AddCellDims(d, th);
    es := es + cells + SlabWallDims(d, dims);
    if |d.middleWalls| > 0 {
      var walls := AddWallDims(d, th);
      es := es + walls;
    }
    es := es + SlabDims(d) + GroundDims(dims, ec, wl);
  }

  method AddCellDims(d: SectionData, th: real) returns (es: seq<PyEntity>)
    requires Drawable(d)
    ensures es == CellDimsUpTo(d, th, CellCount(d))
  {
    es := [];
    var xOffset := d.WL;
    var i := 0;
    while i < d.culvertCount
      invariant 0 <= i <= CellCount(d)
      invariant xOffset == CellLeft(d, i)
      invariant es == CellDimsUpTo(d, th, i)
    {
      es, xOffset := CellDimPass(d, th, i, xOffset, es);
      i := i + 1;
    }
  }

  /** One pass of the width scan: the width of cell `i`, then past it and its wall. */
  method CellDimPass(d: SectionData, th: real, i: nat, xOffset: real, es: seq<PyEntity>) returns (es': seq<PyEntity>, xNext: real)
    requires i < |d.B| && xOffset == CellLeft(d, i)
    requires es == CellDimsUpTo(d, th, i)
    ensures xNext == CellLeft(d, i + 1)
    ensures es' == CellDimsUpTo(d, th, i + 1)
  {
    var b := d.B[i];
    es' := es + [LinearDim(Pt(xOffset + b / 2.0, th + 1000.0), Pt(xOffset, th), Pt(xOffset + b, th), false)];
    CellLeftStep(d, i);
    xNext := xOffset + b;
    if i < |d.middleWalls| {
      xNext := xNext + d.middleWalls[i].thickness;
    }
  }

  method AddWallDims(d: SectionData, th: real) returns (es: seq<PyEntity>)
    requires Drawable(d)
    ensures es == WallDimsUpTo(d, th, CellCount(d))
  {
    es := [];
    var xOffset := d.WL;
    var i := 0;
    while i < d.culvertCount
      invariant 0 <= i <= CellCount(d)
      invariant xOffset == CellLeft(d, i)
      invariant es == WallDimsUpTo(d, th, i)
    {
      es, xOffset := WallDimPass(d, th, i, xOffset, es);
      i := i + 1;
    }
  }

  /** One pass of the wall scan: past cell `i`, then the thickness of its wall when it has one. */
  method WallDimPass(d: SectionData, th: real, i: nat, xOffset: real, es: seq<PyEntity>) returns (es': seq<PyEntity>, xNext: real)
    requires i < |d.B| && xOffset == CellLeft(d, i)
    requires es == WallDimsUpTo(d, th, i)
    ensures xNext == CellLeft(d, i + 1)
    ensures es' == WallDimsUpTo(d, th, i + 1)
  {
    es' := es;
    xNext := xOffset + d.B[i];
    CellLeftStep(d, i);
    if i < |d.middleWalls| {
      var t := d.middleWalls[i].thickness;
      es' := es' + [LinearDim(Pt(xNext + t / 2.0, th + 1000.0), Pt(xNext, th), Pt(xNext + t, th), false)];
      xNext := xNext + t;
    }
  }

  // ----- properties -----

  /**
   * With the slab used and extended, the wall profile stops at `LT` and
   * every slab outline point lies between the bottom and `LT`; the slab is
   * drawn as tall as the bottom slab whatever thickness it records.
   */
  lemma SlabProfileStopsAtLT(d: SectionData, dims: Dims)
    requires AntiFloatOn(d) && (Extensions(d).0 > 0.0 || Extensions(d).1 > 0.0) && d.LT >= 0.0
    ensures PyOutline(d, dims)[0].points[0] == Pt(0.0, d.LT) && PyOutline(d, dims)[0].points[3] == Pt(dims.totalWidth, d.LT)
    ensures |PySlabs(d, dims)| >= 1
    ensures forall k, j :: 0 <= k < |PySlabs(d, dims)| && 0 <= j < |PySlabs(d, dims)[k].points| ==>
              0.0 <= PySlabs(d, dims)[k].points[j].y <= d.LT
  {
  }

  /**
   * The Python and bundled exporters draw the same wall profile exactly
   * when the recorded slab thickness equals `LT` (and the slab is extended).
   */
  lemma ProfileMatchesBundleOnlyAtLT(d: SectionData, dims: Dims)
    requires AntiFloatOn(d) && (Extensions(d).0 > 0.0 || Extensions(d).1 > 0.0) && d.antiFloat.value.thickness > 0.0
    ensures PyOutline(d, dims)[0].points == DxfExport.OutlineEntities(d, dims)[0].points
            <==> d.antiFloat.value.thickness == d.LT
  {
    if PyOutline(d, dims)[0].points == DxfExport.OutlineEntities(d, dims)[0].points {
      assert PyOutline(d, dims)[0].points[0] == DxfExport.OutlineEntities(d, dims)[0].points[0];
    }
  }

  /** Four inner lines per drawn cell; line `4i + k` is edge `k` of cell `i`, shortened by the Python corner haunches. */
  lemma PyInnerEdgeAt(d: SectionData, i: nat, k: nat)
    requires Drawable(d) && i < CellCount(d) && k < 4
    ensures |PyLines(InnerEdges(d, PythonCorners, CellCount(d)), 3)| == 4 * CellCount(d)
    ensures PyLines(InnerEdges(d, PythonCorners, CellCount(d)), 3)[4 * i + k]
            == Line(CellEdges(d, PyCompartmentHaunches(d, i), CellLeft(d, i), CellLeft(d, i) + d.B[i])[k], 3, false)
  {
    InnerEdgeAt(d, PythonCorners, CellCount(d), i, k);
  }

  /** Girder lines need girder data, a middle wall and a positive additional height; continuous walls get none. */
  lemma PyGirdersNeedColumns(d: SectionData)
    requires Drawable(d)
    ensures GirderAdds(d).None? ==> GirderEntities(Girders(d)) == []
    ensures NoColumnWall(d) ==> GirderEntities(Girders(d)) == []
  {
    if NoColumnWall(d) && GirderAdds(d).Some? {
      NoColumnsNoGirders(d, CellCount(d), GirderAdds(d).value.0, GirderAdds(d).value.1);
    }
  }

  /** Water lines appear only with both a positive groundwater level and a positive earth cover: eight of them. */
  lemma PyWaterNeedsBoth(dims: Dims, ec: real, wl: real)
    ensures |PyWater(dims, ec, wl)| == if wl > 0.0 && ec > 0.0 then 8 else 0
  {
  }

  /** The Python water symbols are line for line the bundled export's. */
  lemma PyWaterMatchesBundle(x0: real, dir: real, waterY: real, k: nat)
    requires k < 4
    ensures var p := PyWaterMark(x0, dir, waterY)[k];
            var b := DxfExport.WaterMark(x0, dir, waterY)[k];
            b.LineEntity? && p.s == Seg(Pt(b.x1, b.y1), Pt(b.x2, b.y2))
  {
  }

  /**
   * Hatch marks: with `200 <= lineRight - lineLeft` there are
   * `floor((lineRight - lineLeft - 200) / 400) + 1` of them, each 200 down-left
   * of its start, and the last one starts at most at `lineRight`.
   */
  lemma PyHatchCount(d: SectionData, dims: Dims, ec: real)
    requires ec > 0.0
    ensures var (lineLeft, lineRight) := GroundExtent(d, dims);
            |PyGround(d, dims, ec)| == 1 + HatchCount(lineLeft, lineRight)
            && (lineRight - lineLeft >= 200.0 ==> HatchCount(lineLeft, lineRight) == ((lineRight - lineLeft - 200.0) / 400.0).Floor + 1)
            && (HatchCount(lineLeft, lineRight) > 0 ==> HatchX(lineLeft, HatchCount(lineLeft, lineRight) - 1) <= lineRight)
  {
    var (lineLeft, lineRight) := GroundExtent(d, dims);
    if HatchCount(lineLeft, lineRight) > 0 {
      HatchBound(lineLeft, lineRight, HatchCount(lineLeft, lineRight) - 1);
    }
  }

  lemma {:induction false} CellDimAt(d: SectionData, th: real, n: nat, i: nat)
    requires n <= |d.B| && i < n
    ensures |CellDimsUpTo(d, th, n)| == n
    ensures CellDimsUpTo(d, th, n)[i] == CellDim(d, th, i)
  {
    if i < n - 1 {
      CellDimAt(d, th, n - 1, i);
    } else if n > 1 {
      CellDimAt(d, th, n - 1, 0);
    }
  }

  /** Each Python cell-width dimension measures the same span and value as the section view's. */
  lemma PyCellDimsMatchView(d: SectionData, i: nat)
    requires Drawable(d) && i < CellCount(d)
    ensures |CellDimsUpTo(d, CalculateDimensions(d).totalHeight, CellCount(d))| == CellCount(d)
    ensures |Layout.CellWidthDims(d, CalculateDimensions(d), CellCount(d))| == CellCount(d)
    ensures var dims := CalculateDimensions(d);
            var p := CellDimsUpTo(d, dims.totalHeight, CellCount(d))[i];
            var v := Layout.CellWidthDims(d, dims, CellCount(d))[i];
            p.LinearDim? && v.HDim? && p.p1 == Pt(v.x1, v.y) && p.p2 == Pt(v.x2, v.y) && p.p2.x - p.p1.x == v.value
  {
    var dims := CalculateDimensions(d);
    CellDimAt(d, dims.totalHeight, CellCount(d), i);
    CellWidthDimAt(d, dims, CellCount(d), i);
  }

  /** No section data, no entities; with data, the outline always comes first. */
  lemma PyDrawingStartsWithOutline(data: Option<SectionData>, ground: Option<GroundInfo>)
    requires data.Some? ==> Drawable(data.value)
    ensures data.None? ==> PyDrawing(data, ground) == []
    ensures data.Some? ==> |PyDrawing(data, ground)| > 0 && PyDrawing(data, ground)[0].LwPolyline?
  {
  }
}

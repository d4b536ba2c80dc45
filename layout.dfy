/**
 * Geometric content shared by the section view and the CAD exporters: the
 * inner edges of each cell shortened by its haunches, the haunch diagonals,
 * the column girders with their X-bracing, the ground hatch and the list of
 * dimensions to draw. Each renderer turns these into its own entities.
 */
module Layout {
  import opened Section
  import opened Geometry

  datatype Point = Pt(x: real, y: real)

  datatype Seg = Seg(a: Point, b: Point)

  /** Which `getCompartmentHaunches` a renderer uses. */
  datatype CornerRule = ModuleCorners | BundleCorners | PythonCorners

  function CornersFor(rule: CornerRule, d: SectionData, i: nat): Corners
  {
    match rule
    case ModuleCorners => CompartmentHaunches(d, i)
    case BundleCorners => BundleCompartmentHaunches(d, i)
    case PythonCorners => PyCompartmentHaunches(d, i)
  }

  /** Number of cells the renderers' `for (i = 0; i < culvert_count; i++)` loops visit. */
  function CellCount(d: SectionData): nat
  {
    Max(0, d.culvertCount)
  }

  /** The renderers index `B[i]` for every visited cell. */
  predicate Drawable(d: SectionData)
  {
    d.culvertCount <= |d.B|
  }

  // ----- inner edges and haunch diagonals -----

  /** Bottom, right, top and left inner edge of a cell, each shortened by the adjacent haunch legs. */
  function CellEdges(d: SectionData, c: Corners, left: real, right: real): seq<Seg>
  {
    var bottom := d.LT;
    var top := d.LT + d.H;
    [ Seg(Pt(left + c.ll.width, bottom), Pt(right - c.lr.width, bottom)),
      Seg(Pt(right, bottom + c.lr.height), Pt(right, top - c.ur.height)),
      Seg(Pt(right - c.ur.width, top), Pt(left + c.ul.width, top)),
      Seg(Pt(left, top - c.ul.height), Pt(left, bottom + c.ll.height)) ]
  }

  predicate HasDiagonal(c: Corner)
  {
    c.width > 0.0 && c.height > 0.0
  }

  /** The diagonal of each haunch corner, from its vertical leg end to its horizontal leg end. */
  function UlDiagonal(d: SectionData, c: Corners, left: real): Seg
  {
    Seg(Pt(left, d.LT + d.H - c.ul.height), Pt(left + c.ul.width, d.LT + d.H))
  }

  function UrDiagonal(d: SectionData, c: Corners, right: real): Seg
  {
    Seg(Pt(right - c.ur.width, d.LT + d.H), Pt(right, d.LT + d.H - c.ur.height))
  }

  function LlDiagonal(d: SectionData, c: Corners, left: real): Seg
  {
    Seg(Pt(left, d.LT + c.ll.height), Pt(left + c.ll.width, d.LT))
  }

  function LrDiagonal(d: SectionData, c: Corners, right: real): Seg
  {
    Seg(Pt(right - c.lr.width, d.LT), Pt(right, d.LT + c.lr.height))
  }

  /** The diagonals of the upper-left, upper-right, lower-left and lower-right haunch, each only when both legs are positive. */
  function CellDiagonals(d: SectionData, c: Corners, left: real, right: real): seq<Seg>
  {
    (if HasDiagonal(c.ul) then [UlDiagonal(d, c, left)] else [])
    + (if HasDiagonal(c.ur) then [UrDiagonal(d, c, right)] else [])
    + (if HasDiagonal(c.ll) then [LlDiagonal(d, c, left)] else [])
    + (if HasDiagonal(c.lr) then [LrDiagonal(d, c, right)] else [])
  }

  function CellEdgesAt(d: SectionData, rule: CornerRule, i: nat): seq<Seg>
    requires i < |d.B|
  {
    CellEdges(d, CornersFor(rule, d, i), CellLeft(d, i), CellLeft(d, i) + d.B[i])
  }

  function CellDiagonalsAt(d: SectionData, rule: CornerRule, i: nat): seq<Seg>
    requires i < |d.B|
  {
    CellDiagonals(d, CornersFor(rule, d, i), CellLeft(d, i), CellLeft(d, i) + d.B[i])
  }

  /** Inner edges of the first `n` cells, cell by cell. */
  function InnerEdges(d: SectionData, rule: CornerRule, n: nat): seq<Seg>
    requires n <= |d.B|
  {
    if n == 0 then [] else InnerEdges(d, rule, n - 1) + CellEdgesAt(d, rule, n - 1)
  }

  /** Haunch diagonals of the first `n` cells, cell by cell. */
  function Diagonals(d: SectionData, rule: CornerRule, n: nat): seq<Seg>
    requires n <= |d.B|
  {
    if n == 0 then [] else Diagonals(d, rule, n - 1) + CellDiagonalsAt(d, rule, n - 1)
  }

  /** Exactly four inner edges per cell; edge `k` of cell `i` sits at position `4 i + k`. */
  lemma {:induction false} InnerEdgeAt(d: SectionData, rule: CornerRule, n: nat, i: nat, k: nat)
    requires n <= |d.B| && i < n && k < 4
    ensures |InnerEdges(d, rule, n)| == 4 * n
    ensures InnerEdges(d, rule, n)[4 * i + k] == CellEdgesAt(d, rule, i)[k]
  {
    InnerEdgesLength(d, rule, n - 1);
    if i < n - 1 {
      InnerEdgeAt(d, rule, n - 1, i, k);
    }
  }

  lemma {:induction false} InnerEdgesLength(d: SectionData, rule: CornerRule, n: nat)
    requires n <= |d.B|
    ensures |InnerEdges(d, rule, n)| == 4 * n
  {
    if n > 0 {
      InnerEdgesLength(d, rule, n - 1);
    }
  }

  function DiagonalCount(c: Corners): nat
  {
    (if HasDiagonal(c.ul) then 1 else 0) + (if HasDiagonal(c.ur) then 1 else 0)
    + (if HasDiagonal(c.ll) then 1 else 0) + (if HasDiagonal(c.lr) then 1 else 0)
  }

  /** One diagonal per haunch corner whose legs are both positive, so at most four per cell. */
  lemma {:induction false} DiagonalsCount(d: SectionData, rule: CornerRule, n: nat)
    requires n <= |d.B|
    ensures |Diagonals(d, rule, n)| <= 4 * n
    ensures n > 0 ==> |Diagonals(d, rule, n)| == |Diagonals(d, rule, n - 1)| + DiagonalCount(CornersFor(rule, d, n - 1))
  {
    if n > 0 {
      DiagonalsCount(d, rule, n - 1);
    }
  }

  /** `s` joins `p` and `q`, in either direction. */
  predicate Joins(s: Seg, p: Point, q: Point)
  {
    (s.a == p && s.b == q) || (s.a == q && s.b == p)
  }

  /**
   * The eight corners of a cell's clear outline, counter-clockwise from the
   * left end of the bottom edge; each haunch cuts one corner of the box.
   */
  function Outline(d: SectionData, c: Corners, left: real, right: real): (v: seq<Point>)
    ensures |v| == 8
  {
    var bottom := d.LT;
    var top := d.LT + d.H;
    [ Pt(left + c.ll.width, bottom), Pt(right - c.lr.width, bottom),
      Pt(right, bottom + c.lr.height), Pt(right, top - c.ur.height),
      Pt(right - c.ur.width, top), Pt(left + c.ul.width, top),
      Pt(left, top - c.ul.height), Pt(left, bottom + c.ll.height) ]
  }

  /** A haunch corner that is either a real triangle or no haunch at all. */
  predicate WholeCorner(c: Corner)
  {
    HasDiagonal(c) || c == ZeroCorner
  }

  /** Inner edge `k` joins outline corners `2k` and `2k+1`. */
  lemma EdgesFollowOutline(d: SectionData, c: Corners, left: real, right: real)
    ensures var v := Outline(d, c, left, right);
            var e := CellEdges(d, c, left, right);
            Joins(e[0], v[0], v[1]) && Joins(e[1], v[2], v[3]) && Joins(e[2], v[4], v[5]) && Joins(e[3], v[6], v[7])
  {
  }

  /**
   * The drawn diagonals close the cell outline: at each haunch corner either
   * a drawn diagonal joins the two outline corners the edges leave open or,
   * with no haunch, those two corners coincide; nothing else is drawn.
   */
  lemma DiagonalsCloseOutline(d: SectionData, c: Corners, left: real, right: real)
    requires WholeCorner(c.ul) && WholeCorner(c.ur) && WholeCorner(c.ll) && WholeCorner(c.lr)
    ensures var v := Outline(d, c, left, right);
            var g := CellDiagonals(d, c, left, right);
            |g| == DiagonalCount(c)
            && (if HasDiagonal(c.lr) then LrDiagonal(d, c, right) in g && Joins(LrDiagonal(d, c, right), v[1], v[2]) else v[1] == v[2])
            && (if HasDiagonal(c.ur) then UrDiagonal(d, c, right) in g && Joins(UrDiagonal(d, c, right), v[3], v[4]) else v[3] == v[4])
            && (if HasDiagonal(c.ul) then UlDiagonal(d, c, left) in g && Joins(UlDiagonal(d, c, left), v[5], v[6]) else v[5] == v[6])
            && (if HasDiagonal(c.ll) then LlDiagonal(d, c, left) in g && Joins(LlDiagonal(d, c, left), v[7], v[0]) else v[7] == v[0])
  {
  }

  // ----- column girders -----

  /** Height of the upper and lower haunch of middle wall `i`, zero when the entry is missing. */
  function WallHaunchHeights(d: SectionData, i: nat): (real, real)
  {
    var w := MiddleAt(d.haunch, i);
    (UpperOf(w).height, LowerOf(w).height)
  }

  /** Top of the column between the girders (`xTop`): below the upper haunch and, when present, the upper girder. */
  function ColumnTop(d: SectionData, i: nat, upperAdd: real): real
  {
    var top := d.LT + d.H;
    if upperAdd > 0.0 then top - WallHaunchHeights(d, i).0 - upperAdd else top - WallHaunchHeights(d, i).0
  }

  /** Bottom of the column between the girders (`xBottom`). */
  function ColumnBottom(d: SectionData, i: nat, lowerAdd: real): real
  {
    var bottom := d.LT;
    if lowerAdd > 0.0 then bottom + WallHaunchHeights(d, i).1 + lowerAdd else bottom + WallHaunchHeights(d, i).1
  }

  /** A girder line: part of a girder box, or one of the two X-bracing lines of the column. */
  datatype GirderLine = GirderLine(s: Seg, bracing: bool)

  /** Girder boxes and X-bracing of column wall `i`, from its faces `wLeft`..`wRight`. */
  function WallGirders(d: SectionData, i: nat, wLeft: real, wRight: real, upperAdd: real, lowerAdd: real): seq<GirderLine>
  {
    var top := d.LT + d.H;
    var bottom := d.LT;
    var (upperH, lowerH) := WallHaunchHeights(d, i);
    var uStart := top - upperH;
    var uEnd := uStart - upperAdd;
    var lStart := bottom + lowerH;
    var lEnd := lStart + lowerAdd;
    var xTop := ColumnTop(d, i, upperAdd);
    var xBottom := ColumnBottom(d, i, lowerAdd);
    (if upperAdd > 0.0
     then [GirderLine(Seg(Pt(wLeft, uStart), Pt(wLeft, uEnd)), false), GirderLine(Seg(Pt(wRight, uStart), Pt(wRight, uEnd)), false),
           GirderLine(Seg(Pt(wLeft, uEnd), Pt(wRight, uEnd)), false)]
     else [])
    + (if lowerAdd > 0.0
       then [GirderLine(Seg(Pt(wLeft, lStart), Pt(wLeft, lEnd)), false), GirderLine(Seg(Pt(wRight, lStart), Pt(wRight, lEnd)), false),
             GirderLine(Seg(Pt(wLeft, lEnd), Pt(wRight, lEnd)), false)]
       else [])
    + (if xTop > xBottom
       then [GirderLine(Seg(Pt(wLeft, xTop), Pt(wRight, xBottom)), true), GirderLine(Seg(Pt(wRight, xTop), Pt(wLeft, xBottom)), true)]
       else [])
  }

  /** Girders contributed by the wall after cell `i`: only a column wall that exists draws any. */
  function GirdersAfterCell(d: SectionData, i: nat, upperAdd: real, lowerAdd: real): seq<GirderLine>
    requires i < |d.B|
  {
    if i < |d.middleWalls| && d.middleWalls[i].kind == Column then
      WallGirders(d, i, WallLeft(d, i), WallLeft(d, i) + d.middleWalls[i].thickness, upperAdd, lowerAdd)
    else []
  }

  function GirdersUpTo(d: SectionData, n: nat, upperAdd: real, lowerAdd: real): seq<GirderLine>
    requires n <= |d.B|
  {
    if n == 0 then [] else GirdersUpTo(d, n - 1, upperAdd, lowerAdd) + GirdersAfterCell(d, n - 1, upperAdd, lowerAdd)
  }

  /** Additional girder heights, `|| 0`, or `None` when `drawColumnGirders` returns early. */
  function GirderAdds(d: SectionData): Option<(real, real)>
  {
    if |d.middleWalls| == 0 || d.columnGirder.None? then None
    else
      var upperAdd := d.columnGirder.value.upperAdditionalHeight;
      var lowerAdd := d.columnGirder.value.lowerAdditionalHeight;
      if upperAdd <= 0.0 && lowerAdd <= 0.0 then None else Some((upperAdd, lowerAdd))
  }

  /** Everything `drawColumnGirders` draws. */
  function Girders(d: SectionData): seq<GirderLine>
    requires Drawable(d)
  {
    match GirderAdds(d)
    case None => []
    case Some((u, l)) => GirdersUpTo(d, CellCount(d), u, l)
  }

  /**
   * Per column wall: three box lines per girder that is drawn and the two
   * X-bracing lines exactly when the column top is above its bottom; the
   * bracing runs corner to corner between `xTop` and `xBottom`.
   */
  lemma WallGirdersShape(d: SectionData, i: nat, wLeft: real, wRight: real, upperAdd: real, lowerAdd: real)
    ensures var g := WallGirders(d, i, wLeft, wRight, upperAdd, lowerAdd);
            var boxes := (if upperAdd > 0.0 then 3 else 0) + (if lowerAdd > 0.0 then 3 else 0);
            var xTop := ColumnTop(d, i, upperAdd);
            var xBottom := ColumnBottom(d, i, lowerAdd);
            |g| == boxes + (if xTop > xBottom then 2 else 0)
            && (forall k :: 0 <= k < boxes ==> !g[k].bracing)
            && (xTop > xBottom ==>
                  g[boxes] == GirderLine(Seg(Pt(wLeft, xTop), Pt(wRight, xBottom)), true)
                  && g[boxes + 1] == GirderLine(Seg(Pt(wRight, xTop), Pt(wLeft, xBottom)), true))
  {
  }

  predicate NoColumnWall(d: SectionData)
  {
    forall k :: 0 <= k < |d.middleWalls| ==> d.middleWalls[k].kind == Continuous
  }

  /** Continuous walls never get girders: with no column wall nothing is drawn. */
  lemma {:induction false} NoColumnsNoGirders(d: SectionData, n: nat, upperAdd: real, lowerAdd: real)
    requires n <= |d.B| && NoColumnWall(d)
    ensures GirdersUpTo(d, n, upperAdd, lowerAdd) == []
  {
    if n > 0 {
      NoColumnsNoGirders(d, n - 1, upperAdd, lowerAdd);
    }
  }

  /** With both additional heights non-positive the girder pass draws nothing at all. */
  lemma NoAddedHeightNoGirders(d: SectionData)
    requires Drawable(d) && d.columnGirder.Some?
    requires d.columnGirder.value.upperAdditionalHeight <= 0.0 && d.columnGirder.value.lowerAdditionalHeight <= 0.0
    ensures Girders(d) == []
  {
  }

  // ----- ground hatch -----

  /** Number of hatch marks: `x` runs from `lineLeft + 200` in steps of 400 while `x <= lineRight`. */
  function HatchCount(lineLeft: real, lineRight: real): nat
  {
    if lineRight - lineLeft - 200.0 < 0.0 then 0 else ((lineRight - lineLeft - 200.0) / 400.0).Floor + 1
  }

  function HatchX(lineLeft: real, k: nat): real
  {
    lineLeft + 200.0 + 400.0 * k as real
  }

  /** Mark `k` is drawn exactly when its position has not passed the right end of the ground line. */
  lemma HatchBound(lineLeft: real, lineRight: real, k: nat)
    ensures k < HatchCount(lineLeft, lineRight) <==> HatchX(lineLeft, k) <= lineRight
  {
    var q := (lineRight - lineLeft - 200.0) / 400.0;
    if lineRight - lineLeft - 200.0 >= 0.0 {
      assert q.Floor as real <= q < q.Floor as real + 1.0;
      if k < HatchCount(lineLeft, lineRight) {
        assert k as real <= q;
      } else {
        assert k as real >= q.Floor as real + 1.0;
      }
    }
  }

  function HatchMark(lineLeft: real, groundY: real, k: nat): Seg
  {
    var x := HatchX(lineLeft, k);
    Seg(Pt(x, groundY), Pt(x - 200.0, groundY - 200.0))
  }

  /** The hatch marks under a ground line from `lineLeft` to `lineRight` at height `groundY`. */
  function Hatch(lineLeft: real, lineRight: real, groundY: real): (r: seq<Seg>)
    ensures |r| == HatchCount(lineLeft, lineRight)
  {
    seq(HatchCount(lineLeft, lineRight), k requires 0 <= k < HatchCount(lineLeft, lineRight) => HatchMark(lineLeft, groundY, k))
  }

  /** The outermost x on either side: the structure's faces, or the anti-float slab's ends when it is used. */
  function DimOrigins(d: SectionData, dims: Dims): (real, real)
  {
    var leftX := if AntiFloatOn(d) then -d.antiFloat.value.leftExtension else 0.0;
    var rightX := if AntiFloatOn(d) then dims.totalWidth + d.antiFloat.value.rightExtension else dims.totalWidth;
    (leftX, rightX)
  }

  /** The ground line runs 500 beyond the structure (and its anti-float slab) on both sides. */
  function GroundExtent(d: SectionData, dims: Dims): (real, real)
  {
    var (leftX, rightX) := DimOrigins(d, dims);
    (leftX - 500.0, rightX + 500.0)
  }

  // ----- dimension plan -----

  /**
   * One call of the dimension helpers: a horizontal dimension between `x1`
   * and `x2` measured at `y`, or a vertical one between `y1` and `y2` at
   * `x`; `far` marks the outer tier, whose extension lines start 1000 away.
   */
  datatype DimCall =
    | HDim(x1: real, x2: real, y: real, offset: real, value: real)
    | VDim(x: real, y1: real, y2: real, offset: real, value: real, far: bool)

  /** How the anti-float slab's own dimensions are chosen. */
  datatype AntiFloatDims =
    | Independent  // section view: width iff extension > 0, thickness iff thickness > 0
    | NestedInWidth  // bundled CAD export: both only when the extension > 0

  /** Widths of the first `n` cells, measured above the top slab. */
  function CellWidthDims(d: SectionData, dims: Dims, n: nat): seq<DimCall>
    requires n <= |d.B|
  {
    if n == 0 then []
    else CellWidthDims(d, dims, n - 1) + [HDim(CellLeft(d, n - 1), CellLeft(d, n - 1) + d.B[n - 1], dims.totalHeight, 1000.0, d.B[n - 1])]
  }

  /** Thickness of every middle wall after the first `n` cells, measured above the top slab. */
  function WallDims(d: SectionData, dims: Dims, n: nat): seq<DimCall>
    requires n <= |d.B|
  {
    if n == 0 then []
    else
      WallDims(d, dims, n - 1)
      + (if n - 1 < |d.middleWalls|
         then [HDim(WallLeft(d, n - 1), WallLeft(d, n - 1) + d.middleWalls[n - 1].thickness, dims.totalHeight, 1000.0, d.middleWalls[n - 1].thickness)]
         else [])
  }

  function AntiFloatDimCalls(d: SectionData, rule: AntiFloatDims): seq<DimCall>
  {
    if !AntiFloatOn(d) then []
    else
      var l := d.antiFloat.value.leftExtension;
      var t := d.antiFloat.value.thickness;
      match rule
      case Independent =>
        (if l > 0.0 then [HDim(-l, 0.0, 0.0, -1000.0, l)] else [])
        + (if t > 0.0 then [VDim(-l, 0.0, t, -1000.0, t, false)] else [])
      case NestedInWidth =>
        if l > 0.0 then [HDim(-l, 0.0, 0.0, -1000.0, l), VDim(-l, 0.0, t, -1000.0, t, false)] else []
  }

  /** Earth cover on the outer tier when positive and, inside it, the groundwater depth when positive. */
  function GroundDimCalls(d: SectionData, dims: Dims, g: GroundInfo): seq<DimCall>
  {
    var rightX := DimOrigins(d, dims).1;
    var ec := g.earthCoverDepth;
    var wl := g.groundwaterLevel;
    var groundY := dims.totalHeight + ec;
    if ec <= 0.0 then []
    else [VDim(rightX, dims.totalHeight, groundY, 1500.0, ec, true)]
         + (if wl > 0.0 then [VDim(rightX, groundY - wl, groundY, 1000.0, wl, false)] else [])
  }

  /** The dimensions drawn before the cell widths: total width, total height, clear height. */
  function LeadDimCalls(d: SectionData, dims: Dims): seq<DimCall>
  {
    var (leftX, rightX) := DimOrigins(d, dims);
    [ HDim(0.0, dims.totalWidth, 0.0, -1000.0, dims.totalWidth),
      VDim(rightX, 0.0, dims.totalHeight, 1500.0, dims.totalHeight, true),
      VDim(leftX, d.LT, d.LT + d.H, -1000.0, d.H, false) ]
  }

  /** Top slab, bottom slab, left wall and right wall. */
  function SlabWallDimCalls(d: SectionData, dims: Dims): seq<DimCall>
  {
    var leftX := DimOrigins(d, dims).0;
    [ VDim(leftX, d.LT + d.H, dims.totalHeight, -1000.0, d.UT, false),
      VDim(leftX, 0.0, d.LT, -1000.0, d.LT, false),
      HDim(0.0, d.WL, dims.totalHeight, 1000.0, d.WL),
      HDim(dims.totalWidth - d.WR, dims.totalWidth, dims.totalHeight, 1000.0, d.WR) ]
  }

  /** `drawDimensions`: every dimension in the order the renderers draw them. */
  function DimensionPlan(d: SectionData, g: GroundInfo, rule: AntiFloatDims): seq<DimCall>
    requires Drawable(d)
  {
    var dims := CalculateDimensions(d);
    LeadDimCalls(d, dims)
    + CellWidthDims(d, dims, CellCount(d))
    + SlabWallDimCalls(d, dims)
    + (if |d.middleWalls| > 0 then WallDims(d, dims, CellCount(d)) else [])
    + AntiFloatDimCalls(d, rule)
    + GroundDimCalls(d, dims, g)
  }

  /** One width dimension per drawn cell, each spanning exactly that cell. */
  lemma {:induction false} CellWidthDimAt(d: SectionData, dims: Dims, n: nat, i: nat)
    requires n <= |d.B| && i < n
    ensures |CellWidthDims(d, dims, n)| == n
    ensures CellWidthDims(d, dims, n)[i] == HDim(CellLeft(d, i), CellLeft(d, i) + d.B[i], dims.totalHeight, 1000.0, d.B[i])
  {
    if i < n - 1 {
      CellWidthDimAt(d, dims, n - 1, i);
    } else if n > 1 {
      CellWidthDimAt(d, dims, n - 1, 0);
    }
  }

  /**
   * The two anti-float rules agree except when exactly one of extension and
   * thickness is positive: the bundled export then adds or drops the
   * thickness dimension.
   */
  lemma AntiFloatRulesAgree(d: SectionData)
    ensures AntiFloatOn(d) && (d.antiFloat.value.leftExtension > 0.0 <==> d.antiFloat.value.thickness > 0.0)
            ==> AntiFloatDimCalls(d, Independent) == AntiFloatDimCalls(d, NestedInWidth)
    ensures !AntiFloatOn(d) ==> AntiFloatDimCalls(d, Independent) == AntiFloatDimCalls(d, NestedInWidth) == []
    ensures AntiFloatOn(d) && d.antiFloat.value.leftExtension <= 0.0 && d.antiFloat.value.thickness > 0.0
            ==> |AntiFloatDimCalls(d, Independent)| == 1 && AntiFloatDimCalls(d, NestedInWidth) == []
    ensures AntiFloatOn(d) && d.antiFloat.value.leftExtension > 0.0 && d.antiFloat.value.thickness <= 0.0
            ==> |AntiFloatDimCalls(d, Independent)| == 1 && |AntiFloatDimCalls(d, NestedInWidth)| == 2
  {
  }

  /** The groundwater dimension exists only together with the earth-cover dimension. */
  lemma WaterDimNeedsEarthCover(d: SectionData, dims: Dims, g: GroundInfo)
    ensures |GroundDimCalls(d, dims, g)| == (if g.earthCoverDepth <= 0.0 then 0 else if g.groundwaterLevel > 0.0 then 2 else 1)
    ensures g.earthCoverDepth > 0.0 ==> GroundDimCalls(d, dims, g)[0].VDim? && GroundDimCalls(d, dims, g)[0].far
  {
  }
}

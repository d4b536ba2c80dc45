/**
 * The buoyancy check report. The section is cut into numbered rectangles
 * and triangles in a fixed order (top slab, bottom slab, left wall, each
 * middle wall, right wall, the haunches, the anti-float slab); each shape
 * weighs `γc · area / 10^6` kN per metre; the soil over the roof adds
 * `γs · width · cover / 10^6`; the uplift is `γw · hw · bottom width`; the
 * safety factor `(Wc + Ws) / U` must reach 1.20.
 *
 * The JavaScript report and the Python report share this logic and differ
 * only in how they fill in values: JavaScript's `x || d` replaces a zero,
 * Python's `.get(k, d)` replaces only a missing key. Both resolutions are
 * given here, each producing the same `Shapes` and `Loads` records.
 */
module Report {
  import opened Section
  import opened Geometry

  const GammaC: real := 24.5
  const GammaW: real := 9.81
  const RequiredFS: real := 1.20

  // ----- the resolved inputs -----

  /** The anti-float slab as the report and the drawing use it; absent when not in use. */
  datatype Slab = Slab(leftExtension: real, rightExtension: real, thickness: real)

  /** One middle wall: its kind, the thickness its shapes are cut with, and its haunch corners. */
  datatype ReportWall = ReportWall(kind: WallKind, thickness: real, haunch: WallHaunch)

  /**
   * Everything the decomposition needs. `widthWalls` are the thicknesses
   * summed into the total width (`|| 0`); `walls` carry the thickness the
   * wall shapes are cut with (`|| 600` in JavaScript).
   */
  datatype Shapes = Shapes(
    H: real, UT: real, LT: real, WL: real, WR: real,
    B: seq<real>,
    widthWalls: seq<real>,
    walls: seq<ReportWall>,
    leftHaunch: WallHaunch,
    rightHaunch: WallHaunch,
    upperAdd: real,
    lowerAdd: real,
    antiFloat: Option<Slab>)

  /** Column spacing and width, and the ground: earth cover, groundwater depth, soil unit weight. */
  datatype Loads = Loads(ctc: real, colWidth: real, earthCover: real, gwl: real, gammaS: real)

  const Haunch300 := WallHaunch(Corner(300.0, 300.0), Corner(300.0, 300.0))
  const NoHaunch := WallHaunch(ZeroCorner, ZeroCorner)

  /** Absent column-girder data: every field reads as missing. */
  const NoGirder := ColumnGirder(0.0, 0.0, 0.0, 0.0)

  function OptOr<T>(o: Option<T>, d: T): T
  {
    if o.Some? then o.value else d
  }

  /** The haunch of middle wall `i`, or `dflt` when the haunch list is shorter. */
  function MiddleHaunch(mh: seq<WallHaunch>, i: nat, dflt: WallHaunch): WallHaunch
  {
    if i < |mh| then mh[i] else dflt
  }

  /** The middle walls as the decomposition cuts them; `orThickness` applies JavaScript's `thickness || 600`. */
  function WallsWith(mw: seq<MiddleWall>, mh: seq<WallHaunch>, dflt: WallHaunch, orThickness: bool): (r: seq<ReportWall>)
    ensures |r| == |mw|
  {
    seq(|mw|, i requires 0 <= i < |mw| =>
      ReportWall(mw[i].kind, if orThickness then Or(mw[i].thickness, 600.0) else mw[i].thickness, MiddleHaunch(mh, i, dflt)))
  }

  /** The slab when `use` is set, with its dimensions as given. */
  function KeptSlab(af: Option<AntiFloat>): Option<Slab>
  {
    if af.Some? && af.value.use then Some(Slab(af.value.leftExtension, af.value.rightExtension, af.value.thickness)) else None
  }

  /** `generateBuoyancyReport` (JavaScript): every number through `|| default`. */
  function JsReportShapes(d: SectionData): Shapes
  {
    var cg := OptOr(d.columnGirder, NoGirder);
    Shapes(Or(d.H, 4200.0), Or(d.UT, 600.0), Or(d.LT, 800.0), Or(d.WL, 600.0), Or(d.WR, 600.0),
           d.B, Thicknesses(d.middleWalls),
           WallsWith(d.middleWalls, d.haunch.middleWalls, Haunch300, true),
           OptOr(d.haunch.leftWall, Haunch300), OptOr(d.haunch.rightWall, Haunch300),
           Or(cg.upperAdditionalHeight, 200.0), Or(cg.lowerAdditionalHeight, 200.0),
           if d.antiFloat.Some? && d.antiFloat.value.use
           then Some(Slab(Or(d.antiFloat.value.leftExtension, 500.0), Or(d.antiFloat.value.rightExtension, 500.0),
                          Or(d.antiFloat.value.thickness, 300.0)))
           else None)
  }

  function JsLoads(d: SectionData, g: GroundInfo): Loads
  {
    var cg := OptOr(d.columnGirder, NoGirder);
    Loads(Or(cg.columnCTC, 3000.0), Or(cg.columnWidth, 500.0),
          Or(g.earthCoverDepth, 2000.0), Or(g.groundwaterLevel, 3000.0), Or(g.soilUnitWeight, 18.0))
  }

  /** `generate_buoyancy_report` (Python): defaults only for what is missing. */
  function PyReportShapes(d: SectionData): Shapes
  {
    Shapes(d.H, d.UT, d.LT, d.WL, d.WR, d.B, Thicknesses(d.middleWalls),
           WallsWith(d.middleWalls, d.haunch.middleWalls, Haunch300, false),
           OptOr(d.haunch.leftWall, Haunch300), OptOr(d.haunch.rightWall, Haunch300),
           if d.columnGirder.Some? then d.columnGirder.value.upperAdditionalHeight else 200.0,
           if d.columnGirder.Some? then d.columnGirder.value.lowerAdditionalHeight else 200.0,
           KeptSlab(d.antiFloat))
  }

  function PyLoads(d: SectionData, g: Option<GroundInfo>): Loads
  {
    Loads(if d.columnGirder.Some? then d.columnGirder.value.columnCTC else 3000.0,
          if d.columnGirder.Some? then d.columnGirder.value.columnWidth else 500.0,
          if g.Some? then g.value.earthCoverDepth else 2000.0,
          if g.Some? then g.value.groundwaterLevel else 3000.0,
          if g.Some? then g.value.soilUnitWeight else 18.0)
  }

  // ----- the decomposition -----

  datatype PieceKind = Rect | ColumnBody | Triangle | TwinTriangle

  /** A numbered shape of the report: its kind, its two sizes, and the area (per metre) it is weighed with. */
  datatype Piece = Piece(kind: PieceKind, w: real, h: real, area: real)

  function TotalWidth(s: Shapes): real
  {
    s.WL + Sum(s.B) + Sum(s.widthWalls) + s.WR
  }

  function TotalHeight(s: Shapes): real
  {
    s.LT + s.H + s.UT
  }

  /** The area formulas of the report, one per kind of shape. */
  function RectArea(w: real, h: real): real
  {
    w * h
  }

  function TriangleArea(w: real, h: real): real
  {
    0.5 * w * h
  }

  function TwinArea(w: real, h: real): real
  {
    2.0 * 0.5 * w * h
  }

  /** A column body's area spread over one metre of culvert: one column of width `colWidth` every `ctc`. */
  function PerMetreArea(w: real, h: real, colWidth: real, ctc: real): real
    requires ctc != 0.0
  {
    w * h * colWidth / ctc
  }

  function RectPiece(w: real, h: real): Piece
  {
    Piece(Rect, w, h, RectArea(w, h))
  }

  /** `γc · A / 10^6` with γc = 24.5 kN/m³ (`GammaC`). */
  function Weight(area: real): real
    ensures Weight(area) == GammaC * area / 1000000.0
  {
    24.5 * area / 1000000.0
  }

  /** Top slab, bottom slab, left wall. */
  function HeadPieces(s: Shapes): seq<Piece>
  {
    [RectPiece(TotalWidth(s), s.UT), RectPiece(TotalWidth(s), s.LT), RectPiece(s.WL, s.H)]
  }

  /** Upper girder height of a column wall: its upper haunch height plus the additional height. */
  function UpperGirder(s: Shapes, w: ReportWall): real
  {
    w.haunch.upper.height + s.upperAdd
  }

  function LowerGirder(s: Shapes, w: ReportWall): real
  {
    w.haunch.lower.height + s.lowerAdd
  }

  /** Clear column height between the two girders. */
  function ColumnClear(s: Shapes, w: ReportWall): real
  {
    s.H - UpperGirder(s, w) - LowerGirder(s, w)
  }

  /**
   * A continuous wall is one rectangle; a column wall is its upper and lower
   * girder and, when there is clear height and a spacing, the column body
   * weighed by `columnWidth / ctc`.
   */
  function WallPiecesOf(s: Shapes, l: Loads, w: ReportWall): seq<Piece>
  {
    if w.kind == Continuous then [RectPiece(w.thickness, s.H)]
    else
      var clear := ColumnClear(s, w);
      [RectPiece(w.thickness, UpperGirder(s, w)), RectPiece(w.thickness, LowerGirder(s, w))]
      + (if clear > 0.0 && l.ctc > 0.0 then [Piece(ColumnBody, w.thickness, clear, PerMetreArea(w.thickness, clear, l.colWidth, l.ctc))] else [])
  }

  function WallPieces(s: Shapes, l: Loads, n: nat): seq<Piece>
    requires n <= |s.walls|
  {
    if n == 0 then [] else WallPieces(s, l, n - 1) + WallPiecesOf(s, l, s.walls[n - 1])
  }

  /** An outer haunch triangle; none when either leg is not positive. */
  function TrianglePiece(c: Corner): seq<Piece>
  {
    if c.width <= 0.0 || c.height <= 0.0 then [] else [Piece(Triangle, c.width, c.height, TriangleArea(c.width, c.height))]
  }

  /** The two triangles either side of a middle wall, under one number. */
  function TwinPiece(c: Corner): seq<Piece>
  {
    if c.width <= 0.0 || c.height <= 0.0 then [] else [Piece(TwinTriangle, c.width, c.height, TwinArea(c.width, c.height))]
  }

  function MiddleHaunchPieces(s: Shapes, n: nat): seq<Piece>
    requires n <= |s.walls|
  {
    if n == 0 then []
    else MiddleHaunchPieces(s, n - 1) + TwinPiece(s.walls[n - 1].haunch.upper) + TwinPiece(s.walls[n - 1].haunch.lower)
  }

  function SlabPiece(s: Shapes): seq<Piece>
  {
    match s.antiFloat
    case None => []
    case Some(a) => [RectPiece(a.leftExtension + TotalWidth(s) + a.rightExtension, a.thickness)]
  }

  function OuterHaunchPieces(h: WallHaunch): seq<Piece>
  {
    TrianglePiece(h.upper) + TrianglePiece(h.lower)
  }

  /** The rectangles of slabs and walls: top slab, bottom slab, left wall, middle walls, right wall. */
  function BodyPieces(s: Shapes, l: Loads): seq<Piece>
  {
    HeadPieces(s) + WallPieces(s, l, |s.walls|) + [RectPiece(s.WR, s.H)]
  }

  /** The haunch triangles: left wall, each middle wall, right wall. */
  function HaunchPieces(s: Shapes): seq<Piece>
  {
    OuterHaunchPieces(s.leftHaunch) + MiddleHaunchPieces(s, |s.walls|) + OuterHaunchPieces(s.rightHaunch)
  }

  /** Every numbered shape, in the report's order. */
  function ReportPieces(s: Shapes, l: Loads): seq<Piece>
  {
    BodyPieces(s, l) + HaunchPieces(s) + SlabPiece(s)
  }

  // ----- numbering and weighing -----

  /** A report line `[No.k] …` with the weight it adds. */
  datatype Entry = Entry(no: nat, piece: Piece, weight: real)

  /** The report lines of `ps`: the k-th shape is `No.k` and weighs `γc · area / 10^6`. */
  function Entries(ps: seq<Piece>): (r: seq<Entry>)
    ensures |r| == |ps|
  {
    if |ps| == 0 then [] else Entries(ps[..|ps| - 1]) + [Entry(|ps|, ps[|ps| - 1], Weight(ps[|ps| - 1].area))]
  }

  /** Sum of the weights, in order. */
  function Total(ps: seq<Piece>): real
  {
    if |ps| == 0 then 0.0 else Total(ps[..|ps| - 1]) + Weight(ps[|ps| - 1].area)
  }

  lemma EntriesSnoc(ps: seq<Piece>, p: Piece)
    ensures Entries(ps + [p]) == Entries(ps) + [Entry(|ps| + 1, p, Weight(p.area))]
  {
    assert (ps + [p])[..|ps|] == ps;
  }

  /** Appending three pieces one after the other is appending their concatenation. */
  lemma AppendAssoc(a: seq<Piece>, b: seq<Piece>, c: seq<Piece>, d: seq<Piece>)
    ensures a + b + c + d == a + (b + c + d)
  {
  }

  lemma TotalSnoc(ps: seq<Piece>, p: Piece)
    ensures Total(ps + [p]) == Total(ps) + Weight(p.area)
  {
    assert (ps + [p])[..|ps|] == ps;
  }

  // ----- bottom, uplift and verdict -----

  /** Width the uplift acts on: with the slab, its extensions on both sides. */
  function BottomWidth(s: Shapes): real
  {
    match s.antiFloat
    case None => TotalWidth(s)
    case Some(a) => a.leftExtension + TotalWidth(s) + a.rightExtension
  }

  /** Depth of the underside below ground: cover, structure and slab. */
  function BottomDepth(s: Shapes, l: Loads): real
  {
    match s.antiFloat
    case None => l.earthCover + TotalHeight(s)
    case Some(a) => l.earthCover + TotalHeight(s) + a.thickness
  }

  /** Head of water above the underside; none when the water table is at or below it. */
  function Head(s: Shapes, l: Loads): real
  {
    if BottomDepth(s, l) - l.gwl <= 0.0 then 0.0 else BottomDepth(s, l) - l.gwl
  }

  /** Uplift in kN per metre: water unit weight times head times bottom width, both in metres. */
  function Uplift(s: Shapes, l: Loads): real
  {
    GammaW * Head(s, l) * BottomWidth(s) / 1000000.0
  }

  function SoilWeight(s: Shapes, l: Loads): real
  {
    l.gammaS * (TotalWidth(s) * l.earthCover) / 1000000.0
  }

  /** Everything the report states: the numbered shapes and the figures of sections 3 to 6. */
  datatype BuoyancyReport = BuoyancyReport(
    entries: seq<Entry>,
    totalWeight: real,
    soilWeight: real,
    bottomWidth: real,
    bottomDepth: real,
    hw: real,
    buoyancy: real,
    resistance: real,
    fs: Option<real>,
    ok: bool)

  /**
   * The report a section and its loads must produce: the verdict is O.K.
   * when there is no uplift, and otherwise when the resistance is at least
   * 1.20 times the uplift.
   */
  function ReportOf(s: Shapes, l: Loads): BuoyancyReport
  {
    var ps := ReportPieces(s, l);
    var resist := Total(ps) + SoilWeight(s, l);
    var u := Uplift(s, l);
    BuoyancyReport(Entries(ps), Total(ps), SoilWeight(s, l), BottomWidth(s), BottomDepth(s, l), Head(s, l), u, resist,
                   if u > 0.0 then Some(resist / u) else None,
                   u <= 0.0 || resist >= RequiredFS * u)
  }

  // ----- the report as the source computes it -----

  /** `shapeNo++; totalWeight += weight`: one more numbered line. */
  method AddPiece(es: seq<Entry>, total: real, ghost ps: seq<Piece>, p: Piece) returns (es': seq<Entry>, total': real)
    requires es == Entries(ps) && total == Total(ps)
    ensures es' == Entries(ps + [p]) && total' == Total(ps + [p])
  {
    var shapeNo := |es| + 1;
    var weight := GammaC * p.area / 1000000.0;
    es' := es + [Entry(shapeNo, p, weight)];
    total' := total + weight;
    EntriesSnoc(ps, p);
    TotalSnoc(ps, p);
  }

  /** `addRect`: a rectangle weighed by its full area. */
  method AddRect(es: seq<Entry>, total: real, ghost ps: seq<Piece>, w: real, h: real) returns (es': seq<Entry>, total': real)
    requires es == Entries(ps) && total == Total(ps)
    ensures es' == Entries(ps + [RectPiece(w, h)]) && total' == Total(ps + [RectPiece(w, h)])
  {
    var area := w * h;
    es', total' := AddPiece(es, total, ps, Piece(Rect, w, h, area));
  }

  /** `addTriangle`: nothing for a leg that is not positive, else half the leg product. */
  method AddTriangle(es: seq<Entry>, total: real, ghost ps: seq<Piece>, c: Corner) returns (es': seq<Entry>, total': real)
    requires es == Entries(ps) && total == Total(ps)
    ensures es' == Entries(ps + TrianglePiece(c)) && total' == Total(ps + TrianglePiece(c))
  {
    if c.width <= 0.0 || c.height <= 0.0 {
      assert ps + TrianglePiece(c) == ps;
      return es, total;
    }
    var area := 0.5 * c.width * c.height;
    es', total' := AddPiece(es, total, ps, Piece(Triangle, c.width, c.height, area));
  }

  /** `addTriangleDouble`: both triangles of a middle wall under one number. */
  method AddTwinTriangle(es: seq<Entry>, total: real, ghost ps: seq<Piece>, c: Corner) returns (es': seq<Entry>, total': real)
    requires es == Entries(ps) && total == Total(ps)
    ensures es' == Entries(ps + TwinPiece(c)) && total' == Total(ps + TwinPiece(c))
  {
    if c.width <= 0.0 || c.height <= 0.0 {
      assert ps + TwinPiece(c) == ps;
      return es, total;
    }
    var area := 2.0 * 0.5 * c.width * c.height;
    es', total' := AddPiece(es, total, ps, Piece(TwinTriangle, c.width, c.height, area));
  }

  /** One middle wall: a continuous wall, or the two girders and possibly the column body. */
  method AddWall(es: seq<Entry>, total: real, ghost ps: seq<Piece>, s: Shapes, l: Loads, w: ReportWall)
    returns (es': seq<Entry>, total': real)
    requires es == Entries(ps) && total == Total(ps)
    ensures es' == Entries(ps + WallPiecesOf(s, l, w)) && total' == Total(ps + WallPiecesOf(s, l, w))
  {
    if w.kind == Continuous {
      es', total' := AddRect(es, total, ps, w.thickness, s.H);
      return;
    }
    var upperGirderH := w.haunch.upper.height + s.upperAdd;
    es', total' := AddRect(es, total, ps, w.thickness, upperGirderH);
    var lowerGirderH := w.haunch.lower.height + s.lowerAdd;
    es', total' := AddRect(es', total', ps + [RectPiece(w.thickness, upperGirderH)], w.thickness, lowerGirderH);
    ghost var girders := [RectPiece(w.thickness, upperGirderH), RectPiece(w.thickness, lowerGirderH)];
    assert ps + [RectPiece(w.thickness, upperGirderH)] + [RectPiece(w.thickness, lowerGirderH)] == ps + girders;
    var colClearH := s.H - upperGirderH - lowerGirderH;
    if colClearH > 0.0 && l.ctc > 0.0 {
      var areaFull := w.thickness * colClearH;
      var areaPerM := areaFull * l.colWidth / l.ctc;
      var body := Piece(ColumnBody, w.thickness, colClearH, areaPerM);
      ColumnWallPieces(s, l, w);
      assert ColumnClear(s, w) == colClearH;
      assert UpperGirder(s, w) == upperGirderH && LowerGirder(s, w) == lowerGirderH;
      assert body == Piece(ColumnBody, w.thickness, ColumnClear(s, w), PerMetreArea(w.thickness, ColumnClear(s, w), l.colWidth, l.ctc));
      assert WallPiecesOf(s, l, w) == girders + [body];
      es', total' := AddPiece(es', total', ps + girders, body);
      assert ps + girders + [body] == ps + WallPiecesOf(s, l, w);
    } else {
      ColumnWallPieces(s, l, w);
      assert ps + girders == ps + WallPiecesOf(s, l, w);
    }
  }

  lemma ColumnWallPieces(s: Shapes, l: Loads, w: ReportWall)
    requires w.kind == Column
    ensures ColumnClear(s, w) > 0.0 && l.ctc > 0.0 ==>
              WallPiecesOf(s, l, w) == [RectPiece(w.thickness, UpperGirder(s, w)), RectPiece(w.thickness, LowerGirder(s, w))]
                + [Piece(ColumnBody, w.thickness, ColumnClear(s, w), PerMetreArea(w.thickness, ColumnClear(s, w), l.colWidth, l.ctc))]
    ensures !(ColumnClear(s, w) > 0.0 && l.ctc > 0.0) ==>
              WallPiecesOf(s, l, w) == [RectPiece(w.thickness, UpperGirder(s, w)), RectPiece(w.thickness, LowerGirder(s, w))]
  {
  }

  lemma WallPiecesStep(head: seq<Piece>, s: Shapes, l: Loads, i: nat)
    requires i < |s.walls|
    ensures head + WallPieces(s, l, i + 1) == head + WallPieces(s, l, i) + WallPiecesOf(s, l, s.walls[i])
  {
  }

  lemma MiddleHaunchStep(head: seq<Piece>, s: Shapes, i: nat)
    requires i < |s.walls|
    ensures head + MiddleHaunchPieces(s, i + 1)
            == head + MiddleHaunchPieces(s, i) + TwinPiece(s.walls[i].haunch.upper) + TwinPiece(s.walls[i].haunch.lower)
  {
  }

  /** The middle-wall loop of section 3. */
  method AddWalls(es: seq<Entry>, total: real, ghost head: seq<Piece>, s: Shapes, l: Loads) returns (es': seq<Entry>, total': real)
    requires es == Entries(head) && total == Total(head)
    ensures es' == Entries(head + WallPieces(s, l, |s.walls|)) && total' == Total(head + WallPieces(s, l, |s.walls|))
  {
    es', total' := es, total;
    ghost var ps := head;
    assert head + WallPieces(s, l, 0) == head;
    for i := 0 to |s.walls|
      invariant ps == head + WallPieces(s, l, i)
      invariant es' == Entries(ps) && total' == Total(ps)
    {
      es', total' := WallLoopStep(es', total', head, s, l, i);
      ps := head + WallPieces(s, l, i + 1);
    }
  }

  /** One turn of the middle-wall loop. */
  method WallLoopStep(es: seq<Entry>, total: real, ghost head: seq<Piece>, s: Shapes, l: Loads, i: nat) returns (es': seq<Entry>, total': real)
    requires i < |s.walls|
    requires es == Entries(head + WallPieces(s, l, i)) && total == Total(head + WallPieces(s, l, i))
    ensures es' == Entries(head + WallPieces(s, l, i + 1)) && total' == Total(head + WallPieces(s, l, i + 1))
  {
    es', total' := AddWall(es, total, head + WallPieces(s, l, i), s, l, s.walls[i]);
    WallPiecesStep(head, s, l, i);
  }

  /** The middle-wall haunch loop: upper then lower pair of each wall. */
  method AddMiddleHaunches(es: seq<Entry>, total: real, ghost head: seq<Piece>, s: Shapes) returns (es': seq<Entry>, total': real)
    requires es == Entries(head) && total == Total(head)
    ensures es' == Entries(head + MiddleHaunchPieces(s, |s.walls|)) && total' == Total(head + MiddleHaunchPieces(s, |s.walls|))
  {
    es', total' := es, total;
    ghost var ps := head;
    assert head + MiddleHaunchPieces(s, 0) == head;
    for i := 0 to |s.walls|
      invariant ps == head + MiddleHaunchPieces(s, i)
      invariant es' == Entries(ps) && total' == Total(ps)
    {
      es', total' := HaunchLoopStep(es', total', head, s, i);
      ps := head + MiddleHaunchPieces(s, i + 1);
    }
  }

  /** One turn of the middle-wall haunch loop. */
  method HaunchLoopStep(es: seq<Entry>, total: real, ghost head: seq<Piece>, s: Shapes, i: nat) returns (es': seq<Entry>, total': real)
    requires i < |s.walls|
    requires es == Entries(head + MiddleHaunchPieces(s, i)) && total == Total(head + MiddleHaunchPieces(s, i))
    ensures es' == Entries(head + MiddleHaunchPieces(s, i + 1)) && total' == Total(head + MiddleHaunchPieces(s, i + 1))
  {
    var h := s.walls[i].haunch;
    es', total' := AddTwinTriangle(es, total, head + MiddleHaunchPieces(s, i), h.upper);
    es', total' := AddTwinTriangle(es', total', head + MiddleHaunchPieces(s, i) + TwinPiece(h.upper), h.lower);
    MiddleHaunchStep(head, s, i);
  }

  method AddOuterHaunches(es: seq<Entry>, total: real, ghost head: seq<Piece>, h: WallHaunch) returns (es': seq<Entry>, total': real)
    requires es == Entries(head) && total == Total(head)
    ensures es' == Entries(head + OuterHaunchPieces(h)) && total' == Total(head + OuterHaunchPieces(h))
  {
    es', total' := AddTriangle(es, total, head, h.upper);
    es', total' := AddTriangle(es', total', head + TrianglePiece(h.upper), h.lower);
    assert head + TrianglePiece(h.upper) + TrianglePiece(h.lower) == head + OuterHaunchPieces(h);
  }

  /** Section 3 up to and including the right wall. */
  method WeighWalls(s: Shapes, l: Loads) returns (es: seq<Entry>, total: real)
    ensures es == Entries(BodyPieces(s, l)) && total == Total(BodyPieces(s, l))
  {
    ghost var head, walls := HeadPieces(s), WallPieces(s, l, |s.walls|);
    es, total := WeighHead(s);
    es, total := AddWalls(es, total, head, s, l);
    es, total := AddRect(es, total, head + walls, s.WR, s.H);
  }

  /** The top slab, the bottom slab and the left wall: the first three lines. */
  method WeighHead(s: Shapes) returns (es: seq<Entry>, total: real)
    ensures es == Entries(HeadPieces(s)) && total == Total(HeadPieces(s))
  {
    var totalWidth := s.WL + Sum(s.B) + Sum(s.widthWalls) + s.WR;
    ghost var ps: seq<Piece> := [];
    es, total := AddRect([], 0.0, ps, totalWidth, s.UT);
    ps := ps + [RectPiece(totalWidth, s.UT)];
    es, total := AddRect(es, total, ps, totalWidth, s.LT);
    ps := ps + [RectPiece(totalWidth, s.LT)];
    es, total := AddRect(es, total, ps, s.WL, s.H);
    ps := ps + [RectPiece(s.WL, s.H)];
    assert ps == HeadPieces(s);
  }

  /** The haunch triangles of section 3, after the walls. */
  method WeighHaunches(es: seq<Entry>, total: real, ghost head: seq<Piece>, s: Shapes) returns (es': seq<Entry>, total': real)
    requires es == Entries(head) && total == Total(head)
    ensures es' == Entries(head + HaunchPieces(s)) && total' == Total(head + HaunchPieces(s))
  {
    ghost var left := OuterHaunchPieces(s.leftHaunch);
    ghost var middle := MiddleHaunchPieces(s, |s.walls|);
    ghost var right := OuterHaunchPieces(s.rightHaunch);
    es', total' := AddOuterHaunches(es, total, head, s.leftHaunch);
    es', total' := AddMiddleHaunches(es', total', head + left, s);
    es', total' := AddOuterHaunches(es', total', head + left + middle, s.rightHaunch);
    AppendAssoc(head, left, middle, right);
  }

  /** The anti-float slab, last, when it is in use. */
  method AddSlab(es: seq<Entry>, total: real, ghost head: seq<Piece>, s: Shapes) returns (es': seq<Entry>, total': real)
    requires es == Entries(head) && total == Total(head)
    ensures es' == Entries(head + SlabPiece(s)) && total' == Total(head + SlabPiece(s))
  {
    if s.antiFloat.None? {
      assert head + SlabPiece(s) == head;
      return es, total;
    }
    var a := s.antiFloat.value;
    var afTotalWidth := a.leftExtension + (s.WL + Sum(s.B) + Sum(s.widthWalls) + s.WR) + a.rightExtension;
    es', total' := AddRect(es, total, head, afTotalWidth, a.thickness);
  }

  /** Section 3 of the report: every shape numbered and weighed, and the total self-weight Wc. */
  method WeighShapes(s: Shapes, l: Loads) returns (es: seq<Entry>, total: real)
    ensures es == Entries(ReportPieces(s, l)) && total == Total(ReportPieces(s, l))
  {
    ghost var body := BodyPieces(s, l);
    ghost var haunches := HaunchPieces(s);
    es, total := WeighWalls(s, l);
    es, total := WeighHaunches(es, total, body, s);
    es, total := AddSlab(es, total, body + haunches, s);
  }

  /** Sections 4 to 6: soil weight, uplift, resistance, safety factor and verdict. */
  method Verdict(s: Shapes, l: Loads, totalWeight: real)
    returns (soil: real, bottomWidth: real, bottomDepth: real, hw: real, buoyancy: real, resist: real, fs: Option<real>, ok: bool)
    ensures soil == SoilWeight(s, l) && bottomWidth == BottomWidth(s) && bottomDepth == BottomDepth(s, l)
    ensures hw == Head(s, l) && buoyancy == Uplift(s, l)
    ensures resist == totalWeight + SoilWeight(s, l)
    ensures fs == (if Uplift(s, l) > 0.0 then Some(resist / Uplift(s, l)) else None)
    ensures ok == (Uplift(s, l) <= 0.0 || resist >= RequiredFS * Uplift(s, l))
  {
    var totalWidth := s.WL + Sum(s.B) + Sum(s.widthWalls) + s.WR;
    var totalHeight := s.LT + s.H + s.UT;
    if s.antiFloat.Some? {
      bottomWidth := s.antiFloat.value.leftExtension + totalWidth + s.antiFloat.value.rightExtension;
      bottomDepth := l.earthCover + totalHeight + s.antiFloat.value.thickness;
    } else {
      bottomWidth := totalWidth;
      bottomDepth := l.earthCover + totalHeight;
    }
    var soilArea := totalWidth * l.earthCover;
    soil := l.gammaS * soilArea / 1000000.0;
    hw := bottomDepth - l.gwl;
    buoyancy := 0.0;
    if hw <= 0.0 {
      hw := 0.0;
    } else {
      buoyancy := GammaW * (hw / 1000.0) * (bottomWidth / 1000.0);
      assert buoyancy == GammaW * hw * bottomWidth / 1000000.0;
    }
    resist := totalWeight + soil;
    if buoyancy > 0.0 {
      var f := resist / buoyancy;
      fs := Some(f);
      ok := f >= RequiredFS;
      FactorMeetsRequirement(resist, buoyancy);
    } else {
      fs := None;
      ok := true;
    }
  }

  /** For a positive uplift, comparing the ratio with 1.20 is comparing the resistance with 1.20 times the uplift. */
  lemma FactorMeetsRequirement(resist: real, u: real)
    requires u > 0.0
    ensures resist / u >= RequiredFS <==> resist >= RequiredFS * u
  {
    assert resist == (resist / u) * u;
  }

  /** `generateBuoyancyReport` / `generate_buoyancy_report`, as numbers and verdict. */
  method GenerateBuoyancyReport(s: Shapes, l: Loads) returns (r: BuoyancyReport)
    ensures r == ReportOf(s, l)
  {
    var es, totalWeight := WeighShapes(s, l);
    var soil, bw, bd, hw, buoyancy, resist, fs, ok := Verdict(s, l, totalWeight);
    r := BuoyancyReport(es, totalWeight, soil, bw, bd, hw, buoyancy, resist, fs, ok);
  }

  // ----- what the report promises -----

  lemma {:induction false} EntriesNumbered(ps: seq<Piece>)
    ensures forall k :: 0 <= k < |ps| ==> Entries(ps)[k] == Entry(k + 1, ps[k], Weight(ps[k].area))
  {
    if |ps| > 0 {
      EntriesNumbered(ps[..|ps| - 1]);
    }
  }

  /**
   * The shapes are numbered 1, 2, 3, ... in the order of the decomposition,
   * each weighed as `γc · area / 10^6`, and Wc is the sum of those weights.
   */
  lemma ReportNumbering(s: Shapes, l: Loads)
    ensures var r := ReportOf(s, l);
            |r.entries| == |ReportPieces(s, l)|
            && (forall k :: 0 <= k < |r.entries| ==>
                  r.entries[k].no == k + 1 && r.entries[k].piece == ReportPieces(s, l)[k]
                  && r.entries[k].weight == GammaC * ReportPieces(s, l)[k].area / 1000000.0)
            && r.totalWeight == Total(ReportPieces(s, l))
  {
    EntriesNumbered(ReportPieces(s, l));
  }

  /**
   * How each numbered shape is sized and weighed: a rectangle by its full
   * area; a triangle only with both legs positive, by half their product,
   * and a middle-wall pair by twice that; a column body only with positive
   * clear height and spacing, by its area times `columnWidth / ctc`.
   */
  predicate Measured(p: Piece, l: Loads)
  {
    match p.kind
    case Rect => p.area == RectArea(p.w, p.h)
    case Triangle => p.w > 0.0 && p.h > 0.0 && p.area == TriangleArea(p.w, p.h)
    case TwinTriangle => p.w > 0.0 && p.h > 0.0 && p.area == TwinArea(p.w, p.h)
    case ColumnBody => p.h > 0.0 && l.ctc > 0.0 && p.area == PerMetreArea(p.w, p.h, l.colWidth, l.ctc)
  }

  predicate AllMeasured(ps: seq<Piece>, l: Loads)
  {
    forall k :: 0 <= k < |ps| ==> Measured(ps[k], l)
  }

  lemma MeasuredAppend(a: seq<Piece>, b: seq<Piece>, l: Loads)
    requires AllMeasured(a, l) && AllMeasured(b, l)
    ensures AllMeasured(a + b, l)
  {
    forall k | 0 <= k < |a + b|
      ensures Measured((a + b)[k], l)
    {
      if k < |a| {
        assert (a + b)[k] == a[k];
      } else {
        assert (a + b)[k] == b[k - |a|];
      }
    }
  }

  lemma {:induction false} WallPiecesMeasured(s: Shapes, l: Loads, n: nat)
    requires n <= |s.walls|
    ensures AllMeasured(WallPieces(s, l, n), l)
  {
    if n > 0 {
      WallPiecesMeasured(s, l, n - 1);
      var w := s.walls[n - 1];
      if w.kind == Column {
        ColumnWallPieces(s, l, w);
      }
      MeasuredAppend(WallPieces(s, l, n - 1), WallPiecesOf(s, l, w), l);
    }
  }

  lemma {:induction false} MiddleHaunchPiecesMeasured(s: Shapes, n: nat, l: Loads)
    requires n <= |s.walls|
    ensures AllMeasured(MiddleHaunchPieces(s, n), l)
  {
    if n > 0 {
      MiddleHaunchPiecesMeasured(s, n - 1, l);
      var h := s.walls[n - 1].haunch;
      MeasuredAppend(MiddleHaunchPieces(s, n - 1), TwinPiece(h.upper), l);
      MeasuredAppend(MiddleHaunchPieces(s, n - 1) + TwinPiece(h.upper), TwinPiece(h.lower), l);
    }
  }

  /** Every numbered shape of the report is sized and weighed as `Measured` says. */
  lemma ReportPiecesMeasured(s: Shapes, l: Loads)
    ensures AllMeasured(ReportPieces(s, l), l)
  {
    WallPiecesMeasured(s, l, |s.walls|);
    MiddleHaunchPiecesMeasured(s, |s.walls|, l);
    MeasuredAppend(HeadPieces(s), WallPieces(s, l, |s.walls|), l);
    MeasuredAppend(HeadPieces(s) + WallPieces(s, l, |s.walls|), [RectPiece(s.WR, s.H)], l);
    MeasuredAppend(OuterHaunchPieces(s.leftHaunch), MiddleHaunchPieces(s, |s.walls|), l);
    MeasuredAppend(OuterHaunchPieces(s.leftHaunch) + MiddleHaunchPieces(s, |s.walls|), OuterHaunchPieces(s.rightHaunch), l);
    MeasuredAppend(BodyPieces(s, l), HaunchPieces(s), l);
    MeasuredAppend(BodyPieces(s, l) + HaunchPieces(s), SlabPiece(s), l);
  }

  lemma PositiveProduct(a: real, b: real)
    requires a > 0.0 && b > 0.0
    ensures a * b > 0.0
  {
  }

  /**
   * A water table at or below the underside gives no head and no uplift; one
   * above it, under a positive bottom width, always gives uplift.
   */
  lemma UpliftFacts(s: Shapes, l: Loads)
    ensures BottomDepth(s, l) <= l.gwl ==> Head(s, l) == 0.0 && Uplift(s, l) == 0.0
    ensures BottomDepth(s, l) > l.gwl && BottomWidth(s) > 0.0 ==> Head(s, l) > 0.0 && Uplift(s, l) > 0.0
  {
    var hw, bw := Head(s, l), BottomWidth(s);
    if BottomDepth(s, l) > l.gwl && bw > 0.0 {
      PositiveProduct(hw, bw);
      PositiveProduct(GammaW, hw * bw);
      assert GammaW * hw * bw == GammaW * (hw * bw);
    }
  }

  /**
   * The verdict: a safety factor exists exactly when there is uplift, and
   * then the check is O.K. exactly when it reaches 1.20; without uplift the
   * check is O.K. A water table at or below the underside gives no head and
   * no uplift; one above it, under a positive bottom width, always gives
   * uplift.
   */
  lemma VerdictMeaning(s: Shapes, l: Loads)
    ensures var r := ReportOf(s, l);
            (r.fs.Some? <==> r.buoyancy > 0.0)
            && (r.fs.Some? ==> (r.ok <==> r.fs.value >= RequiredFS))
            && (r.fs.None? ==> r.ok)
            && (BottomDepth(s, l) <= l.gwl ==> r.hw == 0.0 && r.buoyancy == 0.0 && r.ok)
            && (BottomDepth(s, l) > l.gwl && BottomWidth(s) > 0.0 ==> r.hw > 0.0 && r.buoyancy > 0.0)
  {
    var r := ReportOf(s, l);
    assert r.hw == Head(s, l) && r.buoyancy == Uplift(s, l);
    assert r.fs == (if r.buoyancy > 0.0 then Some(r.resistance / r.buoyancy) else None);
    assert r.ok == (r.buoyancy <= 0.0 || r.resistance >= RequiredFS * r.buoyancy);
    VerdictOf(r.resistance, r.buoyancy, r.fs, r.ok);
    UpliftFacts(s, l);
  }

  /** The factor and verdict as computed from a resistance and an uplift. */
  lemma VerdictOf(resist: real, u: real, fs: Option<real>, ok: bool)
    requires fs == (if u > 0.0 then Some(resist / u) else None)
    requires ok == (u <= 0.0 || resist >= RequiredFS * u)
    ensures fs.Some? <==> u > 0.0
    ensures fs.Some? ==> (ok <==> fs.value >= RequiredFS)
    ensures fs.None? ==> ok
  {
    if u > 0.0 {
      FactorMeetsRequirement(resist, u);
    }
  }

  /** Both reports use the section's own total width and height. */
  lemma ReportOutlineMatchesSection(d: SectionData)
    ensures TotalWidth(PyReportShapes(d)) == CalculateDimensions(d).totalWidth
    ensures TotalHeight(PyReportShapes(d)) == CalculateDimensions(d).totalHeight
    ensures d.WL != 0.0 && d.WR != 0.0 ==> TotalWidth(JsReportShapes(d)) == CalculateDimensions(d).totalWidth
    ensures d.H != 0.0 && d.UT != 0.0 && d.LT != 0.0 ==> TotalHeight(JsReportShapes(d)) == CalculateDimensions(d).totalHeight
  {
  }

  /** Every value is given and none is zero. */
  predicate NoZeros(d: SectionData, g: GroundInfo)
  {
    d.H != 0.0 && d.UT != 0.0 && d.LT != 0.0 && d.WL != 0.0 && d.WR != 0.0
    && (forall i :: 0 <= i < |d.middleWalls| ==> d.middleWalls[i].thickness != 0.0)
    && d.columnGirder.Some?
    && d.columnGirder.value.columnCTC != 0.0 && d.columnGirder.value.columnWidth != 0.0
    && d.columnGirder.value.upperAdditionalHeight != 0.0 && d.columnGirder.value.lowerAdditionalHeight != 0.0
    && (d.antiFloat.Some? ==> d.antiFloat.value.leftExtension != 0.0 && d.antiFloat.value.rightExtension != 0.0
                              && d.antiFloat.value.thickness != 0.0)
    && g.earthCoverDepth != 0.0 && g.groundwaterLevel != 0.0 && g.soilUnitWeight != 0.0
  }

  /**
   * The JavaScript and Python reports agree whenever no value is zero: they
   * differ only in what a zero turns into. A zero earth cover shows the
   * difference: JavaScript reports 2000 mm, Python keeps no cover at all.
   */
  lemma JsAndPythonReportsAgree(d: SectionData, g: GroundInfo)
    ensures NoZeros(d, g) ==> JsReportShapes(d) == PyReportShapes(d) && JsLoads(d, g) == PyLoads(d, Some(g))
    ensures g.earthCoverDepth == 0.0 ==> JsLoads(d, g).earthCover == 2000.0 && PyLoads(d, Some(g)).earthCover == 0.0
  {
    if NoZeros(d, g) {
      var a := WallsWith(d.middleWalls, d.haunch.middleWalls, Haunch300, true);
      var b := WallsWith(d.middleWalls, d.haunch.middleWalls, Haunch300, false);
      assert a == b;
    }
  }
}

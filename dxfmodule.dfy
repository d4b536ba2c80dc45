/**
 * The ES-module CAD exporter (`generateDXF` and its helpers): an AutoCAD
 * 2000 file with three layers, the outline and one rectangle per cell as
 * light-weight polylines, and each dimension drawn as a plain line and a
 * text. It builds the file text directly rather than through a writer
 * object, and its cell rectangles ignore the haunches.
 */
module DxfModule {
  import opened Section
  import opened Geometry
  import opened Layout
  import opened Dxf

  /** The three layers and their colour numbers. */
  const ModuleLayers: seq<LayerDef> := [LayerDef("OUTER", 7), LayerDef("INNER", 3), LayerDef("DIMENSION", 1)]

  function ModuleHeader(): seq<Group>
  {
    [K(0, SECTION), K(2, HEADER), K(9, ACADVER), K(1, AC1015), K(9, INSUNITS), I(70, 4), K(0, ENDSEC)]
  }

  /** One LAYER record: name, flags 0, colour, continuous line type. */
  function LayerEntry(l: LayerDef): seq<Group>
  {
    [K(0, LAYER), W(2, l.name), I(70, 0), I(62, l.color), K(6, CONTINUOUS)]
  }

  /** The TABLES section: a LAYER table whose declared count is the literal 3, then the three records. */
  function ModuleTables(): seq<Group>
  {
    LayerTableHead + LayerEntries() + [K(0, ENDTAB), K(0, ENDSEC)]
  }

  const LayerTableHead: seq<Group> := [K(0, SECTION), K(2, TABLES), K(0, TABLE), K(2, LAYER), I(70, 3)]

  function LayerEntries(): seq<Group>
  {
    LayerEntry(ModuleLayers[0]) + LayerEntry(ModuleLayers[1]) + LayerEntry(ModuleLayers[2])
  }

  function PointGroups(p: Point): seq<Group>
  {
    [N(10, p.x), N(20, p.y)]
  }

  /** `createPolyline`: the vertex count, the open flag, then one 10/20 pair per point in order. */
  function LwPolyline(points: seq<Point>, layer: string): seq<Group>
  {
    [K(0, LWPOLYLINE), W(8, layer), I(90, |points|), I(70, 0)]
    + Flatten(seq(|points|, k requires 0 <= k < |points| => PointGroups(points[k])))
  }

  /** `createDimension`: a LINE between the two points, then a 100-high TEXT, turned 90 degrees only when vertical. */
  function Dimension(x1: real, y1: real, x2: real, y2: real, tx: real, ty: real, text: real, layer: string, vertical: bool): seq<Group>
  {
    [K(0, LINE), W(8, layer), N(10, x1), N(20, y1), N(11, x2), N(21, y2),
     K(0, TEXT), W(8, layer), N(10, tx), N(20, ty), I(40, 100), N(1, text)]
    + (if vertical then [I(50, 90)] else [])
    + [I(72, 1), N(11, tx), N(21, ty)]
  }

  /** A rectangle traced from its lower-left corner counter-clockwise and back to the start. */
  function RectPoints(x: real, y: real, w: real, h: real): seq<Point>
  {
    [Pt(x, y), Pt(x + w, y), Pt(x + w, y + h), Pt(x, y + h), Pt(x, y)]
  }

  /** Cell `i`'s rectangle: from its scanned left edge, the full clear width and height. */
  function CellRect(d: SectionData, i: nat): seq<Group>
    requires i < |d.B|
  {
    LwPolyline(RectPoints(CellLeft(d, i), d.LT, d.B[i], d.H), "INNER")
  }

  /** Cell `i`'s width, dimensioned 500 above the top of the outline. */
  function CellWidthDim(d: SectionData, top: real, i: nat): seq<Group>
    requires i < |d.B|
  {
    var x := CellLeft(d, i);
    Dimension(x, top, x + d.B[i], top, x + d.B[i] / 2.0, top + 500.0, d.B[i], "DIMENSION", false)
  }

  function CellRects(d: SectionData, n: nat): seq<Group>
    requires n <= |d.B|
  {
    Flatten(seq(n, i requires 0 <= i < n => CellRect(d, i)))
  }

  function WidthDimsUpTo(d: SectionData, top: real, n: nat): seq<Group>
    requires n <= |d.B|
  {
    Flatten(seq(n, i requires 0 <= i < n => CellWidthDim(d, top, i)))
  }

  /** The overall width, overall height and clear height dimensions. */
  function OverallDims(d: SectionData, tw: real, th: real): seq<Group>
  {
    Dimension(0.0, 0.0, tw, 0.0, 0.0, -500.0, tw, "DIMENSION", false)
    + Dimension(tw, 0.0, tw, th, tw + 500.0, th / 2.0, th, "DIMENSION", true)
    + Dimension(0.0, d.LT, 0.0, d.LT + d.H, -500.0, d.LT + d.H / 2.0, d.H, "DIMENSION", true)
  }

  /** The slab and wall thickness dimensions: UT, LT on the left, WL, WR below. */
  function MemberDims(d: SectionData, tw: real, th: real): seq<Group>
  {
    Dimension(0.0, d.LT + d.H, 0.0, th, -750.0, d.LT + d.H + d.UT / 2.0, d.UT, "DIMENSION", true)
    + Dimension(0.0, 0.0, 0.0, d.LT, -750.0, d.LT / 2.0, d.LT, "DIMENSION", true)
    + Dimension(0.0, 0.0, d.WL, 0.0, d.WL / 2.0, -750.0, d.WL, "DIMENSION", false)
    + Dimension(tw - d.WR, 0.0, tw, 0.0, tw - d.WR / 2.0, -750.0, d.WR, "DIMENSION", false)
  }

  /** Everything before the cell rectangles: the fixed sections and the outline. */
  function ModulePreamble(tw: real, th: real): seq<Group>
  {
    ModuleHeader() + ModuleTables() + [K(0, SECTION), K(2, ENTITIES)] + LwPolyline(RectPoints(0.0, 0.0, tw, th), "OUTER")
  }

  const ModuleTrailer: seq<Group> := [K(0, ENDSEC), K(0, EOF)]

  /** The file `generateDXF` writes for `d`, group by group. */
  function ModuleDxf(d: SectionData): seq<Group>
    requires Drawable(d)
  {
    var dims := CalculateDimensions(d);
    var tw := dims.totalWidth;
    var th := dims.totalHeight;
    var n := CellCount(d);
    ModulePreamble(tw, th) + CellRects(d, n) + OverallDims(d, tw, th) + WidthDimsUpTo(d, th, n) + MemberDims(d, tw, th) + ModuleTrailer
  }

  lemma FlattenSnoc<T>(ss: seq<seq<T>>, x: seq<T>)
    ensures Flatten(ss + [x]) == Flatten(ss) + x
  {
    assert (ss + [x])[..|ss|] == ss;
  }

  lemma CellRectsStep(d: SectionData, i: nat)
    requires i < |d.B|
    ensures CellRects(d, i + 1) == CellRects(d, i) + CellRect(d, i)
  {
    FlattenSnoc(seq(i, k requires 0 <= k < i => CellRect(d, k)), CellRect(d, i));
    assert seq(i + 1, k requires 0 <= k < i + 1 => CellRect(d, k)) == seq(i, k requires 0 <= k < i => CellRect(d, k)) + [CellRect(d, i)];
  }

  lemma WidthDimsStep(d: SectionData, th: real, i: nat)
    requires i < |d.B|
    ensures WidthDimsUpTo(d, th, i + 1) == WidthDimsUpTo(d, th, i) + CellWidthDim(d, th, i)
  {
    FlattenSnoc(seq(i, k requires 0 <= k < i => CellWidthDim(d, th, k)), CellWidthDim(d, th, i));
    assert seq(i + 1, k requires 0 <= k < i + 1 => CellWidthDim(d, th, k)) == seq(i, k requires 0 <= k < i => CellWidthDim(d, th, k)) + [CellWidthDim(d, th, i)];
  }

  /**
   * `generateDXF`, built as the source builds it: the fixed sections, the
   * outline, a scan over the cells with a running offset for the
   * rectangles, the overall dimensions, a second scan for the width
   * dimensions, the member dimensions and the end of file.
   */
  method GenerateDxf(d: SectionData) returns (dxf: seq<Group>)
    requires Drawable(d)
    ensures dxf == ModuleDxf(d)
  {
    var dims := CalculateDimensions(d);
    var tw := dims.totalWidth;
    var th := dims.totalHeight;
    var n := CellCount(d);
    dxf := ModulePreamble(tw, th);
    dxf := AppendCellRects(d, n, dxf);
    dxf := dxf + OverallDims(d, tw, th);
    dxf := AppendWidthDimsUpTo(d, th, n, dxf);
    dxf := dxf + MemberDims(d, tw, th) + ModuleTrailer;
  }

  /** The first scan: one INNER rectangle per cell at the running offset. */
  method AppendCellRects(d: SectionData, n: nat, start: seq<Group>) returns (dxf: seq<Group>)
    requires n <= |d.B|
    ensures dxf == start + CellRects(d, n)
  {
    dxf := start;
    var xOffset := d.WL;
    var i := 0;
    while i < n
      invariant 0 <= i <= n
      invariant xOffset == CellLeft(d, i)
      invariant dxf == start + CellRects(d, i)
    {
      CellLeftStep(d, i);
      CellRectsStep(d, i);
      dxf := dxf + LwPolyline(RectPoints(xOffset, d.LT, d.B[i], d.H), "INNER");
      xOffset := xOffset + d.B[i];
      if i < |d.middleWalls| {
        xOffset := xOffset + d.middleWalls[i].thickness;
      }
      i := i + 1;
    }
  }

  /** The second scan: one width dimension per cell above the outline. */
  method AppendWidthDimsUpTo(d: SectionData, th: real, n: nat, start: seq<Group>) returns (dxf: seq<Group>)
    requires n <= |d.B|
    ensures dxf == start + WidthDimsUpTo(d, th, n)
  {
    dxf := start;
    var xOffset := d.WL;
    var i := 0;
    while i < n
      invariant 0 <= i <= n
      invariant xOffset == CellLeft(d, i)
      invariant dxf == start + WidthDimsUpTo(d, th, i)
    {
      CellLeftStep(d, i);
      WidthDimsStep(d, th, i);
      var b := d.B[i];
      dxf := dxf + Dimension(xOffset, th, xOffset + b, th, xOffset + b / 2.0, th + 500.0, b, "DIMENSION", false);
      xOffset := xOffset + b;
      if i < |d.middleWalls| {
        xOffset := xOffset + d.middleWalls[i].thickness;
      }
      i := i + 1;
    }
  }

  /**
   * `exportDXF` of the ES modules: a section `validateData` rejects
   * produces no file; any other section produces the file of `GenerateDxf`.
   */
  method ExportModuleDxf(d: SectionData) returns (r: Option<seq<Group>>)
    requires Drawable(d)
    ensures r.Some? <==> ValidForExport(d)
    ensures r.Some? ==> r.value == ModuleDxf(d)
  {
    if !ValidForExport(d) {
      return None;
    }
    var dxf := GenerateDxf(d);
    r := Some(dxf);
  }

  // ----- properties -----

  /** Pieces of two groups each lie side by side: piece `k` fills positions `2k` and `2k + 1`. */
  lemma {:induction false} FlattenPairs<T>(ss: seq<seq<T>>)
    requires forall k :: 0 <= k < |ss| ==> |ss[k]| == 2
    ensures |Flatten(ss)| == 2 * |ss|
    ensures forall k :: 0 <= k < |ss| ==> Flatten(ss)[2 * k] == ss[k][0] && Flatten(ss)[2 * k + 1] == ss[k][1]
  {
    if |ss| > 0 {
      FlattenPairs(ss[..|ss| - 1]);
    }
  }

  /** A light-weight polyline declares as many vertices as it lists, and lists every point in order. */
  lemma LwPolylineShape(points: seq<Point>, layer: string)
    ensures var g := LwPolyline(points, layer);
            |g| == 4 + 2 * |points| && g[2] == I(90, |points|)
            && forall k :: 0 <= k < |points| ==> g[4 + 2 * k] == N(10, points[k].x) && g[5 + 2 * k] == N(20, points[k].y)
  {
    FlattenPairs(seq(|points|, k requires 0 <= k < |points| => PointGroups(points[k])));
  }

  /** A dimension is a LINE followed by a TEXT, and the text carries the rotation group exactly when it is vertical. */
  lemma DimensionShape(x1: real, y1: real, x2: real, y2: real, tx: real, ty: real, text: real, layer: string, vertical: bool)
    ensures var g := Dimension(x1, y1, x2, y2, tx, ty, text, layer, vertical);
            g[0] == K(0, LINE) && g[6] == K(0, TEXT)
            && |g| == (if vertical then 16 else 15)
            && (I(50, 90) in g <==> vertical)
  {
  }

  /** The LAYER table holds exactly three LAYER records, one per layer. */
  lemma ModuleLayerCount()
    ensures multiset(ModuleTables())[K(0, LAYER)] == 3 == |ModuleLayers|
  {
    NoLayerRecordAround();
    OneLayerRecord(ModuleLayers[0]);
    OneLayerRecord(ModuleLayers[1]);
    OneLayerRecord(ModuleLayers[2]);
    assert multiset(LayerEntries())[K(0, LAYER)] == 3;
    assert multiset(ModuleTables()) == multiset(LayerTableHead) + multiset(LayerEntries()) + multiset([K(0, ENDTAB), K(0, ENDSEC)]);
  }

  lemma NoLayerRecordAround()
    ensures multiset(LayerTableHead)[K(0, LAYER)] == 0
    ensures multiset([K(0, ENDTAB), K(0, ENDSEC)])[K(0, LAYER)] == 0
  {
    assert LayerTableHead == [K(0, SECTION), K(2, TABLES)] + [K(0, TABLE), K(2, LAYER), I(70, 3)];
  }

  /** The table declares a count of 3, and its three records name OUTER, INNER and DIMENSION, in that order. */
  lemma ModuleLayerNames()
    ensures ModuleTables()[4] == I(70, 3)
    ensures ModuleTables()[5] == K(0, LAYER) && ModuleTables()[6] == W(2, "OUTER")
    ensures ModuleTables()[10] == K(0, LAYER) && ModuleTables()[11] == W(2, "INNER")
    ensures ModuleTables()[15] == K(0, LAYER) && ModuleTables()[16] == W(2, "DIMENSION")
  {
    var e := LayerEntries();
    assert e[1] == W(2, "OUTER") && e[6] == W(2, "INNER") && e[11] == W(2, "DIMENSION");
  }

  lemma OneLayerRecord(l: LayerDef)
    ensures multiset(LayerEntry(l))[K(0, LAYER)] == 1
  {
    var e := LayerEntry(l);
    assert e == [K(0, LAYER)] + [W(2, l.name), I(70, 0), I(62, l.color), K(6, CONTINUOUS)];
  }

  /** The file opens with the HEADER section naming AutoCAD 2000 and closes with ENDSEC and EOF. */
  lemma ModuleFileFrame(d: SectionData)
    requires Drawable(d)
    ensures |ModuleDxf(d)| >= 9
    ensures ModuleDxf(d)[..7] == ModuleHeader() && ModuleDxf(d)[3] == K(1, AC1015)
    ensures ModuleDxf(d)[|ModuleDxf(d)| - 2..] == ModuleTrailer
  {
  }

  /**
   * Cell rectangles follow the running offset: each is closed by repeating
   * its first point, spans the clear height above the bottom slab, and the
   * next one starts past this cell and the wall after it.
   */
  lemma CellRectsFollowScan(d: SectionData, i: nat)
    requires i < |d.B|
    ensures var ps := RectPoints(CellLeft(d, i), d.LT, d.B[i], d.H);
            ps[0] == ps[4] && ps[0] == Pt(CellLeft(d, i), d.LT) && ps[2] == Pt(WallLeft(d, i), d.LT + d.H)
    ensures i + 1 < |d.B| ==>
              CellLeft(d, i + 1) == WallLeft(d, i) + (if i < |d.middleWalls| then d.middleWalls[i].thickness else 0.0)
  {
    if i + 1 < |d.B| {
      CellLeftStep(d, i);
    }
  }

  /**
   * Parity with the section view: when cell `i` has no haunch, the four
   * sides of the exported rectangle are the view's four inner edges of that
   * cell, in the same order and direction; with haunches, each view edge
   * lies on the matching side of the rectangle.
   */
  lemma RectangleMatchesViewEdges(d: SectionData, i: nat)
    requires i < |d.B|
    ensures var ps := RectPoints(CellLeft(d, i), d.LT, d.B[i], d.H);
            var es := CellEdgesAt(d, ModuleCorners, i);
            |es| == 4
            && (CompartmentHaunches(d, i) == ZeroCorners ==> forall k :: 0 <= k < 4 ==> es[k] == Seg(ps[k], ps[k + 1]))
            && es[0].a.y == ps[0].y == es[0].b.y && es[2].a.y == ps[2].y == es[2].b.y
            && es[1].a.x == ps[1].x == es[1].b.x && es[3].a.x == ps[3].x == es[3].b.x
  {
    var ps := RectPoints(CellLeft(d, i), d.LT, d.B[i], d.H);
    var es := CellEdgesAt(d, ModuleCorners, i);
    if CompartmentHaunches(d, i) == ZeroCorners {
      assert es[0] == Seg(ps[0], ps[1]);
      assert es[1] == Seg(ps[1], ps[2]);
      assert es[2] == Seg(ps[2], ps[3]);
      assert es[3] == Seg(ps[3], ps[4]);
    }
  }
}

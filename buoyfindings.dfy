/**
 * Where the numbered drawing and the buoyancy report disagree, as the two
 * are written, and the report that agrees with the drawing.
 *
 * Both the drawing and the report promise the same numbering ("No.k" of
 * the drawing is line k of the report). The report fills zero or missing
 * column-girder additional heights with 200 (JavaScript `|| 200`, and
 * Python's default for a missing `columnGirder`, which the desktop table
 * widget never writes), while both drawings use 0. A column wall's girders
 * are then numbered with different heights on the two sides, and the
 * column body between them differs too. The JavaScript report also fills a
 * zero slab thickness with 300 and numbers that slab, which the drawing
 * leaves out.
 *
 * The corrected reports resolve the additional heights and the slab exactly
 * as the drawings do; with them, the drawing's numbered figures are the
 * report's lines (`NumberedAsReport`).
 */
module BuoyFindings {
  import opened Section
  import opened Geometry
  import opened Report
  import opened BuoyShapes
  import opened BuoyDraw
  import opened SectionTable
  import opened TableWidget

  /** No additional girder height is given: the girder record is missing or both heights are 0. */
  predicate ZeroAdditionalHeights(d: SectionData)
  {
    d.columnGirder.Some? ==> d.columnGirder.value.upperAdditionalHeight == 0.0 && d.columnGirder.value.lowerAdditionalHeight == 0.0
  }

  /** The girders of column wall `w` as numbered by the report `r` and as drawn at `x` in `s`. */
  predicate GirdersDifferBy200(r: Shapes, s: Shapes, l: Loads, x: real, w: ReportWall)
    requires w.kind == Column
  {
    PieceSize(WallPiecesOf(r, l, w)[0]) == Size(Solid, w.thickness, UpperGirder(s, w) + 200.0)
    && FigureSize(WallFigures(s, x, w)[0]) == Size(Solid, w.thickness, UpperGirder(s, w))
    && PieceSize(WallPiecesOf(r, l, w)[1]) == Size(Solid, w.thickness, LowerGirder(s, w) + 200.0)
    && FigureSize(WallFigures(s, x, w)[1]) == Size(Solid, w.thickness, LowerGirder(s, w))
  }

  // ----- the web viewer (JavaScript) -----

  /**
   * As written: with no additional heights given, every column wall's upper
   * and lower girder is 200 higher in the report than the girder drawn
   * under the same number.
   */
  lemma JsGirdersTallerInReport(d: SectionData, l: Loads, i: nat, x: real)
    requires i < |d.middleWalls| && i < |d.haunch.middleWalls| && d.middleWalls[i].kind == Column
    requires ZeroAdditionalHeights(d)
    ensures JsReportShapes(d).walls[i] == JsDrawingShapes(d).walls[i]
    ensures GirdersDifferBy200(JsReportShapes(d), JsDrawingShapes(d), l, x, JsDrawingShapes(d).walls[i])
  {
  }

  /** The default section with its first middle wall switched to a column row. */
  const DefaultColumnSection := SectionData(3, 4200.0, 0.0, [4000.0, 4000.0, 4000.0], 600.0, 800.0, 600.0, 600.0,
    [MiddleWall(Column, 600.0), MiddleWall(Continuous, 600.0)],
    Haunch(Some(WallHaunch(Corner(150.0, 150.0), Corner(150.0, 150.0))), Some(WallHaunch(Corner(150.0, 150.0), Corner(150.0, 150.0))),
           [WallHaunch(Corner(150.0, 150.0), Corner(150.0, 150.0)), WallHaunch(Corner(150.0, 150.0), Corner(150.0, 150.0))]),
    Some(ColumnGirder(3000.0, 500.0, 0.0, 0.0)), Some(AntiFloat(false, 500.0, 500.0, 300.0)))

  /** On that section the upper girder numbered 4 is 350 high in the report and drawn 150 high. */
  lemma JsDefaultColumnGirder(l: Loads, x: real)
    ensures var r, s := JsReportShapes(DefaultColumnSection), JsDrawingShapes(DefaultColumnSection);
            PieceSize(WallPiecesOf(r, l, r.walls[0])[0]).h == 350.0 && FigureSize(WallFigures(s, x, s.walls[0])[0]).h == 150.0
  {
    JsGirdersTallerInReport(DefaultColumnSection, l, 0, x);
  }

  /** As written: a slab in use with a zero thickness is numbered 300 thick in the report and not drawn. */
  lemma JsSlabNumberedNotDrawn(d: SectionData)
    requires d.antiFloat.Some? && d.antiFloat.value.use && d.antiFloat.value.thickness == 0.0
    ensures |SlabPiece(JsReportShapes(d))| == 1 && SlabPiece(JsReportShapes(d))[0].h == 300.0
    ensures SlabFigures(JsDrawingShapes(d)) == []
  {
  }

  /** Corrected: `generateBuoyancyReport` with the additional heights and the slab resolved as the drawing does. */
  function JsReportShapesFixed(d: SectionData): Shapes
  {
    var cg := OptOr(d.columnGirder, NoGirder);
    Shapes(Or(d.H, 4200.0), Or(d.UT, 600.0), Or(d.LT, 800.0), Or(d.WL, 600.0), Or(d.WR, 600.0),
           d.B, Thicknesses(d.middleWalls),
           WallsWith(d.middleWalls, d.haunch.middleWalls, Haunch300, true),
           OptOr(d.haunch.leftWall, Haunch300), OptOr(d.haunch.rightWall, Haunch300),
           cg.upperAdditionalHeight, cg.lowerAdditionalHeight, KeptSlab(d.antiFloat))
  }

  /** Every middle wall and both outer walls have a haunch record. */
  predicate HaunchesGiven(d: SectionData)
  {
    |d.haunch.middleWalls| >= |d.middleWalls| && d.haunch.leftWall.Some? && d.haunch.rightWall.Some?
  }

  lemma WallsWithHaunchesGiven(mw: seq<MiddleWall>, mh: seq<WallHaunch>, orThickness: bool)
    requires |mh| >= |mw|
    ensures WallsWith(mw, mh, Haunch300, orThickness) == WallsWith(mw, mh, NoHaunch, orThickness)
  {
    var a, b := WallsWith(mw, mh, Haunch300, orThickness), WallsWith(mw, mh, NoHaunch, orThickness);
    forall i | 0 <= i < |mw|
      ensures a[i] == b[i]
    {
    }
  }

  /** For a valid section with its haunches given, the corrected report cuts exactly the drawn section. */
  lemma JsFixedReportIsDrawn(d: SectionData)
    requires ValidForView(d) && HaunchesGiven(d)
    ensures JsReportShapesFixed(d) == JsDrawingShapes(d)
  {
    WallsWithHaunchesGiven(d.middleWalls, d.haunch.middleWalls, true);
  }

  /**
   * Corrected: the web viewer's numbered drawing labels exactly the corrected
   * report's lines, when every middle wall is in a drawn cell, column walls
   * have a spacing and a slab in use has a thickness.
   */
  lemma JsFixedReportNumbersDrawing(d: SectionData, g: GroundInfo)
    requires ValidForView(d) && HaunchesGiven(d)
    requires |d.middleWalls| <= JsDrawCount(d) <= |d.B|
    requires ColumnsSpaced(JsDrawingShapes(d), JsLoads(d, g)) && SlabDrawn(JsDrawingShapes(d))
    ensures NumberedAsReport(Figures(JsDrawingShapes(d), JsDrawCount(d)), ReportOf(JsReportShapesFixed(d), JsLoads(d, g)))
  {
    JsFixedReportIsDrawn(d);
    DrawingLabelsReportEntries(JsDrawingShapes(d), JsLoads(d, g), JsDrawCount(d));
  }

  // ----- the desktop prototype (Python) -----

  /**
   * As written: every section the table widget reports has no girder record,
   * so the report numbers each column wall's girders 200 higher than the
   * DXF drawing draws them.
   */
  lemma PyTableGirdersTallerInReport(v: TableValues, n: int, h: Haunch, af: AntiFloat, l: Loads, i: nat, x: real)
    requires i < |v.walls| && i < |h.middleWalls| && v.walls[i].kind == Column
    ensures var d := SectionFromTable(v, n, h, af);
            PyReportShapes(d).walls[i] == PyDrawingShapes(d).walls[i]
            && GirdersDifferBy200(PyReportShapes(d), PyDrawingShapes(d), l, x, PyDrawingShapes(d).walls[i])
  {
  }

  /** Corrected: `generate_buoyancy_report` with a missing girder record read as zero additional heights. */
  function PyReportShapesFixed(d: SectionData): Shapes
  {
    var cg := OptOr(d.columnGirder, NoGirder);
    Shapes(d.H, d.UT, d.LT, d.WL, d.WR, d.B, Thicknesses(d.middleWalls),
           WallsWith(d.middleWalls, d.haunch.middleWalls, Haunch300, false),
           OptOr(d.haunch.leftWall, Haunch300), OptOr(d.haunch.rightWall, Haunch300),
           cg.upperAdditionalHeight, cg.lowerAdditionalHeight, KeptSlab(d.antiFloat))
  }

  lemma PyFixedReportIsDrawn(d: SectionData)
    requires HaunchesGiven(d)
    ensures PyReportShapesFixed(d) == PyDrawingShapes(d)
  {
    WallsWithHaunchesGiven(d.middleWalls, d.haunch.middleWalls, false);
  }

  /** Corrected: the DXF drawing labels exactly the corrected report's lines. */
  lemma PyFixedReportNumbersDrawing(d: SectionData, g: Option<GroundInfo>)
    requires HaunchesGiven(d)
    requires |d.middleWalls| <= PyDrawCount(d) <= |d.B|
    requires ColumnsSpaced(PyDrawingShapes(d), PyLoads(d, g)) && SlabDrawn(PyDrawingShapes(d))
    ensures NumberedAsReport(Figures(PyDrawingShapes(d), PyDrawCount(d)), ReportOf(PyReportShapesFixed(d), PyLoads(d, g)))
  {
    PyFixedReportIsDrawn(d);
    DrawingLabelsReportEntries(PyDrawingShapes(d), PyLoads(d, g), PyDrawCount(d));
  }

  /** The corrected Python report differs from the written one only where no girder record is given. */
  lemma PyFixedReportKeepsGivenGirder(d: SectionData)
    requires d.columnGirder.Some?
    ensures PyReportShapesFixed(d) == PyReportShapes(d)
  {
  }
}

/**
 * Drawing the numbered buoyancy shapes: `renderBuoyancyShapes` of the web
 * viewer (SVG) and `create_buoyancy_shapes_dxf` of the desktop prototype
 * (DXF). Both keep a running `shapeNo` that `addRect`, `addRectDashed` and a
 * labelled `addTri` increment before writing `No.<shapeNo>`; an unlabelled
 * triangle is drawn under the current number. Each pass of the drawing is a
 * loop here, proved to append exactly the figures `BuoyShapes` lists, so the
 * whole drawing is `Marks(Figures(s, count))`.
 *
 * A drawing is a list of `Mark`s (figure and number); the SVG elements, the
 * DXF entities, the text heights and the shape names are not modelled.
 */
module BuoyDraw {
  import opened Section
  import opened Geometry
  import opened Report
  import opened BuoyShapes
  import Layout
  import PyDxf

  // ----- the drawing primitives -----

  /** `shapeNo` and the marks drawn so far are those of the figures `fs`. */
  ghost predicate Tracks(fs: seq<Figure>, ms: seq<Mark>, no: nat)
  {
    ms == Marks(fs) && no == Labels(fs)
  }

  /** An outline (`buoy-outline`): no number. */
  method AddOutline(ghost fs: seq<Figure>, ms: seq<Mark>, no: nat, x1: real, y1: real, x2: real, y2: real)
    returns (ms': seq<Mark>, no': nat)
    requires Tracks(fs, ms, no)
    ensures Tracks(fs + [Frame(x1, y1, x2, y2)], ms', no')
    ensures no' == no && ms' == ms + [Mark(Frame(x1, y1, x2, y2), 0)]
  {
    ms', no' := ms + [Mark(Frame(x1, y1, x2, y2), 0)], no;
    LabelsSnoc(fs, Frame(x1, y1, x2, y2));
    MarksSnoc(fs, Frame(x1, y1, x2, y2));
  }

  /** `addRect`: the next number, written in a solid rectangle. */
  method AddRect(ghost fs: seq<Figure>, ms: seq<Mark>, no: nat, x1: real, y1: real, x2: real, y2: real)
    returns (ms': seq<Mark>, no': nat)
    requires Tracks(fs, ms, no)
    ensures Tracks(fs + [Box(x1, y1, x2, y2, false)], ms', no')
    ensures no' == no + 1 && ms' == ms + [Mark(Box(x1, y1, x2, y2, false), no + 1)]
  {
    no' := no + 1;
    ms' := ms + [Mark(Box(x1, y1, x2, y2, false), no')];
    LabelsSnoc(fs, Box(x1, y1, x2, y2, false));
    MarksSnoc(fs, Box(x1, y1, x2, y2, false));
  }

  /** `addRectDashed`: the next number, written in a dashed rectangle (a column body). */
  method AddRectDashed(ghost fs: seq<Figure>, ms: seq<Mark>, no: nat, x1: real, y1: real, x2: real, y2: real)
    returns (ms': seq<Mark>, no': nat)
    requires Tracks(fs, ms, no)
    ensures Tracks(fs + [Box(x1, y1, x2, y2, true)], ms', no')
    ensures no' == no + 1 && ms' == ms + [Mark(Box(x1, y1, x2, y2, true), no + 1)]
  {
    no' := no + 1;
    ms' := ms + [Mark(Box(x1, y1, x2, y2, true), no')];
    LabelsSnoc(fs, Box(x1, y1, x2, y2, true));
    MarksSnoc(fs, Box(x1, y1, x2, y2, true));
  }

  /** `addTri`: a labelled triangle takes the next number; an unlabelled one shows the current number. */
  method AddTri(ghost fs: seq<Figure>, ms: seq<Mark>, no: nat, a: Point, b: Point, c: Point, numbered: bool)
    returns (ms': seq<Mark>, no': nat)
    requires Tracks(fs, ms, no)
    ensures Tracks(fs + [Tri(a, b, c, numbered)], ms', no')
    ensures no' == (if numbered then no + 1 else no) && ms' == ms + [Mark(Tri(a, b, c, numbered), no')]
  {
    no' := if numbered then no + 1 else no;
    ms' := ms + [Mark(Tri(a, b, c, numbered), no')];
    LabelsSnoc(fs, Tri(a, b, c, numbered));
    MarksSnoc(fs, Tri(a, b, c, numbered));
  }

  // ----- the passes -----

  lemma CellFramesSnoc(s: Shapes, n: nat)
    requires 0 < n <= |s.B|
    ensures Outlines(s, n)
         == Outlines(s, n - 1) + [Frame(FrameLeft(s, n - 1), s.LT, FrameLeft(s, n - 1) + s.B[n - 1], s.LT + s.H)]
  {
  }

  /** The outer outline, then one outline per drawn cell, `xOff` advancing by `B[i]` and `thickness || 0`. */
  method DrawOutlines(ghost fs: seq<Figure>, ms: seq<Mark>, no: nat, s: Shapes, count: nat)
    returns (ghost fs': seq<Figure>, ms': seq<Mark>, no': nat)
    requires count <= |s.B| && Tracks(fs, ms, no)
    ensures fs' == fs + Outlines(s, count) && Tracks(fs', ms', no')
    ensures no' == no
  {
    ms', no' := AddOutline(fs, ms, no, 0.0, 0.0, TotalWidth(s), TotalHeight(s));
    fs' := fs + [Frame(0.0, 0.0, TotalWidth(s), TotalHeight(s))];
    var xOff := s.WL;
    var i := 0;
    while i < count
      invariant i <= count && xOff == FrameLeft(s, i)
      invariant fs' == fs + Outlines(s, i) && Tracks(fs', ms', no') && no' == no
    {
      var f := Frame(xOff, s.LT, xOff + s.B[i], s.LT + s.H);
      ms', no' := AddOutline(fs', ms', no', xOff, s.LT, xOff + s.B[i], s.LT + s.H);
      fs' := fs' + [f];
      xOff := xOff + s.B[i];
      if i < |s.widthWalls| {
        xOff := xOff + s.widthWalls[i];
      }
      i := i + 1;
      CellFramesSnoc(s, i);
    }
  }

  /** One middle wall at `x`: a wall rectangle, or two girders and, when there is room, a dashed column body. */
  method DrawWall(ghost fs: seq<Figure>, ms: seq<Mark>, no: nat, s: Shapes, x: real, w: ReportWall)
    returns (ghost fs': seq<Figure>, ms': seq<Mark>, no': nat)
    requires Tracks(fs, ms, no)
    ensures fs' == fs + WallFigures(s, x, w) && Tracks(fs', ms', no')
  {
    if w.kind == Continuous {
      ms', no' := AddRect(fs, ms, no, x, s.LT, x + w.thickness, s.LT + s.H);
      fs' := fs + [Box(x, s.LT, x + w.thickness, s.LT + s.H, false)];
    } else {
      var ug, lg := UpperGirder(s, w), LowerGirder(s, w);
      var top, bottom := GirderTop(s, x, w), GirderBottom(s, x, w);
      ms', no' := AddRect(fs, ms, no, x, s.LT + s.H - ug, x + w.thickness, s.LT + s.H);
      fs' := fs + [top];
      ms', no' := AddRect(fs', ms', no', x, s.LT, x + w.thickness, s.LT + lg);
      fs' := fs' + [bottom];
      var colBot, colTop := s.LT + lg, s.LT + s.H - ug;
      if colTop > colBot {
        ms', no' := AddRectDashed(fs', ms', no', x, colBot, x + w.thickness, colTop);
        fs' := fs' + [ColumnBox(s, x, w)];
        assert fs' == fs + ([top, bottom] + [ColumnBox(s, x, w)]);
      } else {
        assert fs' == fs + ([top, bottom] + []);
      }
    }
  }

  lemma WallSegsSnoc(s: Shapes, i: nat)
    requires i < |s.B|
    ensures MiddleWallFigures(s, i + 1) == MiddleWallFigures(s, i) + WallSeg(s, i)
  {
    FlattenSnoc(WallSegs(s, i), WallSeg(s, i));
  }

  lemma AppendStep<T>(fs: seq<T>, a: seq<T>, b: seq<T>, c: seq<T>)
    requires c == a + b
    ensures fs + a + b == fs + c
  {
  }

  /** One drawn cell of the wall pass: `xOff` moves past the cell, and past its wall if it has one. */
  method DrawWallCell(ghost fs: seq<Figure>, ms: seq<Mark>, no: nat, s: Shapes, i: nat, xOff: real)
    returns (ghost fs': seq<Figure>, ms': seq<Mark>, no': nat, xOff': real)
    requires i < |s.B| && xOff == ShapeLeft(s, i) && Tracks(fs, ms, no)
    ensures fs' == fs + WallSeg(s, i) && Tracks(fs', ms', no') && xOff' == ShapeLeft(s, i + 1)
  {
    fs', ms', no' := fs, ms, no;
    xOff' := xOff + s.B[i];
    if i < |s.walls| {
      fs', ms', no' := DrawWall(fs, ms, no, s, xOff', s.walls[i]);
      xOff' := xOff' + s.walls[i].thickness;
    }
  }

  lemma WallPassStep(s: Shapes, i: nat, fs: seq<Figure>, before: seq<Figure>, after: seq<Figure>)
    requires i < |s.B| && before == fs + MiddleWallFigures(s, i) && after == before + WallSeg(s, i)
    ensures after == fs + MiddleWallFigures(s, i + 1)
  {
    WallSegsSnoc(s, i);
    AppendStep(fs, MiddleWallFigures(s, i), WallSeg(s, i), MiddleWallFigures(s, i + 1));
  }

  /** The middle walls, cell by cell: `xOff` advances by `B[i]`, then by the wall's thickness. */
  method DrawMiddleWalls(ghost fs: seq<Figure>, ms: seq<Mark>, no: nat, s: Shapes, count: nat)
    returns (ghost fs': seq<Figure>, ms': seq<Mark>, no': nat)
    requires count <= |s.B| && Tracks(fs, ms, no)
    ensures fs' == fs + MiddleWallFigures(s, count) && Tracks(fs', ms', no')
  {
    fs', ms', no' := fs, ms, no;
    var xOff := s.WL;
    var i := 0;
    while i < count
      invariant i <= count && xOff == ShapeLeft(s, i)
      invariant fs' == fs + MiddleWallFigures(s, i) && Tracks(fs', ms', no')
    {
      ghost var before := fs';
      fs', ms', no', xOff := DrawWallCell(fs', ms', no', s, i, xOff);
      WallPassStep(s, i, fs, before, fs');
      i := i + 1;
    }
  }

  /** Slabs, left wall, middle walls, right wall: the report's order. */
  method DrawBody(ghost fs: seq<Figure>, ms: seq<Mark>, no: nat, s: Shapes, count: nat)
    returns (ghost fs': seq<Figure>, ms': seq<Mark>, no': nat)
    requires count <= |s.B| && Tracks(fs, ms, no)
    ensures fs' == fs + BodyFigures(s, count) && Tracks(fs', ms', no')
  {
    ms', no' := AddRect(fs, ms, no, 0.0, s.LT + s.H, TotalWidth(s), TotalHeight(s));
    fs' := fs + [TopSlab(s)];
    ms', no' := AddRect(fs', ms', no', 0.0, 0.0, TotalWidth(s), s.LT);
    fs' := fs' + [BottomSlab(s)];
    ms', no' := AddRect(fs', ms', no', 0.0, s.LT, s.WL, s.LT + s.H);
    fs' := fs' + [LeftWall(s)];
    ghost var head := fs';
    fs', ms', no' := DrawMiddleWalls(fs', ms', no', s, count);
    ms', no' := AddRect(fs', ms', no', TotalWidth(s) - s.WR, s.LT, TotalWidth(s), s.LT + s.H);
    fs' := fs' + [RightWall(s)];
    assert head == fs + [TopSlab(s), BottomSlab(s), LeftWall(s)];
    assert fs' == fs + ([TopSlab(s), BottomSlab(s), LeftWall(s)] + MiddleWallFigures(s, count) + [RightWall(s)]);
  }

  /** The haunch triangles of an outer wall whose inner face is at `x`, each drawn when both legs are positive. */
  method DrawOuterHaunch(ghost fs: seq<Figure>, ms: seq<Mark>, no: nat, s: Shapes, x: real, h: WallHaunch, rightward: bool)
    returns (ghost fs': seq<Figure>, ms': seq<Mark>, no': nat)
    requires Tracks(fs, ms, no)
    ensures fs' == fs + OuterFigures(s, x, h, rightward) && Tracks(fs', ms', no')
  {
    fs', ms', no' := fs, ms, no;
    ghost var up: seq<Figure>, lo: seq<Figure> := [], [];
    var uw, lw := if rightward then x + h.upper.width else x - h.upper.width, if rightward then x + h.lower.width else x - h.lower.width;
    if h.upper.width > 0.0 && h.upper.height > 0.0 {
      var a, b, c := Layout.Pt(x, s.LT + s.H), Layout.Pt(uw, s.LT + s.H), Layout.Pt(x, s.LT + s.H - h.upper.height);
      ms', no' := AddTri(fs', ms', no', a, b, c, true);
      up := [Tri(a, b, c, true)];
      fs' := fs' + up;
    }
    if h.lower.width > 0.0 && h.lower.height > 0.0 {
      var a, b, c := Layout.Pt(x, s.LT), Layout.Pt(lw, s.LT), Layout.Pt(x, s.LT + h.lower.height);
      ms', no' := AddTri(fs', ms', no', a, b, c, true);
      lo := [Tri(a, b, c, true)];
      fs' := fs' + lo;
    }
    assert up == if Positive(h.upper) then [UpperCorner(s, x, h.upper, rightward, true)] else [];
    assert lo == if Positive(h.lower) then [LowerCorner(s, x, h.lower, rightward, true)] else [];
    AppendStep(fs, up, lo, OuterFigures(s, x, h, rightward));
  }

  /**
   * The haunches of a middle wall at `x`, upper then lower: a numbered
   * triangle on the left face, then its mirror on the right face under the
   * same number (`curNo`).
   */
  method DrawPair(ghost fs: seq<Figure>, ms: seq<Mark>, no: nat, s: Shapes, x: real, w: ReportWall)
    returns (ghost fs': seq<Figure>, ms': seq<Mark>, no': nat)
    requires Tracks(fs, ms, no)
    ensures fs' == fs + PairFigures(s, x, w) && Tracks(fs', ms', no')
  {
    ghost var mid;
    mid, ms', no' := DrawUpperPair(fs, ms, no, s, x, w);
    fs', ms', no' := DrawLowerPair(mid, ms', no', s, x, w);
    ghost var up := if Positive(w.haunch.upper)
      then [UpperCorner(s, x, w.haunch.upper, false, true), UpperCorner(s, x + w.thickness, w.haunch.upper, true, false)]
      else [];
    ghost var lo := if Positive(w.haunch.lower)
      then [LowerCorner(s, x, w.haunch.lower, false, true), LowerCorner(s, x + w.thickness, w.haunch.lower, true, false)]
      else [];
    AppendStep(fs, up, lo, PairFigures(s, x, w));
  }

  /** The upper haunch pair of a middle wall at `x`, when both legs are positive. */
  method DrawUpperPair(ghost fs: seq<Figure>, ms: seq<Mark>, no: nat, s: Shapes, x: real, w: ReportWall)
    returns (ghost fs': seq<Figure>, ms': seq<Mark>, no': nat)
    requires Tracks(fs, ms, no)
    ensures fs' == fs + (if Positive(w.haunch.upper)
                         then [UpperCorner(s, x, w.haunch.upper, false, true), UpperCorner(s, x + w.thickness, w.haunch.upper, true, false)]
                         else [])
    ensures Tracks(fs', ms', no')
  {
    fs', ms', no' := fs, ms, no;
    var u, t := w.haunch.upper, w.thickness;
    if u.width > 0.0 && u.height > 0.0 {
      var a, b, c := Layout.Pt(x, s.LT + s.H), Layout.Pt(x - u.width, s.LT + s.H), Layout.Pt(x, s.LT + s.H - u.height);
      ms', no' := AddTri(fs', ms', no', a, b, c, true);
      fs' := fs' + [Tri(a, b, c, true)];
      var a', b', c' := Layout.Pt(x + t, s.LT + s.H), Layout.Pt(x + t + u.width, s.LT + s.H), Layout.Pt(x + t, s.LT + s.H - u.height);
      ms', no' := AddTri(fs', ms', no', a', b', c', false);
      fs' := fs' + [Tri(a', b', c', false)];
      assert fs' == fs + [Tri(a, b, c, true), Tri(a', b', c', false)];
    }
  }

  /** The lower haunch pair of a middle wall at `x`, when both legs are positive. */
  method DrawLowerPair(ghost fs: seq<Figure>, ms: seq<Mark>, no: nat, s: Shapes, x: real, w: ReportWall)
    returns (ghost fs': seq<Figure>, ms': seq<Mark>, no': nat)
    requires Tracks(fs, ms, no)
    ensures fs' == fs + (if Positive(w.haunch.lower)
                         then [LowerCorner(s, x, w.haunch.lower, false, true), LowerCorner(s, x + w.thickness, w.haunch.lower, true, false)]
                         else [])
    ensures Tracks(fs', ms', no')
  {
    fs', ms', no' := fs, ms, no;
    var l, t := w.haunch.lower, w.thickness;
    if l.width > 0.0 && l.height > 0.0 {
      var a, b, c := Layout.Pt(x, s.LT), Layout.Pt(x - l.width, s.LT), Layout.Pt(x, s.LT + l.height);
      ms', no' := AddTri(fs', ms', no', a, b, c, true);
      fs' := fs' + [Tri(a, b, c, true)];
      var a', b', c' := Layout.Pt(x + t, s.LT), Layout.Pt(x + t + l.width, s.LT), Layout.Pt(x + t, s.LT + l.height);
      ms', no' := AddTri(fs', ms', no', a', b', c', false);
      fs' := fs' + [Tri(a', b', c', false)];
      assert fs' == fs + [Tri(a, b, c, true), Tri(a', b', c', false)];
    }
  }

  lemma PairSegsSnoc(s: Shapes, i: nat)
    requires i < |s.B|
    ensures MiddleHaunchFigures(s, i + 1) == MiddleHaunchFigures(s, i) + PairSeg(s, i)
  {
    FlattenSnoc(PairSegs(s, i), PairSeg(s, i));
  }

  /** One drawn cell of the haunch pass. */
  method DrawPairCell(ghost fs: seq<Figure>, ms: seq<Mark>, no: nat, s: Shapes, i: nat, xOff: real)
    returns (ghost fs': seq<Figure>, ms': seq<Mark>, no': nat, xOff': real)
    requires i < |s.B| && xOff == ShapeLeft(s, i) && Tracks(fs, ms, no)
    ensures fs' == fs + PairSeg(s, i) && Tracks(fs', ms', no') && xOff' == ShapeLeft(s, i + 1)
  {
    fs', ms', no' := fs, ms, no;
    xOff' := xOff + s.B[i];
    if i < |s.walls| {
      fs', ms', no' := DrawPair(fs, ms, no, s, xOff', s.walls[i]);
      xOff' := xOff' + s.walls[i].thickness;
    }
  }

  lemma PairPassStep(s: Shapes, i: nat, fs: seq<Figure>, before: seq<Figure>, after: seq<Figure>)
    requires i < |s.B| && before == fs + MiddleHaunchFigures(s, i) && after == before + PairSeg(s, i)
    ensures after == fs + MiddleHaunchFigures(s, i + 1)
  {
    PairSegsSnoc(s, i);
    AppendStep(fs, MiddleHaunchFigures(s, i), PairSeg(s, i), MiddleHaunchFigures(s, i + 1));
  }

  method DrawMiddleHaunches(ghost fs: seq<Figure>, ms: seq<Mark>, no: nat, s: Shapes, count: nat)
    returns (ghost fs': seq<Figure>, ms': seq<Mark>, no': nat)
    requires count <= |s.B| && Tracks(fs, ms, no)
    ensures fs' == fs + MiddleHaunchFigures(s, count) && Tracks(fs', ms', no')
  {
    fs', ms', no' := fs, ms, no;
    var xOff := s.WL;
    var i := 0;
    while i < count
      invariant i <= count && xOff == ShapeLeft(s, i)
      invariant fs' == fs + MiddleHaunchFigures(s, i) && Tracks(fs', ms', no')
    {
      ghost var before := fs';
      fs', ms', no', xOff := DrawPairCell(fs', ms', no', s, i, xOff);
      PairPassStep(s, i, fs, before, fs');
      i := i + 1;
    }
  }

  /** Left wall haunches, middle wall haunch pairs, right wall haunches (pointing left, from `totalWidth - WR`). */
  method DrawHaunches(ghost fs: seq<Figure>, ms: seq<Mark>, no: nat, s: Shapes, count: nat)
    returns (ghost fs': seq<Figure>, ms': seq<Mark>, no': nat)
    requires count <= |s.B| && Tracks(fs, ms, no)
    ensures fs' == fs + HaunchFigures(s, count) && Tracks(fs', ms', no')
  {
    ghost var left, right := OuterFigures(s, s.WL, s.leftHaunch, true), OuterFigures(s, TotalWidth(s) - s.WR, s.rightHaunch, false);
    fs', ms', no' := DrawOuterHaunch(fs, ms, no, s, s.WL, s.leftHaunch, true);
    ghost var f1 := fs';
    fs', ms', no' := DrawMiddleHaunches(fs', ms', no', s, count);
    ghost var f2 := fs';
    var rwLeft := TotalWidth(s) - s.WR;
    fs', ms', no' := DrawOuterHaunch(fs', ms', no', s, rwLeft, s.rightHaunch, false);
    ThreeParts(fs, f1, f2, fs', left, MiddleHaunchFigures(s, count), right);
  }

  lemma ThreeParts<T>(fs: seq<T>, f1: seq<T>, f2: seq<T>, f3: seq<T>, a: seq<T>, b: seq<T>, c: seq<T>)
    requires f1 == fs + a && f2 == f1 + b && f3 == f2 + c
    ensures f3 == fs + (a + b + c)
  {
  }

  /** The anti-float slab, drawn only when in use with a positive thickness. */
  method DrawSlab(ghost fs: seq<Figure>, ms: seq<Mark>, no: nat, s: Shapes)
    returns (ghost fs': seq<Figure>, ms': seq<Mark>, no': nat)
    requires Tracks(fs, ms, no)
    ensures fs' == fs + SlabFigures(s) && Tracks(fs', ms', no')
  {
    fs', ms', no' := fs, ms, no;
    if s.antiFloat.Some? && s.antiFloat.value.thickness > 0.0 {
      var a := s.antiFloat.value;
      ms', no' := AddRect(fs, ms, no, -a.leftExtension, -a.thickness, TotalWidth(s) + a.rightExtension, 0.0);
      fs' := fs + [Box(-a.leftExtension, -a.thickness, TotalWidth(s) + a.rightExtension, 0.0, false)];
    }
  }

  /**
   * The whole numbered drawing of `count` cells: the outlines, then the
   * shapes in the report's order. Every figure carries the number of
   * labelled figures drawn up to it (see `BuoyShapes.Marks`).
   */
  method DrawShapes(s: Shapes, count: nat) returns (ms: seq<Mark>)
    requires count <= |s.B|
    ensures ms == Marks(Figures(s, count))
  {
    var no: nat := 0;
    ghost var fs: seq<Figure> := [];
    ms := [];
    fs, ms, no := DrawOutlines(fs, ms, no, s, count);
    ghost var f1 := fs;
    fs, ms, no := DrawBody(fs, ms, no, s, count);
    ghost var f2 := fs;
    fs, ms, no := DrawHaunches(fs, ms, no, s, count);
    ghost var f3 := fs;
    fs, ms, no := DrawSlab(fs, ms, no, s);
    ThreeParts(f1, f2, f3, fs, BodyFigures(s, count), HaunchFigures(s, count), SlabFigures(s));
    assert f1 == Outlines(s, count);
  }

  // ----- the two implementations -----

  /**
   * `renderBuoyancyShapes` (JavaScript): the section as drawn. Numbers are
   * taken as they are (`|| 0`: a missing value is 0), a missing haunch is
   * no haunch, a middle wall's thickness goes through `|| 600`.
   */
  function JsDrawingShapes(d: SectionData): Shapes
  {
    var cg := OptOr(d.columnGirder, NoGirder);
    Shapes(d.H, d.UT, d.LT, d.WL, d.WR, d.B, Thicknesses(d.middleWalls),
           WallsWith(d.middleWalls, d.haunch.middleWalls, NoHaunch, true),
           OptOr(d.haunch.leftWall, NoHaunch), OptOr(d.haunch.rightWall, NoHaunch),
           cg.upperAdditionalHeight, cg.lowerAdditionalHeight, KeptSlab(d.antiFloat))
  }

  /** `culvert_count || B.length`; a negative count draws no cell. */
  function JsDrawCount(d: SectionData): nat
  {
    var c := OrInt(d.culvertCount, |d.B|);
    if c > 0 then c else 0
  }

  /** `create_buoyancy_shapes_dxf` (Python): `.get` keeps every stored value, the thickness included. */
  function PyDrawingShapes(d: SectionData): Shapes
  {
    var cg := OptOr(d.columnGirder, NoGirder);
    Shapes(d.H, d.UT, d.LT, d.WL, d.WR, d.B, Thicknesses(d.middleWalls),
           WallsWith(d.middleWalls, d.haunch.middleWalls, NoHaunch, false),
           OptOr(d.haunch.leftWall, NoHaunch), OptOr(d.haunch.rightWall, NoHaunch),
           cg.upperAdditionalHeight, cg.lowerAdditionalHeight, KeptSlab(d.antiFloat))
  }

  /** `range(culvert_count)`: a negative count draws no cell. */
  function PyDrawCount(d: SectionData): nat
  {
    if d.culvertCount > 0 then d.culvertCount else 0
  }

  /**
   * The two drawings are the same figures with the same numbers whenever no
   * middle wall has a zero thickness and the cell count is not zero: the
   * only differences are JavaScript's `thickness || 600` and
   * `culvert_count || B.length`.
   */
  lemma DrawingsAgree(d: SectionData)
    requires forall i :: 0 <= i < |d.middleWalls| ==> d.middleWalls[i].thickness != 0.0
    requires d.culvertCount != 0
    ensures JsDrawingShapes(d) == PyDrawingShapes(d) && JsDrawCount(d) == PyDrawCount(d)
  {
    assert WallsWith(d.middleWalls, d.haunch.middleWalls, NoHaunch, true)
        == WallsWith(d.middleWalls, d.haunch.middleWalls, NoHaunch, false);
  }

  /** A zero thickness is drawn 600 wide by the web viewer and 0 wide by the prototype. */
  lemma DrawingsDifferOnZeroThickness(d: SectionData, i: nat)
    requires i < |d.middleWalls| && d.middleWalls[i].thickness == 0.0
    ensures JsDrawingShapes(d).walls[i].thickness == 600.0 && PyDrawingShapes(d).walls[i].thickness == 0.0
  {
  }

  /**
   * `renderBuoyancyShapes`: a section that fails `validateData` gets the
   * placeholder (no numbered figure); otherwise the numbered drawing of
   * `culvert_count || B.length` cells, numbered 1, 2, ... in drawing order.
   */
  method RenderBuoyancyShapes(d: SectionData) returns (ms: seq<Mark>)
    requires ValidForView(d) ==> JsDrawCount(d) <= |d.B|
    ensures !ValidForView(d) ==> ms == []
    ensures ValidForView(d) ==> ms == Marks(Figures(JsDrawingShapes(d), JsDrawCount(d)))
    ensures forall k :: 0 <= k < |Numbers(ms)| ==> Numbers(ms)[k] == k + 1
  {
    if !ValidForView(d) {
      return [];
    }
    ms := DrawShapes(JsDrawingShapes(d), JsDrawCount(d));
    NumbersConsecutive(Figures(JsDrawingShapes(d), JsDrawCount(d)));
  }

  // ----- the dimensions of the DXF drawing -----

  /** The width of each of the first `n` cells, 1000 above the top, at the offsets of the outline pass. */
  function ShapeCellDims(s: Shapes, th: real, n: nat): seq<PyDxf.PyEntity>
    requires n <= |s.B|
  {
    if n == 0 then []
    else ShapeCellDims(s, th, n - 1) + [PyDxf.HDimAt(FrameLeft(s, n - 1), FrameLeft(s, n - 1) + s.B[n - 1], th, th + 1000.0)]
  }

  /** The thickness of the middle wall after each of the first `n` cells, for the cells that have one. */
  function ShapeWallDims(s: Shapes, th: real, n: nat): seq<PyDxf.PyEntity>
    requires n <= |s.B|
  {
    if n == 0 then []
    else
      var x := FrameLeft(s, n - 1) + s.B[n - 1];
      ShapeWallDims(s, th, n - 1)
      + (if n - 1 < |s.widthWalls| then [PyDxf.HDimAt(x, x + s.widthWalls[n - 1], th, th + 1000.0)] else [])
  }

  /** `af_left`, `af_right` and `af_t`: the slab's extensions and thickness, all 0 when it is not used. */
  function SlabReach(s: Shapes): (real, real, real)
  {
    match s.antiFloat
    case None => (0.0, 0.0, 0.0)
    case Some(a) => (a.leftExtension, a.rightExtension, a.thickness)
  }

  /**
   * The dimensions appended after the shapes: total width below, total
   * height right of the slab's right end, `H`, `UT` and `LT` left of its
   * left end, each cell width, `WL` and `WR`, each middle wall (only when
   * the section has middle walls), then the slab's left extension and its
   * thickness when they are positive.
   */
  function ShapeDims(s: Shapes, count: nat): seq<PyDxf.PyEntity>
    requires count <= |s.B|
  {
    var tw := TotalWidth(s);
    var th := TotalHeight(s);
    var (l, r, t) := SlabReach(s);
    [ PyDxf.HDimAt(0.0, tw, 0.0, -1000.0),
      PyDxf.VDimAt(tw + r, 0.0, th, tw + r + 1000.0),
      PyDxf.VDimAt(-l, s.LT, s.LT + s.H, -l - 1000.0),
      PyDxf.VDimAt(-l, s.LT + s.H, th, -l - 1000.0),
      PyDxf.VDimAt(-l, 0.0, s.LT, -l - 1000.0) ]
    + ShapeCellDims(s, th, count)
    + [PyDxf.HDimAt(0.0, s.WL, th, th + 1000.0), PyDxf.HDimAt(tw - s.WR, tw, th, th + 1000.0)]
    + (if |s.widthWalls| > 0 then ShapeWallDims(s, th, count) else [])
    + (if l > 0.0 then [PyDxf.HDimAt(-l, 0.0, 0.0, -1000.0)] else [])
    + (if t > 0.0 then [PyDxf.VDimAt(-l, -t, 0.0, -l - 1000.0)] else [])
  }

  /** The dimension pass of `create_buoyancy_shapes_dxf`, with its two cell scans. */
  method AddShapeDims(s: Shapes, count: nat) returns (es: seq<PyDxf.PyEntity>)
    requires count <= |s.B|
    ensures es == ShapeDims(s, count)
  {
    var tw := TotalWidth(s);
    var th := TotalHeight(s);
    var (l, r, t) := SlabReach(s);
    var lead := [ PyDxf.HDimAt(0.0, tw, 0.0, -1000.0),
                  PyDxf.VDimAt(tw + r, 0.0, th, tw + r + 1000.0),
                  PyDxf.VDimAt(-l, s.LT, s.LT + s.H, -l - 1000.0),
                  PyDxf.VDimAt(-l, s.LT + s.H, th, -l - 1000.0),
                  PyDxf.VDimAt(-l, 0.0, s.LT, -l - 1000.0) ];
    var cells: seq<PyDxf.PyEntity> := [];
    var xOff := s.WL;
    var i := 0;
    while i < count
      invariant 0 <= i <= count
      invariant xOff == FrameLeft(s, i)
      invariant cells == ShapeCellDims(s, th, i)
    {
      cells := cells + [PyDxf.HDimAt(xOff, xOff + s.B[i], th, th + 1000.0)];
      xOff := xOff + s.B[i];
      if i < |s.widthWalls| {
        xOff := xOff + s.widthWalls[i];
      }
      i := i + 1;
    }
    var walls: seq<PyDxf.PyEntity> := [];
    if |s.widthWalls| > 0 {
      xOff := s.WL;
      i := 0;
      while i < count
        invariant 0 <= i <= count
        invariant xOff == FrameLeft(s, i)
        invariant walls == ShapeWallDims(s, th, i)
      {
        xOff := xOff + s.B[i];
        if i < |s.widthWalls| {
          walls := walls + [PyDxf.HDimAt(xOff, xOff + s.widthWalls[i], th, th + 1000.0)];
          xOff := xOff + s.widthWalls[i];
        }
        i := i + 1;
      }
    }
    var slab: seq<PyDxf.PyEntity> := [];
    if l > 0.0 {
      slab := slab + [PyDxf.HDimAt(-l, 0.0, 0.0, -1000.0)];
    }
    if t > 0.0 {
      slab := slab + [PyDxf.VDimAt(-l, -t, 0.0, -l - 1000.0)];
    }
    es := lead + cells + [PyDxf.HDimAt(0.0, s.WL, th, th + 1000.0), PyDxf.HDimAt(tw - s.WR, tw, th, th + 1000.0)]
          + walls + slab;
  }

  /** The `i`-th cell width dimension spans exactly the outline of cell `i`. */
  lemma {:induction false} ShapeCellDimsSpanFrames(s: Shapes, th: real, n: nat, i: nat)
    requires i < n <= |s.B|
    ensures |ShapeCellDims(s, th, n)| == |CellFrames(s, n)| == n
    ensures var f := CellFrames(s, n)[i];
            var e := ShapeCellDims(s, th, n)[i];
            f.Frame? && e.LinearDim? && !e.vertical && e.p1.x == f.x1 && e.p2.x == f.x2 && e.p2.x - e.p1.x == s.B[i]
  {
    if i < n - 1 {
      ShapeCellDimsSpanFrames(s, th, n - 1, i);
    } else {
      LengthsOf(s, th, n - 1);
    }
  }

  lemma {:induction false} LengthsOf(s: Shapes, th: real, n: nat)
    requires n <= |s.B|
    ensures |ShapeCellDims(s, th, n)| == |CellFrames(s, n)| == n
  {
    if n > 0 {
      LengthsOf(s, th, n - 1);
    }
  }

  /** One wall dimension per drawn cell that has a middle wall after it. */
  lemma {:induction false} ShapeWallDimsCount(s: Shapes, th: real, n: nat)
    requires n <= |s.B|
    ensures |ShapeWallDims(s, th, n)| == Min(n, |s.widthWalls|)
  {
    if n > 0 {
      ShapeWallDimsCount(s, th, n - 1);
    }
  }

  /**
   * Seven dimensions always, one per drawn cell, one per middle wall in a
   * drawn cell and one for each positive slab size.
   */
  lemma ShapeDimsCount(s: Shapes, count: nat)
    requires count <= |s.B|
    ensures var (l, r, t) := SlabReach(s);
            |ShapeDims(s, count)| == 7 + count + Min(count, |s.widthWalls|)
                                     + (if l > 0.0 then 1 else 0) + (if t > 0.0 then 1 else 0)
  {
    LengthsOf(s, TotalHeight(s), count);
    ShapeWallDimsCount(s, TotalHeight(s), count);
  }

  /**
   * `create_buoyancy_shapes_dxf`: no section gives an empty drawing; any
   * section is drawn as given, with no validation, and then dimensioned.
   */
  method CreateBuoyancyShapesDxf(d: Option<SectionData>) returns (ms: seq<Mark>, dims: seq<PyDxf.PyEntity>)
    requires d.Some? ==> PyDrawCount(d.value) <= |d.value.B|
    ensures d.None? ==> ms == [] && dims == []
    ensures d.Some? ==> ms == Marks(Figures(PyDrawingShapes(d.value), PyDrawCount(d.value)))
    ensures d.Some? ==> dims == ShapeDims(PyDrawingShapes(d.value), PyDrawCount(d.value))
    ensures forall k :: 0 <= k < |Numbers(ms)| ==> Numbers(ms)[k] == k + 1
  {
    if d.None? {
      return [], [];
    }
    ms := DrawShapes(PyDrawingShapes(d.value), PyDrawCount(d.value));
    NumbersConsecutive(Figures(PyDrawingShapes(d.value), PyDrawCount(d.value)));
    dims := AddShapeDims(PyDrawingShapes(d.value), PyDrawCount(d.value));
  }
}

/**
 * The numbered buoyancy drawing: the section cut into the same rectangles
 * and triangles as the buoyancy report, each labelled `No.k`, drawn by the
 * web viewer (SVG) and by the desktop prototype (DXF). Both draw the
 * outline and the cell outlines first (unnumbered), then the shapes in the
 * report's order; the second triangle of a middle-wall haunch pair is drawn
 * without a number of its own and carries the number of the first.
 *
 * The drawing is built by `DrawShapes`, proved against `Marks(Figures(..))`;
 * `DrawingMatchesReport` shows that the numbered figures have exactly the
 * sizes of the report's shapes, in order, when both are built from the same
 * `Shapes`.
 */
module BuoyShapes {
  import opened Section
  import opened Geometry
  import opened Report
  import Layout

  type Point = Layout.Point

  /** What is drawn: an unnumbered outline, a numbered (or dashed) rectangle, a haunch triangle. */
  datatype Figure =
    | Frame(x1: real, y1: real, x2: real, y2: real)
    | Box(x1: real, y1: real, x2: real, y2: real, dashed: bool)
    | Tri(a: Point, b: Point, c: Point, labelled: bool)

  /** A drawn figure with the number written on it (0 on outlines). */
  datatype Mark = Mark(fig: Figure, no: nat)

  /** Figures that take a new number: every rectangle and the labelled triangles. */
  predicate Labelled(f: Figure)
  {
    f.Box? || (f.Tri? && f.labelled)
  }

  /** The unlabelled twin of a middle-wall haunch triangle. */
  predicate IsMirror(f: Figure)
  {
    f.Tri? && !f.labelled
  }

  function Abs(x: real): (r: real)
    ensures r >= 0.0 && (r == x || r == -x)
  {
    if x < 0.0 then -x else x
  }

  // ----- numbering -----

  /** How many numbers the figures take: the value of `shapeNo` after drawing them. */
  function Labels(fs: seq<Figure>): nat
  {
    if |fs| == 0 then 0 else Labels(fs[..|fs| - 1]) + (if Labelled(fs[|fs| - 1]) then 1 else 0)
  }

  /** The figures with their numbers: a labelled figure gets the next number, a mirror repeats the current one. */
  function Marks(fs: seq<Figure>): (r: seq<Mark>)
    ensures |r| == |fs|
  {
    if |fs| == 0 then []
    else Marks(fs[..|fs| - 1]) + [Mark(fs[|fs| - 1], if fs[|fs| - 1].Frame? then 0 else Labels(fs))]
  }

  /** The numbers written on the labelled figures, in drawing order. */
  function Numbers(ms: seq<Mark>): seq<nat>
  {
    if |ms| == 0 then []
    else Numbers(ms[..|ms| - 1]) + (if Labelled(ms[|ms| - 1].fig) then [ms[|ms| - 1].no] else [])
  }

  lemma SnocPrefix<T>(s: seq<T>, x: T)
    ensures (s + [x])[..|s|] == s && (s + [x])[|s|] == x
  {
  }

  lemma LabelsSnoc(fs: seq<Figure>, f: Figure)
    ensures Labels(fs + [f]) == Labels(fs) + (if Labelled(f) then 1 else 0)
  {
    SnocPrefix(fs, f);
  }

  lemma MarksSnoc(fs: seq<Figure>, f: Figure)
    ensures Marks(fs + [f]) == Marks(fs) + [Mark(f, if f.Frame? then 0 else Labels(fs + [f]))]
  {
    SnocPrefix(fs, f);
  }

  /** The k-th figure carries the number of labelled figures up to and including it. */
  lemma {:induction false} MarkAt(fs: seq<Figure>, k: nat)
    requires k < |fs|
    ensures Marks(fs)[k] == Mark(fs[k], if fs[k].Frame? then 0 else Labels(fs[..k + 1]))
  {
    if k < |fs| - 1 {
      var init := fs[..|fs| - 1];
      MarkAt(init, k);
      assert init[..k + 1] == fs[..k + 1];
    } else {
      assert fs[..k + 1] == fs;
    }
  }

  /** Whatever is drawn, the numbers written on the labelled figures are 1, 2, ..., in order. */
  lemma {:induction false} NumbersConsecutive(fs: seq<Figure>)
    ensures |Numbers(Marks(fs))| == Labels(fs)
    ensures forall k :: 0 <= k < |Numbers(Marks(fs))| ==> Numbers(Marks(fs))[k] == k + 1
  {
    if |fs| > 0 {
      var init := fs[..|fs| - 1];
      NumbersConsecutive(init);
      var m := Mark(fs[|fs| - 1], if fs[|fs| - 1].Frame? then 0 else Labels(fs));
      assert Marks(fs) == Marks(init) + [m];
      SnocPrefix(Marks(init), m);
    }
  }

  // ----- sizes -----

  datatype Outline = Solid | Dashed | Triangular

  /** What the report states about a shape besides its area: its outline and its two sizes. */
  datatype Size = Size(outline: Outline, w: real, h: real)

  /** The two legs of a haunch triangle: the horizontal and the vertical one. */
  function Legs(f: Figure): (real, real)
    requires f.Tri?
  {
    (Abs(f.b.x - f.a.x), Abs(f.c.y - f.a.y))
  }

  function FigureSize(f: Figure): Size
    requires Labelled(f)
  {
    match f
    case Box(x1, y1, x2, y2, dashed) => Size(if dashed then Dashed else Solid, x2 - x1, y2 - y1)
    case Tri(_, _, _, _) => Size(Triangular, Legs(f).0, Legs(f).1)
  }

  function PieceSize(p: Piece): Size
  {
    Size(match p.kind
         case Rect => Solid
         case ColumnBody => Dashed
         case Triangle => Triangular
         case TwinTriangle => Triangular,
         p.w, p.h)
  }

  /** The sizes of the numbered figures, in order: one per number. */
  function LabelledSizes(fs: seq<Figure>): (r: seq<Size>)
    ensures |r| == Labels(fs)
  {
    if |fs| == 0 then []
    else LabelledSizes(fs[..|fs| - 1]) + (if Labelled(fs[|fs| - 1]) then [FigureSize(fs[|fs| - 1])] else [])
  }

  function PieceSizes(ps: seq<Piece>): (r: seq<Size>)
    ensures |r| == |ps|
  {
    if |ps| == 0 then [] else PieceSizes(ps[..|ps| - 1]) + [PieceSize(ps[|ps| - 1])]
  }

  lemma {:induction false} LabelledSizesAppend(a: seq<Figure>, b: seq<Figure>)
    ensures LabelledSizes(a + b) == LabelledSizes(a) + LabelledSizes(b)
  {
    if |b| == 0 {
      assert a + b == a;
    } else {
      var b' := b[..|b| - 1];
      assert (a + b)[..|a + b| - 1] == a + b';
      assert (a + b)[|a + b| - 1] == b[|b| - 1];
      LabelledSizesAppend(a, b');
    }
  }

  lemma {:induction false} PieceSizesAppend(a: seq<Piece>, b: seq<Piece>)
    ensures PieceSizes(a + b) == PieceSizes(a) + PieceSizes(b)
  {
    if |b| == 0 {
      assert a + b == a;
    } else {
      var b' := b[..|b| - 1];
      assert (a + b)[..|a + b| - 1] == a + b';
      assert (a + b)[|a + b| - 1] == b[|b| - 1];
      PieceSizesAppend(a, b');
    }
  }

  // ----- the figures -----

  /** Advance past middle wall `i` as the cell outlines do (`thickness || 0`). */
  function FrameAdvance(s: Shapes, i: nat): real
  {
    if i < |s.widthWalls| then s.widthWalls[i] else 0.0
  }

  /** Advance past middle wall `i` as the wall shapes do (the thickness they are cut with). */
  function WallAdvance(s: Shapes, i: nat): real
  {
    if i < |s.walls| then s.walls[i].thickness else 0.0
  }

  /** Left edge of cell `i` in the outline pass. */
  function FrameLeft(s: Shapes, i: nat): real
    requires i <= |s.B|
  {
    if i == 0 then s.WL else FrameLeft(s, i - 1) + s.B[i - 1] + FrameAdvance(s, i - 1)
  }

  /** Left edge of cell `i` in the shape passes. */
  function ShapeLeft(s: Shapes, i: nat): real
    requires i <= |s.B|
  {
    if i == 0 then s.WL else ShapeLeft(s, i - 1) + s.B[i - 1] + WallAdvance(s, i - 1)
  }

  function CellFrames(s: Shapes, n: nat): seq<Figure>
    requires n <= |s.B|
  {
    if n == 0 then []
    else CellFrames(s, n - 1) + [Frame(FrameLeft(s, n - 1), s.LT, FrameLeft(s, n - 1) + s.B[n - 1], s.LT + s.H)]
  }

  /** The outer outline, then the outline of each drawn cell. */
  function Outlines(s: Shapes, count: nat): seq<Figure>
    requires count <= |s.B|
  {
    [Frame(0.0, 0.0, TotalWidth(s), TotalHeight(s))] + CellFrames(s, count)
  }

  function TopSlab(s: Shapes): Figure
  {
    Box(0.0, s.LT + s.H, TotalWidth(s), TotalHeight(s), false)
  }

  function BottomSlab(s: Shapes): Figure
  {
    Box(0.0, 0.0, TotalWidth(s), s.LT, false)
  }

  function LeftWall(s: Shapes): Figure
  {
    Box(0.0, s.LT, s.WL, s.LT + s.H, false)
  }

  function RightWall(s: Shapes): Figure
  {
    Box(TotalWidth(s) - s.WR, s.LT, TotalWidth(s), s.LT + s.H, false)
  }

  /** The upper girder of a column wall at `x`. */
  function GirderTop(s: Shapes, x: real, w: ReportWall): Figure
  {
    Box(x, s.LT + s.H - UpperGirder(s, w), x + w.thickness, s.LT + s.H, false)
  }

  function GirderBottom(s: Shapes, x: real, w: ReportWall): Figure
  {
    Box(x, s.LT, x + w.thickness, s.LT + LowerGirder(s, w), false)
  }

  /** The dashed column body between the girders. */
  function ColumnBox(s: Shapes, x: real, w: ReportWall): Figure
  {
    Box(x, s.LT + LowerGirder(s, w), x + w.thickness, s.LT + s.H - UpperGirder(s, w), true)
  }

  /** A continuous wall is one rectangle; a column wall its two girders and, when they leave a gap, the dashed body. */
  function WallFigures(s: Shapes, x: real, w: ReportWall): seq<Figure>
  {
    if w.kind == Continuous then [Box(x, s.LT, x + w.thickness, s.LT + s.H, false)]
    else
      [GirderTop(s, x, w), GirderBottom(s, x, w)]
      + (if s.LT + s.H - UpperGirder(s, w) > s.LT + LowerGirder(s, w) then [ColumnBox(s, x, w)] else [])
  }

  /** Flattens a list of segments into one list, segment after segment. */
  function Flatten<T>(ss: seq<seq<T>>): (r: seq<T>)
    ensures |ss| == 1 ==> r == ss[0]
  {
    if |ss| == 0 then [] else Flatten(ss[..|ss| - 1]) + ss[|ss| - 1]
  }

  /** The wall shapes of drawn cell `i`: cell `i` has a wall when `i < |walls|`. */
  function WallSeg(s: Shapes, i: nat): seq<Figure>
    requires i < |s.B|
  {
    if i < |s.walls| then WallFigures(s, ShapeLeft(s, i) + s.B[i], s.walls[i]) else []
  }

  function WallSegs(s: Shapes, n: nat): (r: seq<seq<Figure>>)
    requires n <= |s.B|
    ensures |r| == n && forall i :: 0 <= i < n ==> r[i] == WallSeg(s, i)
  {
    if n == 0 then [] else WallSegs(s, n - 1) + [WallSeg(s, n - 1)]
  }

  /** The wall shapes of the first `n` drawn cells, cell after cell. */
  function MiddleWallFigures(s: Shapes, n: nat): seq<Figure>
    requires n <= |s.B|
  {
    Flatten(WallSegs(s, n))
  }

  function BodyFigures(s: Shapes, count: nat): seq<Figure>
    requires count <= |s.B|
  {
    [TopSlab(s), BottomSlab(s), LeftWall(s)] + MiddleWallFigures(s, count) + [RightWall(s)]
  }

  /** A haunch triangle in the upper corner at `x`, pointing right or left. */
  function UpperCorner(s: Shapes, x: real, c: Corner, rightward: bool, labelled: bool): Figure
  {
    Tri(Layout.Pt(x, s.LT + s.H), Layout.Pt(if rightward then x + c.width else x - c.width, s.LT + s.H),
        Layout.Pt(x, s.LT + s.H - c.height), labelled)
  }

  function LowerCorner(s: Shapes, x: real, c: Corner, rightward: bool, labelled: bool): Figure
  {
    Tri(Layout.Pt(x, s.LT), Layout.Pt(if rightward then x + c.width else x - c.width, s.LT),
        Layout.Pt(x, s.LT + c.height), labelled)
  }

  predicate Positive(c: Corner)
  {
    c.width > 0.0 && c.height > 0.0
  }

  /** The haunch triangles of an outer wall whose inner face is at `x`. */
  function OuterFigures(s: Shapes, x: real, h: WallHaunch, rightward: bool): seq<Figure>
  {
    (if Positive(h.upper) then [UpperCorner(s, x, h.upper, rightward, true)] else [])
    + (if Positive(h.lower) then [LowerCorner(s, x, h.lower, rightward, true)] else [])
  }

  /** The haunch pairs of a middle wall at `x`: a numbered triangle on the left face, its mirror on the right. */
  function PairFigures(s: Shapes, x: real, w: ReportWall): seq<Figure>
  {
    (if Positive(w.haunch.upper)
     then [UpperCorner(s, x, w.haunch.upper, false, true), UpperCorner(s, x + w.thickness, w.haunch.upper, true, false)]
     else [])
    + (if Positive(w.haunch.lower)
       then [LowerCorner(s, x, w.haunch.lower, false, true), LowerCorner(s, x + w.thickness, w.haunch.lower, true, false)]
       else [])
  }

  /** The haunch pairs of drawn cell `i`'s wall; none past the last middle wall. */
  function PairSeg(s: Shapes, i: nat): seq<Figure>
    requires i < |s.B|
  {
    if i < |s.walls| then PairFigures(s, ShapeLeft(s, i) + s.B[i], s.walls[i]) else []
  }

  function PairSegs(s: Shapes, n: nat): (r: seq<seq<Figure>>)
    requires n <= |s.B|
    ensures |r| == n && forall i :: 0 <= i < n ==> r[i] == PairSeg(s, i)
  {
    if n == 0 then [] else PairSegs(s, n - 1) + [PairSeg(s, n - 1)]
  }

  function MiddleHaunchFigures(s: Shapes, n: nat): seq<Figure>
    requires n <= |s.B|
  {
    Flatten(PairSegs(s, n))
  }

  function HaunchFigures(s: Shapes, count: nat): seq<Figure>
    requires count <= |s.B|
  {
    OuterFigures(s, s.WL, s.leftHaunch, true) + MiddleHaunchFigures(s, count)
    + OuterFigures(s, TotalWidth(s) - s.WR, s.rightHaunch, false)
  }

  /** The anti-float slab under the structure, drawn only with a positive thickness. */
  function SlabFigures(s: Shapes): seq<Figure>
  {
    match s.antiFloat
    case None => []
    case Some(a) => if a.thickness > 0.0 then [Box(-a.leftExtension, -a.thickness, TotalWidth(s) + a.rightExtension, 0.0, false)] else []
  }

  /** Everything drawn for `count` cells, in drawing order. */
  function Figures(s: Shapes, count: nat): seq<Figure>
    requires count <= |s.B|
  {
    Outlines(s, count) + BodyFigures(s, count) + HaunchFigures(s, count) + SlabFigures(s)
  }

  // ----- the drawing and the report agree -----

  /** Every column wall can be weighed: the report then has a column body exactly when the drawing does. */
  predicate ColumnsSpaced(s: Shapes, l: Loads)
  {
    l.ctc > 0.0 || forall i :: 0 <= i < |s.walls| ==> s.walls[i].kind == Continuous
  }

  /** A slab in use has a thickness, so the drawing shows it as the report weighs it. */
  predicate SlabDrawn(s: Shapes)
  {
    s.antiFloat.Some? ==> s.antiFloat.value.thickness > 0.0
  }

  predicate AllLabelled(fs: seq<Figure>)
  {
    forall k :: 0 <= k < |fs| ==> Labelled(fs[k])
  }

  lemma {:induction false} LabelledSizesOfLabelled(fs: seq<Figure>)
    requires AllLabelled(fs)
    ensures |LabelledSizes(fs)| == |fs|
    ensures forall k :: 0 <= k < |fs| ==> LabelledSizes(fs)[k] == FigureSize(fs[k])
  {
    if |fs| > 0 {
      LabelledSizesOfLabelled(fs[..|fs| - 1]);
    }
  }

  lemma {:induction false} PieceSizesAt(ps: seq<Piece>)
    ensures forall k :: 0 <= k < |ps| ==> PieceSizes(ps)[k] == PieceSize(ps[k])
  {
    if |ps| > 0 {
      PieceSizesAt(ps[..|ps| - 1]);
    }
  }

  /** The slabs and the left wall are the report's first three shapes. */
  lemma HeadSizes(s: Shapes)
    ensures LabelledSizes([TopSlab(s), BottomSlab(s), LeftWall(s)]) == PieceSizes(HeadPieces(s))
  {
    LabelledSizesOfLabelled([TopSlab(s), BottomSlab(s), LeftWall(s)]);
    PieceSizesAt(HeadPieces(s));
  }

  lemma {:induction false} CellFramesUnnumbered(s: Shapes, n: nat)
    requires n <= |s.B|
    ensures LabelledSizes(CellFrames(s, n)) == []
  {
    if n > 0 {
      CellFramesUnnumbered(s, n - 1);
      var f := Frame(FrameLeft(s, n - 1), s.LT, FrameLeft(s, n - 1) + s.B[n - 1], s.LT + s.H);
      LabelledSizesAppend(CellFrames(s, n - 1), [f]);
      assert [f][..0] == [];
    }
  }

  lemma OutlinesUnnumbered(s: Shapes, count: nat)
    requires count <= |s.B|
    ensures LabelledSizes(Outlines(s, count)) == []
  {
    var f := Frame(0.0, 0.0, TotalWidth(s), TotalHeight(s));
    CellFramesUnnumbered(s, count);
    LabelledSizesAppend([f], CellFrames(s, count));
    assert [f][..0] == [];
  }

  lemma LabelledOne(f: Figure)
    requires Labelled(f)
    ensures LabelledSizes([f]) == [FigureSize(f)]
  {
    assert [f][..0] == [];
  }

  lemma PieceOne(p: Piece)
    ensures PieceSizes([p]) == [PieceSize(p)]
  {
    assert [p][..0] == [];
  }

  lemma LabelledTwo(f: Figure, g: Figure)
    requires Labelled(f) && Labelled(g)
    ensures LabelledSizes([f, g]) == [FigureSize(f), FigureSize(g)]
  {
    LabelledOne(f);
    LabelledOne(g);
    LabelledSizesAppend([f], [g]);
    assert [f] + [g] == [f, g];
  }

  lemma PieceTwo(p: Piece, q: Piece)
    ensures PieceSizes([p, q]) == [PieceSize(p), PieceSize(q)]
  {
    PieceOne(p);
    PieceOne(q);
    PieceSizesAppend([p], [q]);
    assert [p] + [q] == [p, q];
  }

  lemma ColumnSizes(s: Shapes, l: Loads, x: real, w: ReportWall)
    requires w.kind == Column && l.ctc > 0.0
    ensures LabelledSizes(WallFigures(s, x, w)) == PieceSizes(WallPiecesOf(s, l, w))
  {
    var top, bottom := GirderTop(s, x, w), GirderBottom(s, x, w);
    var body := if s.LT + s.H - UpperGirder(s, w) > s.LT + LowerGirder(s, w) then [ColumnBox(s, x, w)] else [];
    var clear := ColumnClear(s, w);
    var rest := if clear > 0.0 && l.ctc > 0.0 then [Piece(ColumnBody, w.thickness, clear, PerMetreArea(w.thickness, clear, l.colWidth, l.ctc))] else [];
    assert WallFigures(s, x, w) == [top, bottom] + body;
    assert WallPiecesOf(s, l, w) == [RectPiece(w.thickness, UpperGirder(s, w)), RectPiece(w.thickness, LowerGirder(s, w))] + rest;
    LabelledTwo(top, bottom);
    PieceTwo(RectPiece(w.thickness, UpperGirder(s, w)), RectPiece(w.thickness, LowerGirder(s, w)));
    LabelledSizesAppend([top, bottom], body);
    PieceSizesAppend([RectPiece(w.thickness, UpperGirder(s, w)), RectPiece(w.thickness, LowerGirder(s, w))], rest);
    if |body| == 1 {
      LabelledOne(ColumnBox(s, x, w));
      PieceOne(rest[0]);
    }
  }

  lemma WallSizes(s: Shapes, l: Loads, x: real, w: ReportWall)
    requires w.kind == Column ==> l.ctc > 0.0
    ensures LabelledSizes(WallFigures(s, x, w)) == PieceSizes(WallPiecesOf(s, l, w))
  {
    if w.kind == Continuous {
      LabelledOne(Box(x, s.LT, x + w.thickness, s.LT + s.H, false));
      PieceOne(RectPiece(w.thickness, s.H));
    } else {
      ColumnSizes(s, l, x, w);
    }
  }

  /** Matching figure and piece lists stay matched when both are extended by matching lists. */
  lemma SizesAppend(fa: seq<Figure>, fb: seq<Figure>, pa: seq<Piece>, pb: seq<Piece>)
    requires LabelledSizes(fa) == PieceSizes(pa) && LabelledSizes(fb) == PieceSizes(pb)
    ensures LabelledSizes(fa + fb) == PieceSizes(pa + pb)
  {
    LabelledSizesAppend(fa, fb);
    PieceSizesAppend(pa, pb);
  }

  lemma LabelledSizesSplit(c: seq<Figure>, a: seq<Figure>, b: seq<Figure>)
    requires c == a + b
    ensures LabelledSizes(c) == LabelledSizes(a) + LabelledSizes(b)
  {
    LabelledSizesAppend(a, b);
  }

  lemma PieceSizesSplit(c: seq<Piece>, a: seq<Piece>, b: seq<Piece>)
    requires c == a + b
    ensures PieceSizes(c) == PieceSizes(a) + PieceSizes(b)
  {
    PieceSizesAppend(a, b);
  }

  /** One more matching pair of segments keeps the figures and the pieces matched. */
  lemma SizesStep(fa: seq<Figure>, fb: seq<Figure>, fc: seq<Figure>, pa: seq<Piece>, pb: seq<Piece>, pc: seq<Piece>)
    requires fc == fa + fb && pc == pa + pb
    requires LabelledSizes(fa) == PieceSizes(pa) && LabelledSizes(fb) == PieceSizes(pb)
    ensures LabelledSizes(fc) == PieceSizes(pc)
  {
    LabelledSizesAppend(fa, fb);
    PieceSizesAppend(pa, pb);
  }
  /** Three matching segments in a row match. */
  lemma SizesThree(fa: seq<Figure>, fb: seq<Figure>, fc: seq<Figure>, pa: seq<Piece>, pb: seq<Piece>, pc: seq<Piece>)
    requires LabelledSizes(fa) == PieceSizes(pa) && LabelledSizes(fb) == PieceSizes(pb) && LabelledSizes(fc) == PieceSizes(pc)
    ensures LabelledSizes(fa + fb + fc) == PieceSizes(pa + pb + pc)
  {
    SizesAppend(fa, fb, pa, pb);
    SizesAppend(fa + fb, fc, pa + pb, pc);
  }


  lemma FlattenSnoc<T>(ss: seq<seq<T>>, x: seq<T>)
    ensures Flatten(ss + [x]) == Flatten(ss) + x
  {
    assert (ss + [x])[..|ss|] == ss;
  }

  /** Segment lists matched segment by segment flatten to matched lists. */
  lemma {:induction false} FlattenSizes(fss: seq<seq<Figure>>, pss: seq<seq<Piece>>)
    requires |fss| == |pss|
    requires forall i :: 0 <= i < |fss| ==> LabelledSizes(fss[i]) == PieceSizes(pss[i])
    ensures LabelledSizes(Flatten(fss)) == PieceSizes(Flatten(pss))
  {
    if |fss| > 0 {
      var n := |fss| - 1;
      FlattenSizes(fss[..n], pss[..n]);
      SizesStep(Flatten(fss[..n]), fss[n], Flatten(fss), Flatten(pss[..n]), pss[n], Flatten(pss));
    }
  }

  /** The report's pieces of the `i`-th middle wall, as a segment per drawn cell. */
  function WallPieceSeg(s: Shapes, l: Loads, i: nat): seq<Piece>
  {
    if i < |s.walls| then WallPiecesOf(s, l, s.walls[i]) else []
  }

  function WallPieceSegs(s: Shapes, l: Loads, n: nat): (r: seq<seq<Piece>>)
    ensures |r| == n && forall i :: 0 <= i < n ==> r[i] == WallPieceSeg(s, l, i)
  {
    if n == 0 then [] else WallPieceSegs(s, l, n - 1) + [WallPieceSeg(s, l, n - 1)]
  }

  lemma {:induction false} WallPiecesFlat(s: Shapes, l: Loads, n: nat)
    ensures Flatten(WallPieceSegs(s, l, n)) == WallPieces(s, l, if n < |s.walls| then n else |s.walls|)
  {
    if n > 0 {
      WallPiecesFlat(s, l, n - 1);
      FlattenSnoc(WallPieceSegs(s, l, n - 1), WallPieceSeg(s, l, n - 1));
    }
  }

  lemma MiddleWallSizes(s: Shapes, l: Loads, count: nat)
    requires |s.walls| <= count <= |s.B| && ColumnsSpaced(s, l)
    ensures LabelledSizes(MiddleWallFigures(s, count)) == PieceSizes(WallPieces(s, l, |s.walls|))
  {
    WallSegsMatch(s, l, count);
    FlattenSizes(WallSegs(s, count), WallPieceSegs(s, l, count));
    WallPiecesFlat(s, l, count);
  }

  lemma WallSegsMatch(s: Shapes, l: Loads, count: nat)
    requires count <= |s.B| && ColumnsSpaced(s, l)
    ensures forall i :: 0 <= i < count ==> LabelledSizes(WallSegs(s, count)[i]) == PieceSizes(WallPieceSegs(s, l, count)[i])
  {
    forall i | 0 <= i < count
      ensures LabelledSizes(WallSeg(s, i)) == PieceSizes(WallPieceSeg(s, l, i))
    {
      if i < |s.walls| {
        WallSizes(s, l, ShapeLeft(s, i) + s.B[i], s.walls[i]);
      }
    }
  }

  lemma BodySizes(s: Shapes, l: Loads, count: nat)
    requires |s.walls| <= count <= |s.B| && ColumnsSpaced(s, l)
    ensures LabelledSizes(BodyFigures(s, count)) == PieceSizes(BodyPieces(s, l))
  {
    var head := [TopSlab(s), BottomSlab(s), LeftWall(s)];
    var walls := MiddleWallFigures(s, count);
    MiddleWallSizes(s, l, count);
    HeadSizes(s);
    LabelledOne(RightWall(s));
    PieceOne(RectPiece(s.WR, s.H));
    SizesThree(head, walls, [RightWall(s)], HeadPieces(s), WallPieces(s, l, |s.walls|), [RectPiece(s.WR, s.H)]);
  }

  lemma CornerSizes(s: Shapes, x: real, c: Corner, rightward: bool)
    requires Positive(c)
    ensures FigureSize(UpperCorner(s, x, c, rightward, true)) == PieceSize(Piece(Triangle, c.width, c.height, 0.0))
    ensures FigureSize(LowerCorner(s, x, c, rightward, true)) == PieceSize(Piece(Triangle, c.width, c.height, 0.0))
  {
  }

  lemma OuterSizes(s: Shapes, x: real, h: WallHaunch, rightward: bool)
    ensures LabelledSizes(OuterFigures(s, x, h, rightward)) == PieceSizes(OuterHaunchPieces(h))
  {
    if Positive(h.upper) {
      CornerSizes(s, x, h.upper, rightward);
    }
    if Positive(h.lower) {
      CornerSizes(s, x, h.lower, rightward);
    }
    LabelledSizesOfLabelled(OuterFigures(s, x, h, rightward));
  }

  /** One numbered triangle per pair: the mirror adds no size of its own. */
  lemma PairSizes(s: Shapes, x: real, w: ReportWall)
    ensures LabelledSizes(PairFigures(s, x, w)) == PieceSizes(TwinPiece(w.haunch.upper) + TwinPiece(w.haunch.lower))
  {
    var up := if Positive(w.haunch.upper)
      then [UpperCorner(s, x, w.haunch.upper, false, true), UpperCorner(s, x + w.thickness, w.haunch.upper, true, false)]
      else [];
    var lo := if Positive(w.haunch.lower)
      then [LowerCorner(s, x, w.haunch.lower, false, true), LowerCorner(s, x + w.thickness, w.haunch.lower, true, false)]
      else [];
    if Positive(w.haunch.upper) {
      CornerSizes(s, x, w.haunch.upper, false);
      assert up[..1] == [up[0]];
      assert [up[0]][..0] == [];
    }
    if Positive(w.haunch.lower) {
      CornerSizes(s, x, w.haunch.lower, false);
      assert lo[..1] == [lo[0]];
      assert [lo[0]][..0] == [];
    }
    LabelledSizesAppend(up, lo);
    PieceSizesAppend(TwinPiece(w.haunch.upper), TwinPiece(w.haunch.lower));
  }

  /** The report's twin triangles of the `i`-th middle wall, as a segment per drawn cell. */
  function TwinSeg(s: Shapes, i: nat): seq<Piece>
  {
    if i < |s.walls| then TwinPiece(s.walls[i].haunch.upper) + TwinPiece(s.walls[i].haunch.lower) else []
  }

  function TwinSegs(s: Shapes, n: nat): (r: seq<seq<Piece>>)
    ensures |r| == n && forall i :: 0 <= i < n ==> r[i] == TwinSeg(s, i)
  {
    if n == 0 then [] else TwinSegs(s, n - 1) + [TwinSeg(s, n - 1)]
  }

  lemma {:induction false} TwinPiecesFlat(s: Shapes, n: nat)
    ensures Flatten(TwinSegs(s, n)) == MiddleHaunchPieces(s, if n < |s.walls| then n else |s.walls|)
  {
    if n > 0 {
      TwinPiecesFlat(s, n - 1);
      FlattenSnoc(TwinSegs(s, n - 1), TwinSeg(s, n - 1));
      if n <= |s.walls| {
        var w := s.walls[n - 1];
        assert MiddleHaunchPieces(s, n) == MiddleHaunchPieces(s, n - 1) + (TwinPiece(w.haunch.upper) + TwinPiece(w.haunch.lower));
      }
    }
  }

  lemma MiddleHaunchSizes(s: Shapes, count: nat)
    requires |s.walls| <= count <= |s.B|
    ensures LabelledSizes(MiddleHaunchFigures(s, count)) == PieceSizes(MiddleHaunchPieces(s, |s.walls|))
  {
    PairSegsMatch(s, count);
    FlattenSizes(PairSegs(s, count), TwinSegs(s, count));
    TwinPiecesFlat(s, count);
  }

  lemma PairSegsMatch(s: Shapes, count: nat)
    requires count <= |s.B|
    ensures forall i :: 0 <= i < count ==> LabelledSizes(PairSegs(s, count)[i]) == PieceSizes(TwinSegs(s, count)[i])
  {
    forall i | 0 <= i < count
      ensures LabelledSizes(PairSeg(s, i)) == PieceSizes(TwinSeg(s, i))
    {
      if i < |s.walls| {
        PairSizes(s, ShapeLeft(s, i) + s.B[i], s.walls[i]);
      }
    }
  }

  lemma LeftAndMiddleHaunchSizes(s: Shapes, count: nat)
    requires |s.walls| <= count <= |s.B|
    ensures LabelledSizes(OuterFigures(s, s.WL, s.leftHaunch, true) + MiddleHaunchFigures(s, count))
         == PieceSizes(OuterHaunchPieces(s.leftHaunch) + MiddleHaunchPieces(s, |s.walls|))
  {
    OuterSizes(s, s.WL, s.leftHaunch, true);
    MiddleHaunchSizes(s, count);
    SizesAppend(OuterFigures(s, s.WL, s.leftHaunch, true), MiddleHaunchFigures(s, count),
                OuterHaunchPieces(s.leftHaunch), MiddleHaunchPieces(s, |s.walls|));
  }

  lemma HaunchSizes(s: Shapes, count: nat)
    requires |s.walls| <= count <= |s.B|
    ensures LabelledSizes(HaunchFigures(s, count)) == PieceSizes(HaunchPieces(s))
  {
    var xr := TotalWidth(s) - s.WR;
    var fa, fb := OuterFigures(s, s.WL, s.leftHaunch, true) + MiddleHaunchFigures(s, count), OuterFigures(s, xr, s.rightHaunch, false);
    var pa, pb := OuterHaunchPieces(s.leftHaunch) + MiddleHaunchPieces(s, |s.walls|), OuterHaunchPieces(s.rightHaunch);
    LeftAndMiddleHaunchSizes(s, count);
    OuterSizes(s, xr, s.rightHaunch, false);
    SizesAppend(fa, fb, pa, pb);
    assert HaunchFigures(s, count) == fa + fb;
    assert HaunchPieces(s) == pa + pb;
  }

  lemma SlabSizes(s: Shapes)
    requires SlabDrawn(s)
    ensures LabelledSizes(SlabFigures(s)) == PieceSizes(SlabPiece(s))
  {
    LabelledSizesOfLabelled(SlabFigures(s));
  }

  lemma UnnumberedPrefix(o: seq<Figure>, b: seq<Figure>)
    requires LabelledSizes(o) == []
    ensures LabelledSizes(o + b) == LabelledSizes(b)
  {
    LabelledSizesAppend(o, b);
  }

  /**
   * The numbered figures of the drawing are the report's shapes: the k-th
   * number is drawn around a figure of the k-th shape's outline and sizes,
   * provided every middle wall lies in a drawn cell, every column wall has a
   * spacing, and a slab in use has a thickness.
   */
  lemma DrawingMatchesReport(s: Shapes, l: Loads, count: nat)
    requires |s.walls| <= count <= |s.B|
    requires ColumnsSpaced(s, l) && SlabDrawn(s)
    ensures LabelledSizes(Figures(s, count)) == PieceSizes(ReportPieces(s, l))
  {
    var o, b, h, a := Outlines(s, count), BodyFigures(s, count), HaunchFigures(s, count), SlabFigures(s);
    OutlinesUnnumbered(s, count);
    BodySizes(s, l, count);
    HaunchSizes(s, count);
    SlabSizes(s);
    UnnumberedPrefix(o, b);
    SizesThree(o + b, h, a, BodyPieces(s, l), HaunchPieces(s), SlabPiece(s));
  }

  /**
   * The drawing's numbers are the report's: the k-th number written on a
   * labelled figure is the number of the report's k-th line, and the figure
   * has that line's shape outline and sizes.
   */
  predicate NumberedAsReport(fs: seq<Figure>, r: BuoyancyReport)
  {
    |Numbers(Marks(fs))| == |r.entries| && |LabelledSizes(fs)| == |r.entries|
    && forall k :: 0 <= k < |r.entries| ==>
         Numbers(Marks(fs))[k] == r.entries[k].no && LabelledSizes(fs)[k] == PieceSize(r.entries[k].piece)
  }

  lemma DrawingLabelsReportEntries(s: Shapes, l: Loads, count: nat)
    requires |s.walls| <= count <= |s.B|
    requires ColumnsSpaced(s, l) && SlabDrawn(s)
    ensures NumberedAsReport(Figures(s, count), ReportOf(s, l))
  {
    var fs := Figures(s, count);
    NumbersConsecutive(fs);
    DrawingMatchesReport(s, l, count);
    ReportNumbering(s, l);
    PieceSizesAt(ReportPieces(s, l));
  }

  // ----- mirrored haunch triangles -----

  /** `g` is drawn as the twin of `f`: a numbered triangle with the same two legs. */
  predicate Twins(f: Figure, g: Figure)
  {
    f.Tri? && f.labelled && g.Tri? && Legs(f) == Legs(g)
  }

  /** Every mirror comes right after the numbered triangle it mirrors. */
  predicate MirrorsPaired(fs: seq<Figure>)
  {
    forall k :: 0 <= k < |fs| && IsMirror(fs[k]) ==> 0 < k && Twins(fs[k - 1], fs[k])
  }

  lemma MirrorsPairedAppend(a: seq<Figure>, b: seq<Figure>)
    requires MirrorsPaired(a) && MirrorsPaired(b)
    ensures MirrorsPaired(a + b)
  {
    forall k | 0 <= k < |a + b| && IsMirror((a + b)[k])
      ensures 0 < k && Twins((a + b)[k - 1], (a + b)[k])
    {
      if k >= |a| {
        assert (a + b)[k] == b[k - |a|];
        assert (a + b)[k - 1] == b[k - |a| - 1];
      } else {
        assert (a + b)[k - 1] == a[k - 1];
      }
    }
  }

  lemma {:induction false} MirrorsPairedFlatten(ss: seq<seq<Figure>>)
    requires forall i :: 0 <= i < |ss| ==> MirrorsPaired(ss[i])
    ensures MirrorsPaired(Flatten(ss))
  {
    if |ss| > 0 {
      MirrorsPairedFlatten(ss[..|ss| - 1]);
      MirrorsPairedAppend(Flatten(ss[..|ss| - 1]), ss[|ss| - 1]);
    }
  }

  predicate NoMirrors(fs: seq<Figure>)
  {
    forall k :: 0 <= k < |fs| ==> !IsMirror(fs[k])
  }

  lemma {:induction false} CellFramesNoMirrors(s: Shapes, n: nat)
    requires n <= |s.B|
    ensures NoMirrors(CellFrames(s, n))
  {
    if n > 0 {
      CellFramesNoMirrors(s, n - 1);
    }
  }

  lemma PairMirrors(s: Shapes, x: real, w: ReportWall)
    ensures MirrorsPaired(PairFigures(s, x, w))
  {
    var up := if Positive(w.haunch.upper)
      then [UpperCorner(s, x, w.haunch.upper, false, true), UpperCorner(s, x + w.thickness, w.haunch.upper, true, false)]
      else [];
    var lo := if Positive(w.haunch.lower)
      then [LowerCorner(s, x, w.haunch.lower, false, true), LowerCorner(s, x + w.thickness, w.haunch.lower, true, false)]
      else [];
    MirrorsPairedAppend(up, lo);
  }

  lemma MiddleWallMirrors(s: Shapes, count: nat)
    requires count <= |s.B|
    ensures MirrorsPaired(MiddleWallFigures(s, count))
  {
    forall i | 0 <= i < count
      ensures MirrorsPaired(WallSegs(s, count)[i])
    {
    }
    MirrorsPairedFlatten(WallSegs(s, count));
  }

  lemma MiddleHaunchMirrors(s: Shapes, count: nat)
    requires count <= |s.B|
    ensures MirrorsPaired(MiddleHaunchFigures(s, count))
  {
    forall i | 0 <= i < count
      ensures MirrorsPaired(PairSegs(s, count)[i])
    {
      if i < |s.walls| {
        PairMirrors(s, ShapeLeft(s, i) + s.B[i], s.walls[i]);
      }
    }
    MirrorsPairedFlatten(PairSegs(s, count));
  }

  lemma MirrorsPairedThree(a: seq<Figure>, b: seq<Figure>, c: seq<Figure>)
    requires MirrorsPaired(a) && MirrorsPaired(b) && MirrorsPaired(c)
    ensures MirrorsPaired(a + b + c)
  {
    MirrorsPairedAppend(a, b);
    MirrorsPairedAppend(a + b, c);
  }

  lemma BodyMirrors(s: Shapes, count: nat)
    requires count <= |s.B|
    ensures MirrorsPaired(Outlines(s, count) + BodyFigures(s, count))
  {
    CellFramesNoMirrors(s, count);
    MiddleWallMirrors(s, count);
    MirrorsPairedAppend([Frame(0.0, 0.0, TotalWidth(s), TotalHeight(s))], CellFrames(s, count));
    MirrorsPairedThree([TopSlab(s), BottomSlab(s), LeftWall(s)], MiddleWallFigures(s, count), [RightWall(s)]);
    MirrorsPairedAppend(Outlines(s, count), BodyFigures(s, count));
  }

  lemma OuterMirrors(s: Shapes, x: real, h: WallHaunch, rightward: bool)
    ensures NoMirrors(OuterFigures(s, x, h, rightward))
  {
  }

  lemma HaunchMirrors(s: Shapes, count: nat)
    requires count <= |s.B|
    ensures MirrorsPaired(HaunchFigures(s, count))
  {
    var left, middle, right := OuterFigures(s, s.WL, s.leftHaunch, true), MiddleHaunchFigures(s, count),
                               OuterFigures(s, TotalWidth(s) - s.WR, s.rightHaunch, false);
    MiddleHaunchMirrors(s, count);
    OuterMirrors(s, s.WL, s.leftHaunch, true);
    OuterMirrors(s, TotalWidth(s) - s.WR, s.rightHaunch, false);
    NoMirrorsAround(left, middle, right);
    assert HaunchFigures(s, count) == left + middle + right;
  }

  lemma NoMirrorsAround(a: seq<Figure>, b: seq<Figure>, c: seq<Figure>)
    requires NoMirrors(a) && MirrorsPaired(b) && NoMirrors(c)
    ensures MirrorsPaired(a + b + c)
  {
    MirrorsPairedThree(a, b, c);
  }

  lemma FiguresMirrorsPaired(s: Shapes, count: nat)
    requires count <= |s.B|
    ensures MirrorsPaired(Figures(s, count))
  {
    BodyMirrors(s, count);
    HaunchMirrors(s, count);
    MirrorsPairedThree(Outlines(s, count) + BodyFigures(s, count), HaunchFigures(s, count), SlabFigures(s));
  }

  lemma MirrorNumberAt(fs: seq<Figure>, k: nat)
    requires 0 < k < |fs| && IsMirror(fs[k]) && !fs[k - 1].Frame?
    ensures Marks(fs)[k].no == Marks(fs)[k - 1].no
  {
    MarkAt(fs, k);
    MarkAt(fs, k - 1);
    assert fs[..k + 1] == fs[..k] + [fs[k]];
    LabelsSnoc(fs[..k], fs[k]);
  }

  /** A mirror written after its twin shows the twin's number. */
  lemma MirrorNumbers(fs: seq<Figure>)
    requires MirrorsPaired(fs)
    ensures forall k :: 0 <= k < |fs| && IsMirror(fs[k]) ==> 0 < k && Marks(fs)[k].no == Marks(fs)[k - 1].no
  {
    forall k | 0 <= k < |fs| && IsMirror(fs[k])
      ensures 0 < k && Marks(fs)[k].no == Marks(fs)[k - 1].no
    {
      MirrorNumberAt(fs, k);
    }
  }

  /**
   * In the drawing, the right-hand triangle of every middle-wall haunch pair
   * follows its numbered left-hand twin, has the same legs, and shows the
   * same number (`curNo`).
   */
  lemma DrawingMirrors(s: Shapes, count: nat)
    requires count <= |s.B|
    ensures var fs := Figures(s, count);
            forall k :: 0 <= k < |fs| && IsMirror(fs[k]) ==>
              0 < k && Twins(fs[k - 1], fs[k]) && Marks(fs)[k].no == Marks(fs)[k - 1].no
  {
    FiguresMirrorsPaired(s, count);
    MirrorNumbers(Figures(s, count));
  }
}

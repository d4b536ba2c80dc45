/**
 * Geometry resolver: overall dimensions, input validation and the choice of
 * which wall supplies each haunch corner of a cell, in the three variants the
 * repository carries (ES-module renderer, bundled app, Python prototype).
 */
module Geometry {
  import opened Section

  datatype Dims = Dims(totalWidth: real, totalHeight: real, totalInnerWidth: real, totalMiddleWallThickness: real)

  /** `array.reduce((a, b) => a + b, acc)`: a left fold with a running total. */
  function Reduce(s: seq<real>, acc: real): real
  {
    if |s| == 0 then acc else Reduce(s[1..], acc + s[0])
  }

  lemma {:induction false} ReduceIsSum(s: seq<real>, acc: real)
    ensures Reduce(s, acc) == acc + Sum(s)
  {
    if |s| > 0 {
      ReduceIsSum(s[1..], acc + s[0]);
      SumCons(s);
    }
  }

  /**
   * `calculateDimensions` / `calculateDims`: the overall outline is the left
   * wall, every cell, every middle wall and the right wall side by side, and
   * the bottom slab, the clear height and the top slab stacked.
   */
  function CalculateDimensions(d: SectionData): (r: Dims)
    ensures r.totalInnerWidth == Sum(d.B)
    ensures r.totalMiddleWallThickness == Sum(Thicknesses(d.middleWalls))
    ensures r.totalWidth == d.WL + Sum(d.B) + Sum(Thicknesses(d.middleWalls)) + d.WR
    ensures r.totalHeight == d.LT + d.H + d.UT
  {
    var tiw := Reduce(d.B, 0.0);
    var tmw := Reduce(Thicknesses(d.middleWalls), 0.0);
    ReduceIsSum(d.B, 0.0);
    ReduceIsSum(Thicknesses(d.middleWalls), 0.0);
    Dims(d.WL + tiw + tmw + d.WR, d.LT + d.H + d.UT, tiw, tmw)
  }

  /**
   * In a section whose arrays have the lengths `setCulvertCount` gives them,
   * the cells and walls tile the outline exactly: the right face of the last
   * cell plus the right wall is the total width.
   */
  lemma {:induction false} CellsTileTotalWidth(d: SectionData)
    requires |d.B| >= 1 && |d.middleWalls| == |d.B| - 1
    ensures WallLeft(d, |d.B| - 1) + d.WR == CalculateDimensions(d).totalWidth
  {
    var n := |d.B|;
    SumSnoc(d.B, n - 1);
    assert d.B[..n] == d.B;
    assert Thicknesses(d.middleWalls)[..n - 1] == Thicknesses(d.middleWalls);
  }

  /** Cells start left to right: with non-negative widths and thicknesses the left edges never decrease. */
  lemma {:induction false} CellLeftMonotone(d: SectionData, i: nat, j: nat)
    requires i <= j <= |d.B|
    requires forall k :: 0 <= k < |d.B| ==> d.B[k] >= 0.0
    requires forall k :: 0 <= k < |d.middleWalls| ==> d.middleWalls[k].thickness >= 0.0
    ensures CellLeft(d, i) <= CellLeft(d, j)
    decreases j - i
  {
    if i < j {
      CellLeftStep(d, i);
      CellLeftMonotone(d, i + 1, j);
    }
  }

  /** `validateData` of the section view: every dimension positive and at least one cell. */
  predicate ValidForView(d: SectionData)
  {
    d.H > 0.0 && |d.B| > 0 && d.UT > 0.0 && d.LT > 0.0 && d.WL > 0.0 && d.WR > 0.0
  }

  /** `validateData` of the CAD exporters: only the clear height and the cell list are checked. */
  predicate ValidForExport(d: SectionData)
  {
    d.H > 0.0 && |d.B| > 0
  }

  /** The exporters accept every section the view accepts, and strictly more. */
  lemma ExportAcceptsMoreThanView(d: SectionData)
    ensures ValidForView(d) ==> ValidForExport(d)
    ensures ValidForExport(d) && d.WL == 0.0 ==> !ValidForView(d)
  {
  }

  // ----- haunch corners of one cell -----

  datatype Corners = Corners(ul: Corner, ll: Corner, ur: Corner, lr: Corner)

  const ZeroCorners := Corners(ZeroCorner, ZeroCorner, ZeroCorner, ZeroCorner)

  function MiddleAt(h: Haunch, k: int): Option<WallHaunch>
  {
    if 0 <= k < |h.middleWalls| then Some(h.middleWalls[k]) else None
  }

  function UpperOf(w: Option<WallHaunch>): Corner
  {
    if w.Some? then w.value.upper else ZeroCorner
  }

  function LowerOf(w: Option<WallHaunch>): Corner
  {
    if w.Some? then w.value.lower else ZeroCorner
  }

  /** The wall whose haunches form the left corners of cell `i`. */
  function LeftSource(d: SectionData, i: nat): Option<WallHaunch>
  {
    if i == 0 then d.haunch.leftWall else MiddleAt(d.haunch, i - 1)
  }

  /** The wall whose haunches form the right corners of cell `i`. */
  function RightSource(d: SectionData, i: nat): Option<WallHaunch>
  {
    if i == d.culvertCount - 1 then d.haunch.rightWall else MiddleAt(d.haunch, i)
  }

  /** `getCompartmentHaunches` of the ES-module renderer: missing corners read as zero. */
  function CompartmentHaunches(d: SectionData, i: nat): Corners
  {
    var left := LeftSource(d, i);
    var right := RightSource(d, i);
    Corners(UpperOf(left), LowerOf(left), UpperOf(right), LowerOf(right))
  }

  /**
   * Neighbouring cells share the haunches of the wall between them: the right
   * corners of cell `i` are the left corners of cell `i + 1`.
   */
  lemma NeighboursShareWallHaunch(d: SectionData, i: nat)
    requires i + 1 < d.culvertCount
    ensures CompartmentHaunches(d, i).ur == CompartmentHaunches(d, i + 1).ul
    ensures CompartmentHaunches(d, i).lr == CompartmentHaunches(d, i + 1).ll
  {
  }

  /** A middle-wall haunch entry that does not exist gives zero corners on both sides of that wall. */
  lemma MissingMiddleHaunchIsZero(d: SectionData, i: nat)
    requires 0 < i < d.culvertCount && i - 1 >= |d.haunch.middleWalls|
    ensures CompartmentHaunches(d, i).ul == ZeroCorner && CompartmentHaunches(d, i).ll == ZeroCorner
    ensures CompartmentHaunches(d, i - 1).ur == ZeroCorner && CompartmentHaunches(d, i - 1).lr == ZeroCorner
  {
  }

  // ----- the bundled app normalises haunches first -----

  /** `safeCorner`: a zero leg, or a missing corner, becomes 150; a non-zero leg is kept. */
  function SafeCorner(c: Corner): (r: Corner)
    ensures r.width != 0.0 && r.height != 0.0
    ensures c.width != 0.0 ==> r.width == c.width
    ensures c.height != 0.0 ==> r.height == c.height
    ensures c.width == 0.0 ==> r.width == 150.0
    ensures c.height == 0.0 ==> r.height == 150.0
  {
    Corner(Or(c.width, 150.0), Or(c.height, 150.0))
  }

  function SafeWall(w: Option<WallHaunch>): WallHaunch
  {
    WallHaunch(SafeCorner(UpperOf(w)), SafeCorner(LowerOf(w)))
  }

  /** Number of middle walls `getHaunchData` lays out: `(culvert_count || 1) - 1`, never negative. */
  function HaunchWallCount(d: SectionData): nat
  {
    Max(0, OrInt(d.culvertCount, 1) - 1)
  }

  /**
   * `getHaunchData`: both outer walls and exactly `(culvert_count || 1) - 1`
   * middle walls, whatever length is stored, each entry passed through
   * `safeCorner`.
   */
  function HaunchData(d: SectionData): (h: Haunch)
    ensures h.leftWall == Some(SafeWall(d.haunch.leftWall))
    ensures h.rightWall == Some(SafeWall(d.haunch.rightWall))
    ensures |h.middleWalls| == HaunchWallCount(d)
    ensures d.culvertCount >= 1 ==> |h.middleWalls| == d.culvertCount - 1
    ensures forall k :: 0 <= k < |h.middleWalls| ==> h.middleWalls[k] == SafeWall(MiddleAt(d.haunch, k))
  {
    var n := HaunchWallCount(d);
    Haunch(Some(SafeWall(d.haunch.leftWall)), Some(SafeWall(d.haunch.rightWall)),
           seq(n, k requires 0 <= k < n => SafeWall(MiddleAt(d.haunch, k))))
  }

  /** Every corner `getHaunchData` returns has both legs non-zero. */
  lemma HaunchDataHasNoZeroLeg(d: SectionData, k: nat)
    requires k < HaunchWallCount(d)
    ensures HaunchData(d).middleWalls[k].upper.width != 0.0 && HaunchData(d).middleWalls[k].upper.height != 0.0
    ensures HaunchData(d).middleWalls[k].lower.width != 0.0 && HaunchData(d).middleWalls[k].lower.height != 0.0
  {
  }

  /** The bundle's `getCompartmentHaunches`, reading the normalised haunch data. */
  function BundleCompartmentHaunches(d: SectionData, i: nat): Corners
  {
    var h := HaunchData(d);
    var left := if i == 0 then h.leftWall else MiddleAt(h, i - 1);
    var right := if i == d.culvertCount - 1 then h.rightWall else MiddleAt(h, i);
    Corners(UpperOf(left), LowerOf(left), UpperOf(right), LowerOf(right))
  }

  function SafeCorners(c: Corners): Corners
  {
    Corners(SafeCorner(c.ul), SafeCorner(c.ll), SafeCorner(c.ur), SafeCorner(c.lr))
  }

  /**
   * For every drawn cell the bundle's corners are the ES-module corners
   * passed through `safeCorner`: the two renderers agree exactly when no
   * corner leg is zero or missing.
   */
  lemma BundleCornersAreSafeCorners(d: SectionData, i: nat)
    requires i < d.culvertCount
    ensures BundleCompartmentHaunches(d, i) == SafeCorners(CompartmentHaunches(d, i))
  {
  }

  /** A zero haunch stays zero in the ES-module renderer and becomes 150 in the bundle. */
  lemma ZeroHaunchDiffersBetweenRenderers()
    ensures var d := SectionData(1, 4200.0, 0.0, [4000.0], 600.0, 800.0, 600.0, 600.0, [],
                                 Haunch(Some(WallHaunch(ZeroCorner, ZeroCorner)), Some(WallHaunch(ZeroCorner, ZeroCorner)), []),
                                 None, None);
            CompartmentHaunches(d, 0).ul == ZeroCorner && BundleCompartmentHaunches(d, 0).ul == Corner(150.0, 150.0)
  {
  }

  // ----- the Python prototype -----

  /** `get_compartment_haunches`: an empty haunch record gives zero corners; otherwise as the ES-module renderer. */
  function PyCompartmentHaunches(d: SectionData, i: nat): Corners
  {
    if d.haunch == Haunch(None, None, []) then ZeroCorners
    else
      var mw := d.haunch.middleWalls;
      var left := if i == 0 then d.haunch.leftWall else (if i - 1 < |mw| then Some(mw[i - 1]) else None);
      var right := if i == d.culvertCount - 1 then d.haunch.rightWall else (if i < |mw| then Some(mw[i]) else None);
      Corners(UpperOf(left), LowerOf(left), UpperOf(right), LowerOf(right))
  }

  /** The Python prototype and the ES-module renderer choose the same corners. */
  lemma PyCornersMatchModuleCorners(d: SectionData, i: nat)
    ensures PyCompartmentHaunches(d, i) == CompartmentHaunches(d, i)
  {
  }
}

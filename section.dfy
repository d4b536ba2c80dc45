/**
 * The cross-section record shared by every part of the culvert engine:
 * cell widths, slab and wall thicknesses, middle walls, haunch corners,
 * column girders and the anti-float slab, all lengths in millimetres.
 *
 * Every numeric field is present and holds a number (the form the input
 * forms always write). Where the source tests a value with JavaScript's
 * `x || d`, the model uses `Or`; Python's `.get(k, d)` only replaces a
 * missing key and therefore keeps the value as it is.
 */
module Section {

  datatype Option<T> = None | Some(value: T)

  /** JavaScript `x || d` on a number: a zero falls back to `d`. */
  function Or(x: real, d: real): real
  {
    if x != 0.0 then x else d
  }

  /** JavaScript `n || d` on an integer count. */
  function OrInt(n: int, d: int): int
  {
    if n != 0 then n else d
  }

  function Min(a: int, b: int): int
  {
    if a <= b then a else b
  }

  function Max(a: int, b: int): int
  {
    if a >= b then a else b
  }

  /** One haunch corner: the horizontal and vertical legs of the triangle. */
  datatype Corner = Corner(width: real, height: real)

  const ZeroCorner := Corner(0.0, 0.0)

  /** The upper and lower haunch corners of one wall. */
  datatype WallHaunch = WallHaunch(upper: Corner, lower: Corner)

  /**
   * `haunch` of the section: the outer walls may be absent; the list of
   * middle-wall haunches may be shorter or longer than the wall list.
   */
  datatype Haunch = Haunch(leftWall: Option<WallHaunch>, rightWall: Option<WallHaunch>, middleWalls: seq<WallHaunch>)

  /** '연속벽' (continuous wall) or '기둥' (column row with girders). */
  datatype WallKind = Continuous | Column

  datatype MiddleWall = MiddleWall(kind: WallKind, thickness: real)

  datatype ColumnGirder = ColumnGirder(columnCTC: real, columnWidth: real, upperAdditionalHeight: real, lowerAdditionalHeight: real)

  datatype AntiFloat = AntiFloat(use: bool, leftExtension: real, rightExtension: real, thickness: real)

  datatype SectionData = SectionData(
    culvertCount: int,
    H: real,
    H4: real,
    B: seq<real>,
    UT: real,
    LT: real,
    WL: real,
    WR: real,
    middleWalls: seq<MiddleWall>,
    haunch: Haunch,
    columnGirder: Option<ColumnGirder>,
    antiFloat: Option<AntiFloat>)

  datatype GroundInfo = GroundInfo(earthCoverDepth: real, groundwaterLevel: real, frictionAngle: real, soilUnitWeight: real)

  /** Sum of a sequence, taken from the left as the source's loops and reductions do. */
  function Sum(s: seq<real>): real
  {
    if |s| == 0 then 0.0 else Sum(s[..|s| - 1]) + s[|s| - 1]
  }

  lemma SumSnoc(s: seq<real>, k: nat)
    requires k < |s|
    ensures Sum(s[..k + 1]) == Sum(s[..k]) + s[k]
  {
    assert s[..k + 1][..k] == s[..k];
  }

  lemma {:induction false} SumCons(s: seq<real>)
    requires |s| > 0
    ensures Sum(s) == s[0] + Sum(s[1..])
  {
    if |s| > 1 {
      SumCons(s[..|s| - 1]);
      assert s[..|s| - 1][1..] == s[1..][..|s| - 2];
    } else {
      assert s[1..] == [];
    }
  }

  function Thicknesses(mw: seq<MiddleWall>): (r: seq<real>)
    ensures |r| == |mw|
    ensures forall i :: 0 <= i < |mw| ==> r[i] == mw[i].thickness
  {
    seq(|mw|, i requires 0 <= i < |mw| => mw[i].thickness)
  }

  /**
   * Left edge of cell `i`: the left wall, then every earlier cell width and
   * every earlier middle wall that exists.
   */
  function CellLeft(d: SectionData, i: nat): real
    requires i <= |d.B|
  {
    d.WL + Sum(d.B[..i]) + Sum(Thicknesses(d.middleWalls)[..Min(i, |d.middleWalls|)])
  }

  /** Left face of middle wall `i`, the right edge of cell `i`. */
  function WallLeft(d: SectionData, i: nat): real
    requires i < |d.B|
  {
    CellLeft(d, i) + d.B[i]
  }

  /** The running-offset step of the source's scans: past cell `i` and, when it exists, wall `i`. */
  lemma CellLeftStep(d: SectionData, i: nat)
    requires i < |d.B|
    ensures CellLeft(d, i + 1) == CellLeft(d, i) + d.B[i] + (if i < |d.middleWalls| then d.middleWalls[i].thickness else 0.0)
  {
    SumSnoc(d.B, i);
    if i < |d.middleWalls| {
      SumSnoc(Thicknesses(d.middleWalls), i);
    }
  }

  /** The anti-float slab is drawn and counted only when it is present and switched on. */
  predicate AntiFloatOn(d: SectionData)
  {
    d.antiFloat.Some? && d.antiFloat.value.use
  }
}

/**
 * The one-row section table both input forms show: H, H4, one width per
 * cell, UT, LT, WL, a (type, thickness) pair per middle wall, WR. The
 * column arithmetic, the row a section lays out as, and how the Qt table
 * reads a row back.
 */
module SectionTable {
  import opened Section

  /** Column count for `n` cells: (2 + n) inner + 2 slab + 1 left wall + 2 per middle wall + 1 right wall. */
  function TotalCols(n: nat): (c: int)
    ensures n >= 1 ==> c == 3 * n + 4
  {
    (2 + n) + 2 + 1 + 2 * (n - 1) + 1
  }

  function BColumn(i: nat): nat { 2 + i }
  function UTColumn(n: nat): nat { 2 + n }
  function LTColumn(n: nat): nat { UTColumn(n) + 1 }
  function WLColumn(n: nat): nat { UTColumn(n) + 2 }
  function WallTypeColumn(n: nat, i: nat): nat { WLColumn(n) + 1 + 2 * i }
  function WallThicknessColumn(n: nat, i: nat): nat { WallTypeColumn(n, i) + 1 }
  function WRColumn(n: nat): int { WLColumn(n) + 1 + 2 * (n - 1) }

  /**
   * The columns the reader uses are exactly the columns the table has: the
   * right wall is the last column, every width and wall column lies inside
   * the table, and different fields never share a column.
   */
  lemma ColumnsPartitionRow(n: nat)
    requires n >= 1
    ensures WRColumn(n) == TotalCols(n) - 1
    ensures forall i :: 0 <= i < n ==> 2 <= BColumn(i) < UTColumn(n)
    ensures UTColumn(n) < LTColumn(n) < WLColumn(n) < WallTypeColumn(n, 0)
    ensures forall i :: 0 <= i < n - 1 ==> WLColumn(n) < WallTypeColumn(n, i) < WallThicknessColumn(n, i) < WRColumn(n)
    ensures forall i, j :: 0 <= i < j < n - 1 ==> WallThicknessColumn(n, i) < WallTypeColumn(n, j)
  {
  }

  /**
   * A cell of the data row as the Qt reader sees it: a text item holding a
   * number, an empty text item, a text item that does not parse, the wall
   * type combo box, or no item at all.
   */
  datatype Cell = Num(r: real) | Blank | Unparsable | WallChoice(kind: WallKind) | NoItem

  /** `float(item.text() or 0)`: empty text reads as 0; a missing item or bad text is an error. */
  function CellNumber(c: Cell): Option<real>
  {
    match c
    case Num(r) => Some(r)
    case Blank => Some(0.0)
    case _ => None
  }

  /** `combo.currentText() if combo else "연속벽"`. */
  function CellKind(c: Cell): WallKind
  {
    if c.WallChoice? then c.kind else Continuous
  }

  function CellAt(cells: seq<Cell>, col: int): Cell
  {
    if 0 <= col < |cells| then cells[col] else NoItem
  }

  /** The editable fields of the section table. */
  datatype TableValues = TableValues(H: real, H4: real, B: seq<real>, UT: real, LT: real, WL: real, walls: seq<MiddleWall>, WR: real)

  predicate FitsCount(v: TableValues, n: nat)
  {
    n >= 1 && |v.B| == n && |v.walls| == n - 1
  }

  /** Column `c` of the row a table for `n` cells shows for `v`. */
  function CellFor(v: TableValues, n: nat, c: nat): Cell
    requires FitsCount(v, n)
  {
    if c == 0 then Num(v.H)
    else if c == 1 then Num(v.H4)
    else if c < UTColumn(n) then Num(v.B[c - 2])
    else if c == UTColumn(n) then Num(v.UT)
    else if c == LTColumn(n) then Num(v.LT)
    else if c == WLColumn(n) then Num(v.WL)
    else if c < WRColumn(n) then
      var k := (c - WallTypeColumn(n, 0)) / 2;
      if (c - WallTypeColumn(n, 0)) % 2 == 0 then WallChoice(v.walls[k].kind) else Num(v.walls[k].thickness)
    else Num(v.WR)
  }

  /** The data row for `v`, one cell per column. */
  function Layout(v: TableValues, n: nat): (cells: seq<Cell>)
    requires FitsCount(v, n)
    ensures |cells| == TotalCols(n)
  {
    seq(TotalCols(n), c requires 0 <= c < TotalCols(n) => CellFor(v, n, c))
  }

  predicate Readable(cells: seq<Cell>, n: nat)
  {
    && CellNumber(CellAt(cells, 0)).Some? && CellNumber(CellAt(cells, 1)).Some?
    && (forall i :: 0 <= i < n ==> CellNumber(CellAt(cells, BColumn(i))).Some?)
    && CellNumber(CellAt(cells, UTColumn(n))).Some? && CellNumber(CellAt(cells, LTColumn(n))).Some?
    && CellNumber(CellAt(cells, WLColumn(n))).Some?
    && (forall i :: 0 <= i < n - 1 ==> CellNumber(CellAt(cells, WallThicknessColumn(n, i))).Some?)
    && CellNumber(CellAt(cells, WRColumn(n))).Some?
  }

  /** What `get_culvert_section_data` reads from the data row, or `None` when any read raises. */
  function ReadRow(cells: seq<Cell>, n: nat): (r: Option<TableValues>)
    ensures r.Some? <==> Readable(cells, n)
    ensures r.Some? ==> |r.value.B| == n && |r.value.walls| == Max(0, n - 1)
  {
    if !Readable(cells, n) then None
    else
      var m := Max(0, n - 1);
      Some(TableValues(
        CellNumber(CellAt(cells, 0)).value, CellNumber(CellAt(cells, 1)).value,
        seq(n, i requires 0 <= i < n => CellNumber(CellAt(cells, BColumn(i))).value),
        CellNumber(CellAt(cells, UTColumn(n))).value, CellNumber(CellAt(cells, LTColumn(n))).value,
        CellNumber(CellAt(cells, WLColumn(n))).value,
        seq(m, i requires 0 <= i < m => MiddleWall(CellKind(CellAt(cells, WallTypeColumn(n, i))),
                                                   CellNumber(CellAt(cells, WallThicknessColumn(n, i))).value)),
        CellNumber(CellAt(cells, WRColumn(n))).value))
  }

  lemma LayoutWallCells(v: TableValues, n: nat, i: nat)
    requires FitsCount(v, n) && i < n - 1
    ensures Layout(v, n)[WallTypeColumn(n, i)] == WallChoice(v.walls[i].kind)
    ensures Layout(v, n)[WallThicknessColumn(n, i)] == Num(v.walls[i].thickness)
  {
    var c := WallTypeColumn(n, i);
    assert (c - WallTypeColumn(n, 0)) / 2 == i && (c - WallTypeColumn(n, 0)) % 2 == 0;
    assert (c + 1 - WallTypeColumn(n, 0)) / 2 == i && (c + 1 - WallTypeColumn(n, 0)) % 2 == 1;
  }

  /** Reading back the row a table lays out for a section gives that section's fields: the column mapping round-trips. */
  lemma ReadLayoutRoundTrip(v: TableValues, n: nat)
    requires FitsCount(v, n)
    ensures ReadRow(Layout(v, n), n) == Some(v)
  {
    var cells := Layout(v, n);
    forall i | 0 <= i < n - 1
      ensures CellAt(cells, WallTypeColumn(n, i)) == WallChoice(v.walls[i].kind)
      ensures CellAt(cells, WallThicknessColumn(n, i)) == Num(v.walls[i].thickness)
    {
      LayoutWallCells(v, n, i);
    }
    assert Readable(cells, n);
    var r := ReadRow(cells, n).value;
    assert r.B == v.B;
    assert r.walls == v.walls;
  }

  /** The values `create_section_tab` fills in for `n` cells. */
  function DefaultValues(n: nat): (v: TableValues)
    requires n >= 1
    ensures FitsCount(v, n)
  {
    TableValues(4200.0, 0.0, seq(n, _ => 4000.0), 600.0, 800.0, 600.0, seq(n - 1, _ => MiddleWall(Continuous, 600.0)), 600.0)
  }

  /**
   * `create_section_tab`'s data row, built as the source does: the two
   * heights, a width per cell, the slabs and the left wall, a combo box and
   * a thickness per middle wall, the right wall.
   */
  method CreateSectionRow(n: nat) returns (cells: seq<Cell>)
    requires n >= 1
    ensures cells == Layout(DefaultValues(n), n)
  {
    ghost var v := DefaultValues(n);
    cells := [Num(4200.0), Num(0.0)];
    var i := 0;
    while i < n
      invariant 0 <= i <= n
      invariant |cells| == 2 + i
      invariant forall c :: 0 <= c < |cells| ==> cells[c] == CellFor(v, n, c)
    {
      cells := cells + [Num(4000.0)];
      i := i + 1;
    }
    cells := cells + [Num(600.0), Num(800.0), Num(600.0)];
    i := 0;
    while i < n - 1
      invariant 0 <= i <= n - 1
      invariant |cells| == WallTypeColumn(n, i)
      invariant forall c :: 0 <= c < |cells| ==> cells[c] == CellFor(v, n, c)
    {
      LayoutWallCells(v, n, i);
      cells := cells + [WallChoice(Continuous), Num(600.0)];
      i := i + 1;
    }
    cells := cells + [Num(600.0)];
  }
}

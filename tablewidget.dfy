/**
 * The Qt input widget of the desktop prototype: the cell-count spin box,
 * the section table it rebuilds, the haunch cards that edit `haunch_data`
 * in place, the read-back of the section with its cache, and the list of
 * named sections with its delete and edit handlers.
 */
module TableWidget {
  import opened Section
  import opened Store
  import opened SectionTable
  import opened SectionForm

  /** The desktop prototype's default haunch corners are 300 x 300. */
  const Wall300 := WallHaunch(Corner(300.0, 300.0), Corner(300.0, 300.0))

  /** The append loop alone: pads up to `n` entries and never shortens. */
  function PadTo<T>(s: seq<T>, n: int, pad: T): (r: seq<T>)
    ensures |r| == Max(|s|, n)
    ensures r[..|s|] == s
    ensures forall i :: |s| <= i < |r| ==> r[i] == pad
  {
    if |s| >= n then s else s + seq(n - |s|, _ => pad)
  }

  /** The section the widget reports: table values, its spin-box count and its live haunch and anti-float records. */
  function SectionFromTable(v: TableValues, n: int, h: Haunch, af: AntiFloat): SectionData
  {
    SectionData(n, v.H, v.H4, v.B, v.UT, v.LT, v.WL, v.WR, v.walls, h, None, Some(af))
  }

  /** A row of the list of named sections: its label (`단면k`, or text typed over it), height and width text. */
  datatype RowName = Numbered(k: nat) | Typed(text: string)

  datatype SectionRow = SectionRow(name: RowName, height: string, width: string)

  const EmptyRow := SectionRow(Typed(""), "", "")

  /** The unchecked rows, in their order. */
  function Kept(rows: seq<SectionRow>, checked: set<nat>): (r: seq<SectionRow>)
    ensures |r| <= |rows|
  {
    if |rows| == 0 then []
    else Kept(rows[..|rows| - 1], checked) + (if |rows| - 1 in checked then [] else [rows[|rows| - 1]])
  }

  /** Each row labelled by its position, `단면1`, `단면2`, ... */
  function Renumbered(rows: seq<SectionRow>): (r: seq<SectionRow>)
    ensures |r| == |rows|
  {
    seq(|rows|, i requires 0 <= i < |rows| => rows[i].(name := Numbered(i + 1)))
  }

  /** The list `delete_selected_rows` leaves: the survivors renumbered, or one fresh row when none survives. */
  function AfterDelete(rows: seq<SectionRow>, checked: set<nat>): seq<SectionRow>
  {
    var kept := Kept(rows, checked);
    if |kept| == 0 then [SectionRow(Numbered(1), "", "")] else Renumbered(kept)
  }

  /** No checked row survives, every unchecked one does, and with nothing checked the list is only renumbered. */
  lemma KeptSpec(rows: seq<SectionRow>, checked: set<nat>)
    ensures |Kept(rows, checked)| == |rows| - |set i | 0 <= i < |rows| && i in checked|
    ensures (forall i :: 0 <= i < |rows| ==> i !in checked) ==> Kept(rows, checked) == rows
  {
    KeptCount(rows, checked);
    if forall i :: 0 <= i < |rows| ==> i !in checked {
      KeptAll(rows, checked);
    }
  }

  lemma {:induction false} KeptCount(rows: seq<SectionRow>, checked: set<nat>)
    ensures |Kept(rows, checked)| == |rows| - |set i | 0 <= i < |rows| && i in checked|
  {
    if |rows| > 0 {
      var n := |rows| - 1;
      KeptCount(rows[..n], checked);
      var before := set i | 0 <= i < n && i in checked;
      var after := set i | 0 <= i < |rows| && i in checked;
      assert |rows[..n]| == n;
      if n in checked {
        assert n !in before;
        assert after == before + {n};
      } else {
        assert after == before;
      }
    }
  }

  lemma {:induction false} KeptAll(rows: seq<SectionRow>, checked: set<nat>)
    requires forall i :: 0 <= i < |rows| ==> i !in checked
    ensures Kept(rows, checked) == rows
  {
    if |rows| > 0 {
      var n := |rows| - 1;
      KeptAll(rows[..n], checked);
      assert rows[..n] + [rows[n]] == rows;
    }
  }

  /**
   * After a delete the list is never empty, its labels run `단면1 .. 단면k`
   * without gaps, and the heights and widths are those of the unchecked rows in order.
   */
  lemma AfterDeleteSpec(rows: seq<SectionRow>, checked: set<nat>)
    ensures var r := AfterDelete(rows, checked);
      && |r| >= 1
      && (forall i :: 0 <= i < |r| ==> r[i].name == Numbered(i + 1))
      && (|Kept(rows, checked)| > 0 ==> |r| == |Kept(rows, checked)|)
      && (|Kept(rows, checked)| > 0 ==>
            forall i :: 0 <= i < |r| ==> r[i].height == Kept(rows, checked)[i].height && r[i].width == Kept(rows, checked)[i].width)
  {
  }

  /** What an item write in column `col` of `row` leaves in the list: `on_item_changed` pads up to the row and writes columns 1 to 3. */
  function ItemWrite(rows: seq<SectionRow>, row: nat, col: int, text: string): (r: seq<SectionRow>)
    ensures 1 <= col <= 3 ==> |r| == Max(|rows|, row + 1)
    ensures !(1 <= col <= 3) ==> r == rows
  {
    if 1 <= col <= 3 then
      var p := PadTo(rows, row + 1, EmptyRow);
      p[row := if col == 1 then p[row].(name := Typed(text)) else if col == 2 then p[row].(height := text) else p[row].(width := text)]
    else rows
  }

  /** `add_section_row` at table row `row`: the item writes pad the list up to the row, which then holds `s`. */
  function Added(rows: seq<SectionRow>, row: nat, s: SectionRow): (r: seq<SectionRow>)
    ensures |r| == Max(|rows|, row + 1) && r[row] == s
  {
    PadTo(rows, row + 1, EmptyRow)[row := s]
  }

  /** The number of rows below `n` that are checked: the rows `delete_selected_rows` removes from the table. */
  function CheckedBelow(n: nat, checked: set<nat>): (k: nat)
    ensures k <= n
  {
    if n == 0 then 0 else CheckedBelow(n - 1, checked) + (if n - 1 in checked then 1 else 0)
  }

  /**
   * The renumbering loop over the first `n` table rows: each `setText`
   * pads the list up to the row (through `on_item_changed`), and the row's
   * entry is then labelled `단면{row+1}`.
   */
  function RenumberFirst(rows: seq<SectionRow>, n: nat): seq<SectionRow>
  {
    if n == 0 then rows
    else
      var p := PadTo(RenumberFirst(rows, n - 1), n, EmptyRow);
      p[n - 1 := p[n - 1].(name := Numbered(n))]
  }

  /**
   * `delete_selected_rows` on a list `rows` beside a table of `t` rows: the
   * ticked table rows go, the list loses the entries it has at those rows,
   * the remaining table rows are renumbered, and an empty table gets one
   * new row. The result is the list and the table's new row count.
   */
  function DeleteIn(rows: seq<SectionRow>, t: nat, checked: set<nat>): (seq<SectionRow>, nat)
  {
    var live := set r | r in checked && r < t;
    var left := t - CheckedBelow(t, checked);
    var renumbered := RenumberFirst(Kept(rows, live), left);
    if left == 0 then (Added(renumbered, 0, SectionRow(Numbered(1), "", "")), 1) else (renumbered, left)
  }

  /** The list and the table agree on their length: then adding a row appends exactly that row. */
  lemma AddedInStep(rows: seq<SectionRow>, s: SectionRow)
    ensures Added(rows, |rows|, s) == rows + [s]
  {
    assert PadTo(rows, |rows| + 1, EmptyRow) == rows + [EmptyRow];
  }

  /** The deletion only looks at the checked rows below the list's length. */
  lemma {:induction false} KeptIgnoresBeyond(rows: seq<SectionRow>, c1: set<nat>, c2: set<nat>)
    requires forall i :: 0 <= i < |rows| ==> (i in c1 <==> i in c2)
    ensures Kept(rows, c1) == Kept(rows, c2)
  {
    if |rows| > 0 {
      KeptIgnoresBeyond(rows[..|rows| - 1], c1, c2);
    }
  }

  lemma {:induction false} KeptLength(rows: seq<SectionRow>, checked: set<nat>)
    ensures |Kept(rows, checked)| == |rows| - CheckedBelow(|rows|, checked)
  {
    if |rows| > 0 {
      KeptLength(rows[..|rows| - 1], checked);
    }
  }

  /** Renumbering the first `n` rows of a list at least `n` long relabels those rows and changes nothing else. */
  lemma {:induction false} RenumberFirstSpec(rows: seq<SectionRow>, n: nat)
    requires n <= |rows|
    ensures |RenumberFirst(rows, n)| == |rows|
    ensures forall i :: 0 <= i < |rows| ==> RenumberFirst(rows, n)[i] == if i < n then rows[i].(name := Numbered(i + 1)) else rows[i]
  {
    if n > 0 {
      RenumberFirstSpec(rows, n - 1);
    }
  }

  /**
   * While the list and the table have the same length, `delete_selected_rows`
   * does what it is meant to: the list becomes `AfterDelete` (the unchecked
   * rows renumbered, or one fresh row) and the table keeps the same length.
   */
  lemma DeleteInStep(rows: seq<SectionRow>, checked: set<nat>)
    ensures DeleteIn(rows, |rows|, checked) == (AfterDelete(rows, checked), |AfterDelete(rows, checked)|)
  {
    var live := set r | r in checked && r < |rows|;
    KeptIgnoresBeyond(rows, live, checked);
    KeptLength(rows, checked);
    var kept := Kept(rows, checked);
    var left := |rows| - CheckedBelow(|rows|, checked);
    RenumberFirstSpec(kept, left);
    if left == 0 {
      assert kept == [];
      var one := SectionRow(Numbered(1), "", "");
      assert Added([], 0, one) == [one];
    } else {
      assert RenumberFirst(kept, left) == Renumbered(kept);
    }
  }

  /** `setup_project_info`'s item writes: entry `i` of the list is named by `texts[i]`. */
  function NameWrites(rows: seq<SectionRow>, texts: seq<string>): seq<SectionRow>
  {
    if |texts| == 0 then rows
    else ItemWrite(NameWrites(rows, texts[..|texts| - 1]), |texts| - 1, 1, texts[|texts| - 1])
  }

  /**
   * The project-information menu writes its texts into the section list: the
   * first entries take them as labels and keep their heights and widths, and
   * the later entries are untouched.
   */
  lemma {:induction false} NameWritesSpec(rows: seq<SectionRow>, texts: seq<string>)
    ensures |NameWrites(rows, texts)| == Max(|rows|, |texts|)
    ensures forall i :: 0 <= i < |texts| ==> NameWrites(rows, texts)[i].name == Typed(texts[i])
    ensures forall i :: 0 <= i < |texts| && i < |rows| ==>
              NameWrites(rows, texts)[i].height == rows[i].height && NameWrites(rows, texts)[i].width == rows[i].width
    ensures forall i :: |texts| <= i < |rows| ==> NameWrites(rows, texts)[i] == rows[i]
  {
    if |texts| > 0 {
      var k := |texts| - 1;
      var front := texts[..k];
      NameWritesSpec(rows, front);
      assert forall i :: 0 <= i < k ==> front[i] == texts[i];
    }
  }

  /** The menus of `update_content`, chosen by the first of the fragments the title contains. */
  datatype Menu = ProjectInfo | BasicEnvironment | SectionProperties | Materials | GroundInfoMenu | OtherMenu

  /** Python's `t in s` on strings: `t` starts at some position of `s`. */
  predicate Contains(s: string, t: string)
    decreases |s|
  {
    |t| <= |s| && (s[..|t|] == t || Contains(s[1..], t))
  }

  function MenuOf(title: string): Menu
  {
    if Contains(title, "프로젝트 정보") then ProjectInfo
    else if Contains(title, "기본환경") then BasicEnvironment
    else if Contains(title, "단면제원") then SectionProperties
    else if Contains(title, "재료특성") then Materials
    else if Contains(title, "지반정보") then GroundInfoMenu
    else OtherMenu
  }

  /** The contents column of the project-information menu. */
  const ProjectInfoTexts: seq<string> := ["테스트 사업", "한국도로공사", "(주)ESC", "서울"]

  /** The table's row count after a menu other than the section menu is shown. */
  function MenuRowCount(m: Menu): nat
  {
    match m
    case ProjectInfo => 4
    case BasicEnvironment => 3
    case Materials => 2
    case GroundInfoMenu => 4
    case _ => 1
  }

  /** The section list after a menu other than the section menu writes its column-1 items. */
  function MenuRows(rows: seq<SectionRow>, title: string): seq<SectionRow>
  {
    match MenuOf(title)
    case ProjectInfo => NameWrites(rows, ProjectInfoTexts)
    case BasicEnvironment => ItemWrite(rows, 1, 1, "100년")
    case OtherMenu => ItemWrite(rows, 0, 1, title)
    case _ => rows
  }

  /**
   * Every menu but the section menu leaves a section list at least as long as
   * the table's rows that hold a text item, whose labels are the texts written.
   */
  lemma MenuRowsLabels(rows: seq<SectionRow>, title: string)
    ensures MenuOf(title) == ProjectInfo ==>
              |MenuRows(rows, title)| >= 4
              && forall i :: 0 <= i < 4 ==> MenuRows(rows, title)[i].name == Typed(ProjectInfoTexts[i])
    ensures MenuOf(title) == BasicEnvironment ==> |MenuRows(rows, title)| >= 2 && MenuRows(rows, title)[1].name == Typed("100년")
    ensures MenuOf(title) == OtherMenu ==> |MenuRows(rows, title)| >= 1 && MenuRows(rows, title)[0].name == Typed(title)
    ensures MenuOf(title) == Materials || MenuOf(title) == GroundInfoMenu ==> MenuRows(rows, title) == rows
  {
    NameWritesSpec(rows, ProjectInfoTexts);
  }

  /** The cache `__init__` sets is the section table's default section for three cells. */
  lemma InitialCacheIsDefault()
    ensures DefaultValues(3) == TableValues(4200.0, 0.0, [4000.0, 4000.0, 4000.0], 600.0, 800.0, 600.0,
                                            [MiddleWall(Continuous, 600.0), MiddleWall(Continuous, 600.0)], 600.0)
  {
    assert seq(3, _ => 4000.0) == [4000.0, 4000.0, 4000.0];
    assert seq(2, _ => MiddleWall(Continuous, 600.0)) == [MiddleWall(Continuous, 600.0), MiddleWall(Continuous, 600.0)];
  }

  class CulvertTableWidget {
    /** `haunch_data`: both outer walls always present. */
    var haunch: Haunch
    var antiFloat: AntiFloat
    /** The spin-box value; it starts at 3 and is read only while the section widgets exist. */
    var count: int
    /** The data row of the section table; empty until the section menu is first opened. */
    var cells: seq<Cell>
    /** True while the section menu's spin box and table exist; they are created by the section menu and deleted by any menu change. */
    var alive: bool
    /** `_cached_culvert_data` without its haunch and anti-float entries, which are the live records. */
    var cache: SectionData
    /** `section_data`. */
    var rows: seq<SectionRow>
    /** `self.table.rowCount()`: the rows of the shared menu table, which need not match `section_data`. */
    var tableRows: nat

    predicate Valid()
      reads this
    {
      haunch.leftWall.Some? && haunch.rightWall.Some? && 1 <= count <= 10
    }

    /**
     * `__init__`: 300 x 300 corners on both outer walls and no middle-wall
     * entry, the anti-float defaults, the default three-cell section as the
     * cache, an empty section list and an empty table; the section widgets
     * do not exist yet.
     */
    constructor()
      ensures Valid() && !alive
      ensures haunch == Haunch(Some(Wall300), Some(Wall300), [])
      ensures antiFloat == AntiFloat(false, 500.0, 500.0, 300.0)
      ensures count == 3 && cells == [] && rows == [] && tableRows == 0
      ensures cache == SectionFromTable(DefaultValues(3), 3, Haunch(Some(Wall300), Some(Wall300), []), AntiFloat(false, 500.0, 500.0, 300.0))
    {
      haunch := Haunch(Some(Wall300), Some(Wall300), []);
      antiFloat := AntiFloat(false, 500.0, 500.0, 300.0);
      count := 3;
      cells := [];
      alive := false;
      cache := SectionFromTable(DefaultValues(3), 3, Haunch(Some(Wall300), Some(Wall300), []), AntiFloat(false, 500.0, 500.0, 300.0));
      rows := [];
      tableRows := 0;
    }

    /**
     * `setup_section_properties`: a spin box at 3 (set before its handler is
     * connected), a fresh default table for three cells, and the middle-wall
     * haunches padded to two entries but never cut, so entries left from a
     * larger count survive.
     */
    method SetupSectionProperties()
      requires Valid()
      modifies this
      ensures Valid() && alive
      ensures count == 3 && cells == Layout(DefaultValues(3), 3)
      ensures haunch == old(haunch).(middleWalls := PadTo(old(haunch).middleWalls, 2, Wall300))
      ensures antiFloat == old(antiFloat) && cache == old(cache) && rows == old(rows) && tableRows == old(tableRows)
    {
      count := 3;
      cells := CreateSectionRow(3);
      CreateHaunchTab(3);
      alive := true;
    }

    /**
     * `update_content`: the section widgets are deleted, the shared table is
     * cleared, and the menu the title names is set up. The section menu
     * builds new section widgets; every other menu sizes the table and its
     * column-1 text items reach `on_item_changed`.
     */
    method UpdateContent(title: string)
      requires Valid()
      modifies this
      ensures Valid()
      ensures MenuOf(title) == SectionProperties ==>
                alive && count == 3 && cells == Layout(DefaultValues(3), 3)
                && haunch == old(haunch).(middleWalls := PadTo(old(haunch).middleWalls, 2, Wall300))
                && rows == old(rows) && tableRows == old(tableRows)
      ensures MenuOf(title) != SectionProperties ==>
                !alive && tableRows == MenuRowCount(MenuOf(title)) && rows == MenuRows(old(rows), title)
                && haunch == old(haunch) && count == old(count) && cells == old(cells)
      ensures antiFloat == old(antiFloat) && cache == old(cache)
    {
      alive := false;
      match MenuOf(title)
      case ProjectInfo =>
        tableRows := 4;
        ghost var start := rows;
        var row := 0;
        while row < 4
          invariant 0 <= row <= 4
          invariant rows == NameWrites(start, ProjectInfoTexts[..row])
          invariant Valid() && !alive && tableRows == 4
          invariant haunch == old(haunch) && count == old(count) && cells == old(cells)
          invariant antiFloat == old(antiFloat) && cache == old(cache)
        {
          assert ProjectInfoTexts[..row + 1][..row] == ProjectInfoTexts[..row];
          OnItemChanged(row, 1, ProjectInfoTexts[row]);
          row := row + 1;
        }
        assert ProjectInfoTexts[..4] == ProjectInfoTexts;
      case BasicEnvironment =>
        tableRows := 3;
        OnItemChanged(1, 1, "100년");
      case SectionProperties =>
        SetupSectionProperties();
      case Materials =>
        tableRows := 2;
      case GroundInfoMenu =>
        tableRows := 4;
      case OtherMenu =>
        tableRows := 1;
        OnItemChanged(0, 1, title);
    }

    /** `create_haunch_tab`: make sure there is a card entry for every middle wall; never truncates. */
    method CreateHaunchTab(n: int)
      requires Valid()
      modifies this
      ensures Valid()
      ensures haunch == old(haunch).(middleWalls := PadTo(old(haunch).middleWalls, n - 1, Wall300))
      ensures count == old(count) && cells == old(cells) && cache == old(cache) && rows == old(rows) && tableRows == old(tableRows)
      ensures antiFloat == old(antiFloat) && alive == old(alive)
    {
      var mw := haunch.middleWalls;
      ghost var start := mw;
      while |mw| < n - 1
        invariant |start| <= |mw| <= Max(|start|, n - 1)
        invariant mw[..|start|] == start
        invariant forall i :: |start| <= i < |mw| ==> mw[i] == Wall300
      {
        mw := mw + [Wall300];
      }
      assert mw == PadTo(start, n - 1, Wall300);
      haunch := haunch.(middleWalls := mw);
    }

    /**
     * `on_culvert_count_changed`: a fresh default section table for the new
     * count, and the middle-wall haunches padded with 300 x 300 corners and
     * cut to `value - 1` entries.
     */
    method OnCulvertCountChanged(value: int)
      requires Valid() && 1 <= value <= 10
      modifies this
      ensures Valid()
      ensures count == value
      ensures cells == Layout(DefaultValues(value), value)
      ensures haunch == old(haunch).(middleWalls := Resized(old(haunch).middleWalls, value - 1, Wall300))
      ensures |haunch.middleWalls| == value - 1
      ensures cache == old(cache) && rows == old(rows) && tableRows == old(tableRows)
      ensures antiFloat == old(antiFloat) && alive == old(alive)
    {
      count := value;
      cells := CreateSectionRow(value);
      CreateHaunchTab(value);
      var mw := Resize(haunch.middleWalls, value - 1, Wall300);
      ghost var padded := haunch.middleWalls;
      assert Resized(padded, value - 1, Wall300) == Resized(old(haunch).middleWalls, value - 1, Wall300);
      haunch := haunch.(middleWalls := mw);
    }

    /**
     * `_on_haunch_changed`: the value is written into the named leg in place,
     * a left-wall edit into the right wall too, and a left-wall edit rebuilds
     * the haunch cards for the current count.
     */
    method OnHaunchChanged(wall: WallRef, pos: Pos, dim: Dim, value: real)
      requires Valid() && HasWall(haunch, wall)
      modifies this
      ensures Valid()
      ensures var edited := EditHaunch(old(haunch), wall, pos, dim, value);
              haunch == if wall == LeftWallRef then edited.(middleWalls := PadTo(edited.middleWalls, count - 1, Wall300)) else edited
      ensures count == old(count) && cells == old(cells) && cache == old(cache) && rows == old(rows) && tableRows == old(tableRows)
      ensures antiFloat == old(antiFloat) && alive == old(alive)
    {
      haunch := EditHaunch(haunch, wall, pos, dim, value);
      if wall == LeftWallRef {
        CreateHaunchTab(count);
      }
    }

    /** The data-row read of `get_culvert_section_data`, field by field; `None` when a read raises. */
    static method ReadTable(cells: seq<Cell>, n: nat) returns (r: Option<TableValues>)
      ensures r == ReadRow(cells, n)
    {
      var h := CellNumber(CellAt(cells, 0));
      var h4 := CellNumber(CellAt(cells, 1));
      if h.None? || h4.None? {
        return None;
      }
      var b: seq<real> := [];
      var i := 0;
      while i < n
        invariant 0 <= i <= n
        invariant |b| == i
        invariant forall j :: 0 <= j < i ==> CellNumber(CellAt(cells, BColumn(j))) == Some(b[j])
      {
        var x := CellNumber(CellAt(cells, BColumn(i)));
        if x.None? {
          return None;
        }
        b := b + [x.value];
        i := i + 1;
      }
      var ut := CellNumber(CellAt(cells, UTColumn(n)));
      var lt := CellNumber(CellAt(cells, LTColumn(n)));
      var wl := CellNumber(CellAt(cells, WLColumn(n)));
      if ut.None? || lt.None? || wl.None? {
        return None;
      }
      var walls: seq<MiddleWall> := [];
      var m := Max(0, n - 1);
      i := 0;
      while i < m
        invariant 0 <= i <= m
        invariant |walls| == i
        invariant forall j :: 0 <= j < i ==> CellNumber(CellAt(cells, WallThicknessColumn(n, j))) == Some(walls[j].thickness)
                                               && walls[j].kind == CellKind(CellAt(cells, WallTypeColumn(n, j)))
      {
        var t := CellNumber(CellAt(cells, WallThicknessColumn(n, i)));
        if t.None? {
          return None;
        }
        walls := walls + [MiddleWall(CellKind(CellAt(cells, WallTypeColumn(n, i))), t.value)];
        i := i + 1;
      }
      var wr := CellNumber(CellAt(cells, WRColumn(n)));
      if wr.None? {
        return None;
      }
      assert Readable(cells, n);
      assert ReadRow(cells, n).value.B == b;
      assert ReadRow(cells, n).value.walls == walls;
      r := Some(TableValues(h.value, h4.value, b, ut.value, lt.value, wl.value, walls, wr.value));
    }

    /**
     * `get_culvert_section_data`: with the widgets alive and every cell
     * readable, the table's section, which also replaces the cache;
     * otherwise the cached section with the current haunch and anti-float records.
     */
    method GetCulvertSectionData() returns (d: SectionData)
      requires Valid()
      modifies this
      ensures Valid()
      ensures var read := ReadRow(old(cells), old(count));
              if old(alive) && read.Some? then d == SectionFromTable(read.value, old(count), haunch, antiFloat) && cache == d
              else d == old(cache).(haunch := haunch, antiFloat := Some(antiFloat)) && cache == d
      ensures haunch == old(haunch) && antiFloat == old(antiFloat) && count == old(count) && cells == old(cells)
      ensures rows == old(rows) && tableRows == old(tableRows) && alive == old(alive)
    {
      if !alive {
        cache := cache.(haunch := haunch, antiFloat := Some(antiFloat));
        return cache;
      }
      var read := ReadTable(cells, count);
      if read.None? {
        cache := cache.(haunch := haunch, antiFloat := Some(antiFloat));
        return cache;
      }
      d := SectionFromTable(read.value, count, haunch, antiFloat);
      cache := d;
    }

    /**
     * `add_section_row`: a new table row after the last one; its item writes
     * pad the list up to that row (through `on_item_changed`), and the entry
     * at that row becomes the given section, or `단면{row+1}` with empty
     * height and width.
     */
    method AddSectionRow(section: Option<SectionRow>)
      modifies this
      ensures tableRows == old(tableRows) + 1
      ensures rows == Added(old(rows), old(tableRows), if section.Some? then section.value else SectionRow(Numbered(old(tableRows) + 1), "", ""))
      ensures haunch == old(haunch) && antiFloat == old(antiFloat) && count == old(count) && cells == old(cells)
      ensures cache == old(cache) && alive == old(alive)
    {
      var row := tableRows;
      tableRows := tableRows + 1;
      var s := if section.Some? then section.value else SectionRow(Numbered(row + 1), "", "");
      // the writes of columns 1 to 3 each pad the list up to `row`; what they write is replaced below
      rows := PadRows(rows, row);
      rows := rows[row := s];
    }

    /**
     * `delete_selected_rows`: the ticked table rows are removed from the last
     * to the first, with the list entry at each of them when the list has
     * one; the remaining table rows are renumbered `단면1 ..` (each `setText`
     * padding the list through `on_item_changed`); an empty table gets one new row.
     */
    method DeleteSelectedRows(checked: set<nat>)
      modifies this
      ensures (rows, tableRows) == DeleteIn(old(rows), old(tableRows), checked)
      ensures haunch == old(haunch) && antiFloat == old(antiFloat) && count == old(count) && cells == old(cells)
      ensures cache == old(cache) && alive == old(alive)
    {
      var live := set r | r in checked && r < tableRows;
      var kept := DeleteChecked(rows, live);
      var left := tableRows - CheckedBelow(tableRows, checked);
      var renumbered := RenumberTable(kept, left);
      rows := renumbered;
      tableRows := left;
      if left == 0 {
        AddSectionRow(None);
      }
    }

    /** `on_item_changed`: columns 1 to 3 write the label, height or width of the row, padding the list up to it. */
    method OnItemChanged(row: nat, col: int, text: string)
      modifies this
      ensures rows == ItemWrite(old(rows), row, col, text)
      ensures 1 <= col <= 3 ==> |rows| == Max(|old(rows)|, row + 1)
      ensures 1 <= col <= 3 ==> forall i :: 0 <= i < |rows| && i != row ==> rows[i] == if i < |old(rows)| then old(rows)[i] else EmptyRow
      ensures col == 1 ==> rows[row] == (if row < |old(rows)| then old(rows)[row] else EmptyRow).(name := Typed(text))
      ensures col == 2 ==> rows[row] == (if row < |old(rows)| then old(rows)[row] else EmptyRow).(height := text)
      ensures col == 3 ==> rows[row] == (if row < |old(rows)| then old(rows)[row] else EmptyRow).(width := text)
      ensures !(1 <= col <= 3) ==> rows == old(rows)
      ensures haunch == old(haunch) && antiFloat == old(antiFloat) && count == old(count) && cells == old(cells)
      ensures cache == old(cache) && alive == old(alive) && tableRows == old(tableRows)
    {
      if 1 <= col <= 3 {
        rows := PadRows(rows, row);
        var r := rows[row];
        rows := rows[row := if col == 1 then r.(name := Typed(text)) else if col == 2 then r.(height := text) else r.(width := text)];
      }
    }
  }

  /** The `del section_data[row]` loop over the checked rows, from the last to the first. */
  method DeleteChecked(start: seq<SectionRow>, checked: set<nat>) returns (rows: seq<SectionRow>)
    ensures rows == Kept(start, checked)
  {
    rows := start;
    var r := |rows|;
    assert start[..r] == start;
    while r > 0
      invariant 0 <= r <= |start|
      invariant |Kept(start[..r], checked)| <= |Kept(start, checked)|
      invariant rows == start[..r] + Kept(start, checked)[|Kept(start[..r], checked)|..]
      decreases r
    {
      DeleteStep(start, checked, r);
      KeptPrefix(start, checked, r);
      KeptPrefix(start, checked, r - 1);
      r := r - 1;
      if r in checked {
        rows := rows[..r] + rows[r + 1..];
      }
    }
    assert start[..0] == [];
  }

  /** The renumbering loop over the first `n` table rows. */
  method RenumberTable(kept: seq<SectionRow>, n: nat) returns (rows: seq<SectionRow>)
    ensures rows == RenumberFirst(kept, n)
  {
    rows := kept;
    var row := 0;
    while row < n
      invariant 0 <= row <= n
      invariant rows == RenumberFirst(kept, row)
    {
      // `setText` reaches `on_item_changed`, which pads the list up to the row
      rows := PadRows(rows, row);
      rows := rows[row := rows[row].(name := Numbered(row + 1))];
      row := row + 1;
    }
  }

  /** `while row >= len(section_data): append an empty row`. */
  method PadRows(rows: seq<SectionRow>, row: nat) returns (r: seq<SectionRow>)
    ensures r == PadTo(rows, row + 1, EmptyRow)
  {
    r := rows;
    while row >= |r|
      invariant |rows| <= |r| <= Max(|rows|, row + 1)
      invariant r[..|rows|] == rows
      invariant forall i :: |rows| <= i < |r| ==> r[i] == EmptyRow
      decreases row + 1 - |r|
    {
      r := r + [EmptyRow];
    }
  }

  /** The unchecked rows of a prefix are a prefix of the unchecked rows of the whole list. */
  lemma {:induction false} KeptPrefix(s: seq<SectionRow>, checked: set<nat>, r: nat)
    requires r <= |s|
    ensures |Kept(s[..r], checked)| <= |Kept(s, checked)|
    ensures Kept(s, checked)[..|Kept(s[..r], checked)|] == Kept(s[..r], checked)
    decreases |s| - r
  {
    if r == |s| {
      assert s[..r] == s;
    } else {
      KeptPrefix(s, checked, r + 1);
      DeleteStep(s, checked, r + 1);
    }
  }

  /** One step of the reverse deletion loop: handling row `r - 1` extends the processed suffix by that row. */
  lemma DeleteStep(start: seq<SectionRow>, checked: set<nat>, r: nat)
    requires 0 < r <= |start|
    ensures Kept(start[..r], checked) == Kept(start[..r - 1], checked) + (if r - 1 in checked then [] else [start[r - 1]])
  {
    assert start[..r][..r - 1] == start[..r - 1];
  }

  /**
   * The Qt cards keep a zero leg: after setting a leg to zero, an edit of a
   * different leg leaves it at zero (the bundled web form turns it into 150).
   */
  lemma PythonZeroLegSurvives(h: Haunch, pos: Pos, dim: Dim, wall2: WallRef, pos2: Pos, dim2: Dim, x: real)
    requires HasWall(h, LeftWallRef) && HasWall(h, wall2) && (pos2, dim2) != (pos, dim)
    ensures var h1 := EditHaunch(h, LeftWallRef, pos, dim, 0.0);
            Leg(EditHaunch(h1, wall2, pos2, dim2, x).leftWall.value, pos, dim) == 0.0
  {
    var h1 := EditHaunch(h, LeftWallRef, pos, dim, 0.0);
    HaunchEditSpec(h, LeftWallRef, pos, dim, 0.0);
    HaunchEditSpec(h1, wall2, pos2, dim2, x);
  }

  /** A section read back right after a count change is the default section of that count, shaped for the renderers. */
  lemma ReadAfterCountChange(n: int, h: Haunch, af: AntiFloat)
    requires 1 <= n <= 10 && |h.middleWalls| == n - 1
    ensures ReadRow(Layout(DefaultValues(n), n), n) == Some(DefaultValues(n))
    ensures Shaped(SectionFromTable(DefaultValues(n), n, h, af))
  {
    ReadLayoutRoundTrip(DefaultValues(n), n);
  }
}

/**
 * The web input forms that edit the section through the state store: the
 * cell-count box, the one-row section table and the haunch cards.
 */
module SectionForm {
  import opened Section
  import opened Geometry
  import opened Store
  import opened SectionTable

  /** `Math.max(1, Math.min(10, parseInt(value) || 1))`: `None` is a value that does not parse. */
  function CountFromInput(parsed: Option<int>): (c: int)
    ensures 1 <= c <= 10
    ensures parsed.None? || parsed == Some(0) ==> c == 1
    ensures parsed.Some? && 1 <= parsed.value <= 10 ==> c == parsed.value
    ensures parsed.Some? && parsed.value > 10 ==> c == 10
    ensures parsed.Some? && parsed.value < 0 ==> c == 1
  {
    Clamp(OrInt(if parsed.Some? then parsed.value else 0, 1))
  }

  /** `parseFloat(value) || 0`: a value that does not parse reads as zero. */
  function InputNumber(parsed: Option<real>): (r: real)
    ensures parsed.None? ==> r == 0.0
    ensures parsed.Some? ==> r == parsed.value
  {
    if parsed.Some? then parsed.value else 0.0
  }

  /** One change event of the section table, with the raw parse of a number input. */
  datatype Edit =
    | EditH(input: Option<real>)
    | EditH4(input: Option<real>)
    | EditB(index: nat, input: Option<real>)
    | EditUT(input: Option<real>)
    | EditLT(input: Option<real>)
    | EditWL(input: Option<real>)
    | EditWR(input: Option<real>)
    | EditWallType(index: nat, kind: WallKind)
    | EditWallThickness(index: nat, input: Option<real>)

  /** A width edit writes into a copy of the stored widths; an index past them is not modelled. */
  predicate EditInRange(d: SectionData, e: Edit)
  {
    e.EditB? ==> e.index < |d.B|
  }

  /**
   * The `updateSectionData` call `handleInputChange` makes, if any: a wall
   * edit whose wall does not exist makes none.
   */
  function EditCall(d: SectionData, e: Edit): Option<(SectionKey, FieldValue)>
    requires EditInRange(d, e)
  {
    match e
    case EditH(p) => Some((HKey, Number(InputNumber(p))))
    case EditH4(p) => Some((H4Key, Number(InputNumber(p))))
    case EditB(i, p) => Some((BKey, Widths(d.B[i := InputNumber(p)])))
    case EditUT(p) => Some((UTKey, Number(InputNumber(p))))
    case EditLT(p) => Some((LTKey, Number(InputNumber(p))))
    case EditWL(p) => Some((WLKey, Number(InputNumber(p))))
    case EditWR(p) => Some((WRKey, Number(InputNumber(p))))
    case EditWallType(i, k) =>
      if i < |d.middleWalls| then Some((MiddleWallsKey, Walls(d.middleWalls[i := d.middleWalls[i].(kind := k)]))) else None
    case EditWallThickness(i, p) =>
      if i < |d.middleWalls| then Some((MiddleWallsKey, Walls(d.middleWalls[i := d.middleWalls[i].(thickness := InputNumber(p))]))) else None
  }

  /** The section after the edit. */
  function Edited(d: SectionData, e: Edit): SectionData
    requires EditInRange(d, e)
  {
    var call := EditCall(d, e);
    if call.Some? && Fits(call.value.0, call.value.1) then Assign(d, call.value.0, call.value.1) else d
  }

  /**
   * A width edit changes exactly that width; a wall edit changes only the
   * named field of the named wall, and nothing when the wall does not exist;
   * no edit changes the cell count or the lengths of the arrays.
   */
  lemma EditTouchesOnlyItsEntry(d: SectionData, e: Edit)
    requires EditInRange(d, e)
    ensures var r := Edited(d, e);
      && r.culvertCount == d.culvertCount && |r.B| == |d.B| && |r.middleWalls| == |d.middleWalls|
      && r.haunch == d.haunch && r.antiFloat == d.antiFloat && r.columnGirder == d.columnGirder
      && (e.EditB? ==> r.B[e.index] == InputNumber(e.input) && forall j :: 0 <= j < |d.B| && j != e.index ==> r.B[j] == d.B[j])
      && (e.EditWallType? || e.EditWallThickness? ==>
            (forall j :: 0 <= j < |d.middleWalls| && j != e.index ==> r.middleWalls[j] == d.middleWalls[j])
            && (e.index >= |d.middleWalls| ==> r == d))
      && (e.EditWallType? && e.index < |d.middleWalls| ==>
            r.middleWalls[e.index] == MiddleWall(e.kind, d.middleWalls[e.index].thickness))
      && (e.EditWallThickness? && e.index < |d.middleWalls| ==>
            r.middleWalls[e.index] == MiddleWall(d.middleWalls[e.index].kind, InputNumber(e.input)))
  {
  }

  /** `handleInputChange`: copy, write one entry, hand the result to the store. */
  method HandleInputChange(s: StateStore, e: Edit)
    requires s.Valid() && EditInRange(s.state.sectionData, e)
    modifies s
    ensures s.Valid()
    ensures s.state == old(s.state).(sectionData := Edited(old(s.state).sectionData, e))
    ensures s.listeners == old(s.listeners)
  {
    var call := EditCall(s.state.sectionData, e);
    if call.Some? {
      s.UpdateSectionData(call.value.0, call.value.1);
    }
  }

  /** The count box: parse, clamp, then `setCulvertCount`. */
  method HandleCountChange(s: StateStore, parsed: Option<int>)
    requires s.Valid()
    modifies s
    ensures s.Valid()
    ensures s.state == old(s.state).(sectionData := WithCulvertCount(old(s.state).sectionData, CountFromInput(parsed)))
    ensures Shaped(s.state.sectionData) && s.state.sectionData.culvertCount == CountFromInput(parsed)
  {
    s.SetCulvertCount(CountFromInput(parsed));
  }

  // ----- what the section table shows -----

  /** `createSectionTable`: a missing width shows as 4000, a missing wall as a 600 continuous wall. */
  function ShownValues(d: SectionData): (v: TableValues)
    requires d.culvertCount >= 1
    ensures FitsCount(v, d.culvertCount)
  {
    var n := d.culvertCount;
    TableValues(d.H, d.H4, Resized(d.B, n, 4000.0), d.UT, d.LT, d.WL, Resized(d.middleWalls, n - 1, DefaultWall), d.WR)
  }

  function ValuesOf(d: SectionData): TableValues
  {
    TableValues(d.H, d.H4, d.B, d.UT, d.LT, d.WL, d.middleWalls, d.WR)
  }

  /**
   * The table shows exactly the values `setCulvertCount` would store for the
   * current count, and for a section that already has that shape, its own values.
   */
  lemma ShownTableIsResizedSection(d: SectionData)
    requires 1 <= d.culvertCount <= 10
    ensures ShownValues(d) == ValuesOf(WithCulvertCount(d, d.culvertCount))
    ensures Shaped(d) ==> ShownValues(d) == ValuesOf(d)
  {
    if Shaped(d) {
      CulvertCountSpec(d, d.culvertCount);
      ResizedSpec(d.B, d.culvertCount, 4000.0);
      ResizedSpec(d.middleWalls, d.culvertCount - 1, DefaultWall);
    }
  }

  // ----- the haunch cards -----

  datatype WallRef = LeftWallRef | RightWallRef | MiddleWallRef(index: nat)

  datatype Pos = Upper | Lower

  datatype Dim = Width | Height

  function SetLeg(c: Corner, dim: Dim, v: real): Corner
  {
    if dim == Width then c.(width := v) else c.(height := v)
  }

  function SetWallLeg(w: WallHaunch, pos: Pos, dim: Dim, v: real): WallHaunch
  {
    if pos == Upper then w.(upper := SetLeg(w.upper, dim, v)) else w.(lower := SetLeg(w.lower, dim, v))
  }

  function Leg(w: WallHaunch, pos: Pos, dim: Dim): real
  {
    var c := if pos == Upper then w.upper else w.lower;
    if dim == Width then c.width else c.height
  }

  /** The haunch record has an entry for the wall the edit names. */
  predicate HasWall(h: Haunch, wall: WallRef)
  {
    h.leftWall.Some? && h.rightWall.Some? && (wall.MiddleWallRef? ==> wall.index < |h.middleWalls|)
  }

  /** Write one leg of one wall; a left-wall edit is written into the right wall as well. */
  function EditHaunch(h: Haunch, wall: WallRef, pos: Pos, dim: Dim, v: real): (r: Haunch)
    requires HasWall(h, wall)
    ensures HasWall(r, wall) && |r.middleWalls| == |h.middleWalls|
  {
    match wall
    case LeftWallRef =>
      h.(leftWall := Some(SetWallLeg(h.leftWall.value, pos, dim, v)), rightWall := Some(SetWallLeg(h.rightWall.value, pos, dim, v)))
    case RightWallRef => h.(rightWall := Some(SetWallLeg(h.rightWall.value, pos, dim, v)))
    case MiddleWallRef(i) => h.(middleWalls := h.middleWalls[i := SetWallLeg(h.middleWalls[i], pos, dim, v)])
  }

  /**
   * The left-to-right mirroring is one way: a left-wall edit sets the same
   * leg of both outer walls; a right-wall or middle-wall edit leaves the left
   * wall as it was; every other leg and every other wall is unchanged.
   */
  lemma HaunchEditSpec(h: Haunch, wall: WallRef, pos: Pos, dim: Dim, v: real)
    requires HasWall(h, wall)
    ensures var r := EditHaunch(h, wall, pos, dim, v);
      && (wall == LeftWallRef ==> Leg(r.leftWall.value, pos, dim) == v && Leg(r.rightWall.value, pos, dim) == v)
      && (wall != LeftWallRef ==> r.leftWall == h.leftWall)
      && (wall.MiddleWallRef? ==> r.rightWall == h.rightWall && Leg(r.middleWalls[wall.index], pos, dim) == v)
      && (wall == RightWallRef ==> Leg(r.rightWall.value, pos, dim) == v && r.middleWalls == h.middleWalls)
      && (forall k :: 0 <= k < |h.middleWalls| && wall != MiddleWallRef(k) ==> r.middleWalls[k] == h.middleWalls[k])
      && (forall p: Pos, q: Dim :: (p, q) != (pos, dim) ==>
            Leg(r.leftWall.value, p, q) == Leg(h.leftWall.value, p, q) && Leg(r.rightWall.value, p, q) == Leg(h.rightWall.value, p, q)
            && (wall.MiddleWallRef? ==> Leg(r.middleWalls[wall.index], p, q) == Leg(h.middleWalls[wall.index], p, q)))
  {
  }

  /** `registerHaunchEvents`: the edit is applied to the normalised haunch data of the current section. */
  function BundleHaunchEdit(d: SectionData, wall: WallRef, pos: Pos, dim: Dim, parsed: Option<real>): Haunch
    requires wall.MiddleWallRef? ==> wall.index < HaunchWallCount(d)
  {
    EditHaunch(HaunchData(d), wall, pos, dim, InputNumber(parsed))
  }

  /** The haunch change handler: compute the edited record and store it with `updateSectionData`. */
  method HandleHaunchEdit(s: StateStore, wall: WallRef, pos: Pos, dim: Dim, parsed: Option<real>)
    requires s.Valid()
    requires wall.MiddleWallRef? ==> wall.index < HaunchWallCount(s.state.sectionData)
    modifies s
    ensures s.Valid()
    ensures s.state == old(s.state).(sectionData := old(s.state).sectionData.(haunch := BundleHaunchEdit(old(s.state).sectionData, wall, pos, dim, parsed)))
  {
    var h := BundleHaunchEdit(s.state.sectionData, wall, pos, dim, parsed);
    s.UpdateSectionData(HaunchKey, Haunches(h));
  }

  /**
   * Because every edit starts from `getHaunchData`, a leg set to zero is
   * stored as zero but turns into 150 at the next haunch edit, on any wall.
   */
  lemma ZeroLegUndoneByNextEdit(d: SectionData, pos: Pos, dim: Dim, wall2: WallRef, pos2: Pos, dim2: Dim, x: real)
    requires wall2.MiddleWallRef? ==> wall2.index < HaunchWallCount(d)
    requires (pos2, dim2) != (pos, dim) && wall2 != LeftWallRef
    ensures var d1 := d.(haunch := BundleHaunchEdit(d, LeftWallRef, pos, dim, Some(0.0)));
            && Leg(d1.haunch.leftWall.value, pos, dim) == 0.0
            && Leg(BundleHaunchEdit(d1, wall2, pos2, dim2, Some(x)).leftWall.value, pos, dim) == 150.0
  {
  }
}

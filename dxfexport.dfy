/**
 * The bundled app's `exportDXF`: the same section drawn through a
 * `DxfWriter` on five layers (outline, inner edges, dimensions, ground,
 * groundwater) and serialised as an R12 file. The inner geometry and the
 * dimension plan are the view's; the CAD copy has no girders, draws the
 * groundwater only under a positive earth cover, and nests the anti-float
 * thickness dimension inside the extension test.
 */
module DxfExport {
  import opened Section
  import opened Geometry
  import opened Layout
  import opened Dxf
  import SvgView

  const OUTER := "OUTER"
  const INNER := "INNER"
  const DIMENSION := "DIMENSION"
  const GROUND := "GROUND"
  const WATER := "WATER"

  /** The layers added before drawing, with their AutoCAD colour numbers. */
  const ExportLayers: seq<LayerDef> :=
    [LayerDef(OUTER, 7), LayerDef(INNER, 3), LayerDef(DIMENSION, 1), LayerDef(GROUND, 3), LayerDef(WATER, 4)]

  function SegLine(layer: string, s: Seg): Entity
  {
    LineEntity(layer, s.a.x, s.a.y, s.b.x, s.b.y)
  }

  /** The segments as lines on one layer, in order. */
  function SegLines(layer: string, ss: seq<Seg>): (r: seq<Entity>)
    ensures |r| == |ss|
  {
    seq(|ss|, k requires 0 <= k < |ss| => SegLine(layer, ss[k]))
  }

  lemma SegLinesAppend(layer: string, a: seq<Seg>, b: seq<Seg>)
    ensures SegLines(layer, a + b) == SegLines(layer, a) + SegLines(layer, b)
  {
  }

  /** Four pieces appended one after another form their concatenation. */
  lemma SegLinesAppend4(layer: string, e0: seq<Entity>, a: seq<Seg>, b: seq<Seg>, c: seq<Seg>, d: seq<Seg>, es: seq<Entity>)
    requires es == e0 + SegLines(layer, a) + SegLines(layer, b) + SegLines(layer, c) + SegLines(layer, d)
    ensures es == e0 + SegLines(layer, a + b + c + d)
  {
    SegLinesAppend(layer, a, b);
    SegLinesAppend(layer, a + b, c);
    SegLinesAppend(layer, a + b + c, d);
  }

  // ----- the drawing, as the entities it appends -----

  /** Outline: walls stopping at a positive slab thickness plus a separate bottom line, else one closed rectangle. */
  function OutlineEntities(d: SectionData, dims: Dims): seq<Entity>
  {
    var t := if AntiFloatOn(d) then d.antiFloat.value.thickness else 0.0;
    var w := dims.totalWidth;
    var h := dims.totalHeight;
    if AntiFloatOn(d) && t > 0.0 then
      [ PolylineEntity(OUTER, [Pt(0.0, t), Pt(0.0, h), Pt(w, h), Pt(w, t)], false),
        LineEntity(OUTER, 0.0, 0.0, w, 0.0) ]
    else
      [ PolylineEntity(OUTER, [Pt(0.0, 0.0), Pt(w, 0.0), Pt(w, h), Pt(0.0, h), Pt(0.0, 0.0)], true) ]
  }

  /** One open outline per positive slab extension (no separate all-zero test). */
  function SlabEntities(d: SectionData, dims: Dims): seq<Entity>
  {
    if !AntiFloatOn(d) then []
    else
      var af := d.antiFloat.value;
      var l := af.leftExtension;
      var r := af.rightExtension;
      var t := af.thickness;
      var w := dims.totalWidth;
      (if l > 0.0 then [PolylineEntity(OUTER, [Pt(0.0, t), Pt(-l, t), Pt(-l, 0.0), Pt(0.0, 0.0)], false)] else [])
      + (if r > 0.0 then [PolylineEntity(OUTER, [Pt(w, t), Pt(w + r, t), Pt(w + r, 0.0), Pt(w, 0.0)], false)] else [])
  }

  /** Ground line and hatch, on the GROUND layer, only for a positive earth cover. */
  function GroundEntities(d: SectionData, dims: Dims, g: GroundInfo): seq<Entity>
  {
    var ec := g.earthCoverDepth;
    if ec <= 0.0 then []
    else
      var groundY := dims.totalHeight + ec;
      var (lineLeft, lineRight) := GroundExtent(d, dims);
      [LineEntity(GROUND, lineLeft, groundY, lineRight, groundY)] + SegLines(GROUND, Hatch(lineLeft, lineRight, groundY))
  }

  /** Water symbol of the CAD copy: a line 800 long and a triangle of base 400 and height 350, drawn as four lines. */
  function WaterMark(x0: real, dir: real, waterY: real): seq<Entity>
  {
    var cx := x0 + dir * 400.0;
    [ LineEntity(WATER, x0, waterY, x0 + dir * 800.0, waterY),
      LineEntity(WATER, cx - 200.0, waterY + 350.0, cx + 200.0, waterY + 350.0),
      LineEntity(WATER, cx - 200.0, waterY + 350.0, cx, waterY),
      LineEntity(WATER, cx + 200.0, waterY + 350.0, cx, waterY) ]
  }

  /** Groundwater symbols right and left of the structure, only when both the level and the earth cover are positive. */
  function WaterEntities(d: SectionData, dims: Dims, g: GroundInfo): seq<Entity>
  {
    var ec := g.earthCoverDepth;
    var wl := g.groundwaterLevel;
    if wl > 0.0 && ec > 0.0 then
      var waterY := dims.totalHeight + ec - wl;
      WaterMark(dims.totalWidth, 1.0, waterY) + WaterMark(0.0, -1.0, waterY)
    else []
  }

  /** `drawDimH`: two extension lines, the dimension line and the unrotated label `0.6 * textHeight` beyond it. */
  function DimHEntities(layer: string, x1: real, x2: real, y: real, offset: real, value: real, textHeight: real, extGap: real): seq<Entity>
  {
    var dimY := y + offset;
    var sign := SvgView.Sign(offset);
    var extStart := y + sign * Or(extGap, 500.0);
    [ LineEntity(layer, x1, extStart, x1, dimY),
      LineEntity(layer, x2, extStart, x2, dimY),
      LineEntity(layer, x1, dimY, x2, dimY),
      TextEntity(layer, (x1 + x2) / 2.0, dimY + sign * textHeight * 0.6, textHeight, 0.0, value) ]
  }

  /** `drawDimV`: the same turned upright; the label is rotated by 90 degrees. */
  function DimVEntities(layer: string, x: real, y1: real, y2: real, offset: real, value: real, textHeight: real, extGap: real): seq<Entity>
  {
    var dimX := x + offset;
    var sign := SvgView.Sign(offset);
    var extStart := x + sign * Or(extGap, 500.0);
    [ LineEntity(layer, extStart, y1, dimX, y1),
      LineEntity(layer, extStart, y2, dimX, y2),
      LineEntity(layer, dimX, y1, dimX, y2),
      TextEntity(layer, dimX + sign * textHeight * 0.6, (y1 + y2) / 2.0, textHeight, 90.0, value) ]
  }

  /** One call of the plan with text height 250 and extension gap 500, or 1000 on the outer tier. */
  function DimCallEntities(layer: string, c: DimCall): seq<Entity>
  {
    match c
    case HDim(x1, x2, y, offset, value) => DimHEntities(layer, x1, x2, y, offset, value, 250.0, 500.0)
    case VDim(x, y1, y2, offset, value, far) => DimVEntities(layer, x, y1, y2, offset, value, 250.0, if far then 1000.0 else 500.0)
  }

  function PlanEntities(layer: string, cs: seq<DimCall>): seq<Entity>
  {
    Flatten(seq(|cs|, k requires 0 <= k < |cs| => DimCallEntities(layer, cs[k])))
  }

  lemma PlanEntitiesAppend(layer: string, a: seq<DimCall>, b: seq<DimCall>)
    ensures PlanEntities(layer, a + b) == PlanEntities(layer, a) + PlanEntities(layer, b)
  {
    var pa := seq(|a|, k requires 0 <= k < |a| => DimCallEntities(layer, a[k]));
    var pb := seq(|b|, k requires 0 <= k < |b| => DimCallEntities(layer, b[k]));
    assert seq(|a + b|, k requires 0 <= k < |a + b| => DimCallEntities(layer, (a + b)[k])) == pa + pb;
    FlattenAppend(pa, pb);
  }

  lemma PlanEntitiesSingle(layer: string, c: DimCall)
    ensures PlanEntities(layer, [c]) == DimCallEntities(layer, c)
  {
    var cs := [c];
    var p := seq(|cs|, k requires 0 <= k < |cs| => DimCallEntities(layer, cs[k]));
    assert p[..0] == [];
    assert Flatten(p) == Flatten(p[..0]) + p[0];
  }

  /** Everything `exportDXF` draws, in drawing order. */
  function ExportEntities(d: SectionData, g: GroundInfo): seq<Entity>
    requires Drawable(d)
  {
    var dims := CalculateDimensions(d);
    OutlineEntities(d, dims)
    + SegLines(INNER, InnerEdges(d, BundleCorners, CellCount(d)))
    + SegLines(INNER, Diagonals(d, BundleCorners, CellCount(d)))
    + SlabEntities(d, dims)
    + GroundEntities(d, dims, g)
    + WaterEntities(d, dims, g)
    + PlanEntities(DIMENSION, DimensionPlan(d, g, NestedInWidth))
  }

  // ----- the export, through the writer -----

  /** The outline pass, on the current layer. */
  method DrawOutline(w: DxfWriter, d: SectionData, dims: Dims)
    requires w.currentLayer == OUTER
    modifies w
    ensures w.entities == old(w.entities) + OutlineEntities(d, dims)
    ensures w.layers == old(w.layers) && w.currentLayer == old(w.currentLayer)
  {
    var afOn := AntiFloatOn(d);
    var afT := if afOn then Or(d.antiFloat.value.thickness, 0.0) else 0.0;
    var tw, th := dims.totalWidth, dims.totalHeight;
    if afOn && afT > 0.0 {
      w.DrawPolyline([Pt(0.0, afT), Pt(0.0, th), Pt(tw, th), Pt(tw, afT)], false);
      w.DrawLine(0.0, 0.0, tw, 0.0);
    } else {
      w.DrawPolyline([Pt(0.0, 0.0), Pt(tw, 0.0), Pt(tw, th), Pt(0.0, th), Pt(0.0, 0.0)], true);
    }
  }

  /** The anti-float slab pass: an outline for each positive extension. */
  method DrawSlab(w: DxfWriter, d: SectionData, dims: Dims)
    requires w.currentLayer == OUTER
    modifies w
    ensures w.entities == old(w.entities) + SlabEntities(d, dims)
    ensures w.layers == old(w.layers) && w.currentLayer == old(w.currentLayer)
  {
    if AntiFloatOn(d) {
      var afT := Or(d.antiFloat.value.thickness, 0.0);
      var afLeftExt := Or(d.antiFloat.value.leftExtension, 0.0);
      var afRightExt := Or(d.antiFloat.value.rightExtension, 0.0);
      var tw := dims.totalWidth;
      ghost var e0 := w.entities;
      ghost var left: seq<Entity> := [];
      if afLeftExt > 0.0 {
        w.DrawPolyline([Pt(0.0, afT), Pt(-afLeftExt, afT), Pt(-afLeftExt, 0.0), Pt(0.0, 0.0)], false);
        left := [PolylineEntity(OUTER, [Pt(0.0, afT), Pt(-afLeftExt, afT), Pt(-afLeftExt, 0.0), Pt(0.0, 0.0)], false)];
      }
      assert w.entities == e0 + left;
      if afRightExt > 0.0 {
        w.DrawPolyline([Pt(tw, afT), Pt(tw + afRightExt, afT), Pt(tw + afRightExt, 0.0), Pt(tw, 0.0)], false);
      }
    }
  }

  /** The four inner edges of one cell. */
  method DrawCellEdges(w: DxfWriter, d: SectionData, c: Corners, left: real, right: real)
    modifies w
    ensures w.entities == old(w.entities) + SegLines(w.currentLayer, CellEdges(d, c, left, right))
    ensures w.layers == old(w.layers) && w.currentLayer == old(w.currentLayer)
  {
    var bottom, top := d.LT, d.LT + d.H;
    w.DrawLine(left + c.ll.width, bottom, right - c.lr.width, bottom);
    w.DrawLine(right, bottom + c.lr.height, right, top - c.ur.height);
    w.DrawLine(right - c.ur.width, top, left + c.ul.width, top);
    w.DrawLine(left, top - c.ul.height, left, bottom + c.ll.height);
  }

  /** One more cell's edges, appended after the edges of the cells before it. */
  lemma EdgesStep(layer: string, d: SectionData, i: nat, start: seq<Entity>, es: seq<Entity>, left: real)
    requires i < |d.B| && left == CellLeft(d, i)
    requires es == start + SegLines(layer, InnerEdges(d, BundleCorners, i))
                   + SegLines(layer, CellEdges(d, BundleCompartmentHaunches(d, i), left, left + d.B[i]))
    ensures es == start + SegLines(layer, InnerEdges(d, BundleCorners, i + 1))
  {
    SegLinesAppend(layer, InnerEdges(d, BundleCorners, i), CellEdgesAt(d, BundleCorners, i));
  }

  /** The first cell loop: inner edges with the bundle's normalised haunch corners. */
  method DrawCompartments(w: DxfWriter, d: SectionData)
    requires Drawable(d)
    modifies w
    ensures w.entities == old(w.entities) + SegLines(w.currentLayer, InnerEdges(d, BundleCorners, CellCount(d)))
    ensures w.layers == old(w.layers) && w.currentLayer == old(w.currentLayer)
  {
    ghost var start, layer := w.entities, w.currentLayer;
    var xOffset := d.WL;
    var i := 0;
    while i < d.culvertCount
      invariant 0 <= i <= CellCount(d)
      invariant xOffset == CellLeft(d, i)
      invariant w.entities == start + SegLines(layer, InnerEdges(d, BundleCorners, i))
      invariant w.layers == old(w.layers) && w.currentLayer == layer
    {
      xOffset := DrawCellEdgesPass(w, d, i, xOffset, start);
      i := i + 1;
    }
  }

  /** One pass of the cell loop: the inner edges of cell `i`, then past it and its wall. */
  method DrawCellEdgesPass(w: DxfWriter, d: SectionData, i: nat, xOffset: real, ghost start: seq<Entity>)
    returns (xNext: real)
    requires i < |d.B| && xOffset == CellLeft(d, i)
    requires w.entities == start + SegLines(w.currentLayer, InnerEdges(d, BundleCorners, i))
    modifies w
    ensures xNext == CellLeft(d, i + 1)
    ensures w.entities == start + SegLines(w.currentLayer, InnerEdges(d, BundleCorners, i + 1))
    ensures w.layers == old(w.layers) && w.currentLayer == old(w.currentLayer)
  {
    var b := d.B[i];
    var c := BundleCompartmentHaunches(d, i);
    DrawCellEdges(w, d, c, xOffset, xOffset + b);
    EdgesStep(w.currentLayer, d, i, start, w.entities, xOffset);
    CellLeftStep(d, i);
    xNext := xOffset + b;
    if i < |d.middleWalls| {
      xNext := xNext + d.middleWalls[i].thickness;
    }
  }

  /** The diagonal of one haunch corner, drawn only when both of its legs are positive. */
  method DrawDiagonal(w: DxfWriter, corner: Corner, s: Seg)
    modifies w
    ensures w.entities == old(w.entities) + SegLines(w.currentLayer, if HasDiagonal(corner) then [s] else [])
    ensures w.layers == old(w.layers) && w.currentLayer == old(w.currentLayer)
  {
    if corner.width > 0.0 && corner.height > 0.0 {
      w.DrawLine(s.a.x, s.a.y, s.b.x, s.b.y);
      assert [s][..0] == [];
    }
  }

  /** The haunch diagonals of one cell: upper-left, upper-right, lower-left, lower-right. */
  method DrawCellDiagonals(w: DxfWriter, d: SectionData, c: Corners, left: real, right: real)
    modifies w
    ensures w.entities == old(w.entities) + SegLines(w.currentLayer, CellDiagonals(d, c, left, right))
    ensures w.layers == old(w.layers) && w.currentLayer == old(w.currentLayer)
  {
    ghost var layer := w.currentLayer;
    ghost var ul := if HasDiagonal(c.ul) then [UlDiagonal(d, c, left)] else [];
    ghost var ur := if HasDiagonal(c.ur) then [UrDiagonal(d, c, right)] else [];
    ghost var ll := if HasDiagonal(c.ll) then [LlDiagonal(d, c, left)] else [];
    ghost var lr := if HasDiagonal(c.lr) then [LrDiagonal(d, c, right)] else [];
    ghost var e0 := w.entities;
    DrawDiagonal(w, c.ul, UlDiagonal(d, c, left));
    DrawDiagonal(w, c.ur, UrDiagonal(d, c, right));
    DrawDiagonal(w, c.ll, LlDiagonal(d, c, left));
    DrawDiagonal(w, c.lr, LrDiagonal(d, c, right));
    SegLinesAppend4(layer, e0, ul, ur, ll, lr, w.entities);
  }

  /** One more cell's diagonals, appended after the diagonals of the cells before it. */
  lemma DiagonalsStep(layer: string, d: SectionData, i: nat, start: seq<Entity>, es: seq<Entity>, left: real)
    requires i < |d.B| && left == CellLeft(d, i)
    requires es == start + SegLines(layer, Diagonals(d, BundleCorners, i))
                   + SegLines(layer, CellDiagonals(d, BundleCompartmentHaunches(d, i), left, left + d.B[i]))
    ensures es == start + SegLines(layer, Diagonals(d, BundleCorners, i + 1))
  {
    SegLinesAppend(layer, Diagonals(d, BundleCorners, i), CellDiagonalsAt(d, BundleCorners, i));
  }

  /** The second cell loop: haunch diagonals. */
  method DrawCompartmentDiagonals(w: DxfWriter, d: SectionData)
    requires Drawable(d)
    modifies w
    ensures w.entities == old(w.entities) + SegLines(w.currentLayer, Diagonals(d, BundleCorners, CellCount(d)))
    ensures w.layers == old(w.layers) && w.currentLayer == old(w.currentLayer)
  {
    ghost var start, layer := w.entities, w.currentLayer;
    var xOffset := d.WL;
    var i := 0;
    while i < d.culvertCount
      invariant 0 <= i <= CellCount(d)
      invariant xOffset == CellLeft(d, i)
      invariant w.entities == start + SegLines(layer, Diagonals(d, BundleCorners, i))
      invariant w.layers == old(w.layers) && w.currentLayer == layer
    {
      xOffset := DrawCellDiagonalsPass(w, d, i, xOffset, start);
      i := i + 1;
    }
  }

  /** One pass of the cell loop: the haunch diagonals of cell `i`, then past it and its wall. */
  method DrawCellDiagonalsPass(w: DxfWriter, d: SectionData, i: nat, xOffset: real, ghost start: seq<Entity>)
    returns (xNext: real)
    requires i < |d.B| && xOffset == CellLeft(d, i)
    requires w.entities == start + SegLines(w.currentLayer, Diagonals(d, BundleCorners, i))
    modifies w
    ensures xNext == CellLeft(d, i + 1)
    ensures w.entities == start + SegLines(w.currentLayer, Diagonals(d, BundleCorners, i + 1))
    ensures w.layers == old(w.layers) && w.currentLayer == old(w.currentLayer)
  {
    var b := d.B[i];
    var c := BundleCompartmentHaunches(d, i);
    DrawCellDiagonals(w, d, c, xOffset, xOffset + b);
    DiagonalsStep(w.currentLayer, d, i, start, w.entities, xOffset);
    CellLeftStep(d, i);
    xNext := xOffset + b;
    if i < |d.middleWalls| {
      xNext := xNext + d.middleWalls[i].thickness;
    }
  }

  /** Ground line and hatch; the hatch loop steps `x` by 400 while `x <= lineRight`. */
  method DrawGround(w: DxfWriter, d: SectionData, dims: Dims, g: GroundInfo)
    modifies w
    ensures w.entities == old(w.entities) + GroundEntities(d, dims, g)
    ensures w.layers == old(w.layers)
    ensures w.currentLayer == if g.earthCoverDepth > 0.0 then GROUND else old(w.currentLayer)
  {
    var earthCover := g.earthCoverDepth;
    if earthCover <= 0.0 {
      return;
    }
    w.SetLayer(GROUND);
    var groundY := dims.totalHeight + earthCover;
    var (lineLeft, lineRight) := GroundExtent(d, dims);
    w.DrawLine(lineLeft, groundY, lineRight, groundY);
    ghost var start := w.entities;
    var x := lineLeft + 200.0;
    ghost var k: nat := 0;
    ghost var marks := Hatch(lineLeft, lineRight, groundY);
    HatchBound(lineLeft, lineRight, 0);
    while x <= lineRight
      invariant k <= |marks|
      invariant x == HatchX(lineLeft, k)
      invariant x <= lineRight <==> k < |marks|
      invariant w.entities == start + SegLines(GROUND, marks[..k])
      invariant w.layers == old(w.layers) && w.currentLayer == GROUND
      decreases |marks| - k
    {
      w.DrawLine(x, groundY, x - 200.0, groundY - 200.0);
      assert marks[..k + 1] == marks[..k] + [HatchMark(lineLeft, groundY, k)];
      SegLinesAppend(GROUND, marks[..k], [HatchMark(lineLeft, groundY, k)]);
      x := x + 400.0;
      k := k + 1;
      HatchBound(lineLeft, lineRight, k);
    }
    assert marks[..k] == marks;
  }

  /** One water symbol: the level line and the three sides of the triangle. */
  method DrawWaterMark(w: DxfWriter, x0: real, dir: real, waterY: real)
    requires w.currentLayer == WATER
    modifies w
    ensures w.entities == old(w.entities) + WaterMark(x0, dir, waterY)
    ensures w.layers == old(w.layers) && w.currentLayer == old(w.currentLayer)
  {
    w.DrawLine(x0, waterY, x0 + dir * 800.0, waterY);
    var cx := x0 + dir * 800.0 / 2.0;
    w.DrawLine(cx - 400.0 / 2.0, waterY + 350.0, cx + 400.0 / 2.0, waterY + 350.0);
    w.DrawLine(cx - 400.0 / 2.0, waterY + 350.0, cx, waterY);
    w.DrawLine(cx + 400.0 / 2.0, waterY + 350.0, cx, waterY);
  }

  method DrawWater(w: DxfWriter, d: SectionData, dims: Dims, g: GroundInfo)
    modifies w
    ensures w.entities == old(w.entities) + WaterEntities(d, dims, g)
    ensures w.layers == old(w.layers)
    ensures w.currentLayer == if g.groundwaterLevel > 0.0 && g.earthCoverDepth > 0.0 then WATER else old(w.currentLayer)
  {
    var earthCover := g.earthCoverDepth;
    var waterLevel := g.groundwaterLevel;
    if waterLevel > 0.0 && earthCover > 0.0 {
      w.SetLayer(WATER);
      var waterY := dims.totalHeight + earthCover - waterLevel;
      DrawWaterMark(w, dims.totalWidth, 1.0, waterY);
      DrawWaterMark(w, 0.0, -1.0, waterY);
    }
  }

  method DrawDimH(w: DxfWriter, x1: real, x2: real, y: real, offset: real, value: real, textHeight: real, extGap: real)
    modifies w
    ensures w.entities == old(w.entities) + DimHEntities(w.currentLayer, x1, x2, y, offset, value, textHeight, extGap)
    ensures w.layers == old(w.layers) && w.currentLayer == old(w.currentLayer)
  {
    ghost var e0, layer := w.entities, w.currentLayer;
    var dimY := y + offset;
    var sign := if offset > 0.0 then 1.0 else -1.0;
    var extStart := y + sign * (if extGap != 0.0 then extGap else 500.0);
    w.DrawLine(x1, extStart, x1, dimY);
    w.DrawLine(x2, extStart, x2, dimY);
    w.DrawLine(x1, dimY, x2, dimY);
    w.DrawText((x1 + x2) / 2.0, dimY + sign * textHeight * 0.6, textHeight, 0.0, value);
    assert sign == SvgView.Sign(offset);
    assert w.entities == e0 + [ LineEntity(layer, x1, extStart, x1, dimY), LineEntity(layer, x2, extStart, x2, dimY),
                                LineEntity(layer, x1, dimY, x2, dimY),
                                TextEntity(layer, (x1 + x2) / 2.0, dimY + sign * textHeight * 0.6, textHeight, 0.0, value) ];
  }

  method DrawDimV(w: DxfWriter, x: real, y1: real, y2: real, offset: real, value: real, textHeight: real, extGap: real)
    modifies w
    ensures w.entities == old(w.entities) + DimVEntities(w.currentLayer, x, y1, y2, offset, value, textHeight, extGap)
    ensures w.layers == old(w.layers) && w.currentLayer == old(w.currentLayer)
  {
    ghost var e0, layer := w.entities, w.currentLayer;
    var dimX := x + offset;
    var sign := if offset > 0.0 then 1.0 else -1.0;
    var extStart := x + sign * (if extGap != 0.0 then extGap else 500.0);
    w.DrawLine(extStart, y1, dimX, y1);
    w.DrawLine(extStart, y2, dimX, y2);
    w.DrawLine(dimX, y1, dimX, y2);
    w.DrawText(dimX + sign * textHeight * 0.6, (y1 + y2) / 2.0, textHeight, 90.0, value);
    assert sign == SvgView.Sign(offset);
    assert w.entities == e0 + [ LineEntity(layer, extStart, y1, dimX, y1), LineEntity(layer, extStart, y2, dimX, y2),
                                LineEntity(layer, dimX, y1, dimX, y2),
                                TextEntity(layer, dimX + sign * textHeight * 0.6, (y1 + y2) / 2.0, textHeight, 90.0, value) ];
  }

  /** Appends the entities of one more dimension call to a partly drawn plan. */
  lemma PlanStep(layer: string, cs: seq<DimCall>, c: DimCall, start: seq<Entity>, es: seq<Entity>)
    requires es == start + PlanEntities(layer, cs) + DimCallEntities(layer, c)
    ensures es == start + PlanEntities(layer, cs + [c])
  {
    PlanEntitiesAppend(layer, cs, [c]);
    PlanEntitiesSingle(layer, c);
  }

  /** A plan drawn call by call, from its first call on. */
  lemma PlanFirst(layer: string, c: DimCall, start: seq<Entity>, es: seq<Entity>)
    requires es == start + DimCallEntities(layer, c)
    ensures es == start + PlanEntities(layer, [c])
  {
    PlanEntitiesSingle(layer, c);
  }

  /** Total width, total height on the outer tier, clear height. */
  method DrawLeadDims(w: DxfWriter, d: SectionData, dims: Dims)
    modifies w
    ensures w.entities == old(w.entities) + PlanEntities(w.currentLayer, LeadDimCalls(d, dims))
    ensures w.layers == old(w.layers) && w.currentLayer == old(w.currentLayer)
  {
    ghost var start, layer := w.entities, w.currentLayer;
    var (leftX, rightX) := DimOrigins(d, dims);
    ghost var cs := LeadDimCalls(d, dims);
    DrawDimH(w, 0.0, dims.totalWidth, 0.0, -1000.0, dims.totalWidth, 250.0, 500.0);
    PlanFirst(layer, cs[0], start, w.entities);
    DrawDimV(w, rightX, 0.0, dims.totalHeight, 1500.0, dims.totalHeight, 250.0, 500.0 + 500.0);
    PlanStep(layer, [cs[0]], cs[1], start, w.entities);
    assert [cs[0]] + [cs[1]] == [cs[0], cs[1]];
    DrawDimV(w, leftX, d.LT, d.LT + d.H, -1000.0, d.H, 250.0, 500.0);
    PlanStep(layer, [cs[0], cs[1]], cs[2], start, w.entities);
    assert [cs[0], cs[1]] + [cs[2]] == cs;
  }

  /** Top slab, bottom slab, left wall, right wall. */
  method DrawSlabWallDims(w: DxfWriter, d: SectionData, dims: Dims)
    modifies w
    ensures w.entities == old(w.entities) + PlanEntities(w.currentLayer, SlabWallDimCalls(d, dims))
    ensures w.layers == old(w.layers) && w.currentLayer == old(w.currentLayer)
  {
    ghost var start, layer := w.entities, w.currentLayer;
    var leftX := DimOrigins(d, dims).0;
    ghost var cs := SlabWallDimCalls(d, dims);
    DrawDimV(w, leftX, d.LT + d.H, dims.totalHeight, -1000.0, d.UT, 250.0, 500.0);
    PlanFirst(layer, cs[0], start, w.entities);
    DrawDimV(w, leftX, 0.0, d.LT, -1000.0, d.LT, 250.0, 500.0);
    PlanStep(layer, [cs[0]], cs[1], start, w.entities);
    assert [cs[0]] + [cs[1]] == [cs[0], cs[1]];
    DrawDimH(w, 0.0, d.WL, dims.totalHeight, 1000.0, d.WL, 250.0, 500.0);
    PlanStep(layer, [cs[0], cs[1]], cs[2], start, w.entities);
    assert [cs[0], cs[1]] + [cs[2]] == [cs[0], cs[1], cs[2]];
    DrawDimH(w, dims.totalWidth - d.WR, dims.totalWidth, dims.totalHeight, 1000.0, d.WR, 250.0, 500.0);
    PlanStep(layer, [cs[0], cs[1], cs[2]], cs[3], start, w.entities);
    assert [cs[0], cs[1], cs[2]] + [cs[3]] == cs;
  }

  /** The width of every cell, above the top slab. */
  method DrawCellWidthDims(w: DxfWriter, d: SectionData, dims: Dims)
    requires Drawable(d)
    modifies w
    ensures w.entities == old(w.entities) + PlanEntities(w.currentLayer, CellWidthDims(d, dims, CellCount(d)))
    ensures w.layers == old(w.layers) && w.currentLayer == old(w.currentLayer)
  {
    ghost var start, layer := w.entities, w.currentLayer;
    var xOffset := d.WL;
    var i := 0;
    while i < d.culvertCount
      invariant 0 <= i <= CellCount(d)
      invariant xOffset == CellLeft(d, i)
      invariant w.entities == start + PlanEntities(layer, CellWidthDims(d, dims, i))
      invariant w.layers == old(w.layers) && w.currentLayer == layer
    {
      xOffset := DrawCellWidthDim(w, d, dims, i, xOffset, start);
      i := i + 1;
    }
  }

  /** One pass of the cell loop: the width dimension of cell `i`, then past it and its wall. */
  method DrawCellWidthDim(w: DxfWriter, d: SectionData, dims: Dims, i: nat, xOffset: real, ghost start: seq<Entity>)
    returns (xNext: real)
    requires i < |d.B| && xOffset == CellLeft(d, i)
    requires w.entities == start + PlanEntities(w.currentLayer, CellWidthDims(d, dims, i))
    modifies w
    ensures xNext == CellLeft(d, i + 1)
    ensures w.entities == start + PlanEntities(w.currentLayer, CellWidthDims(d, dims, i + 1))
    ensures w.layers == old(w.layers) && w.currentLayer == old(w.currentLayer)
  {
    var b := d.B[i];
    DrawDimH(w, xOffset, xOffset + b, dims.totalHeight, 1000.0, b, 250.0, 500.0);
    PlanStep(w.currentLayer, CellWidthDims(d, dims, i), HDim(xOffset, xOffset + b, dims.totalHeight, 1000.0, b), start, w.entities);
    CellLeftStep(d, i);
    xNext := xOffset + b;
    if i < |d.middleWalls| {
      xNext := xNext + d.middleWalls[i].thickness;
    }
  }

  /** One pass of the wall loop: past cell `i` and, when it exists, the dimension of wall `i`. */
  method DrawWallDimAfterCell(w: DxfWriter, d: SectionData, dims: Dims, i: nat, xOffset: real, ghost start: seq<Entity>)
    returns (xNext: real)
    requires i < |d.B| && xOffset == CellLeft(d, i)
    requires w.entities == start + PlanEntities(w.currentLayer, WallDims(d, dims, i))
    modifies w
    ensures xNext == CellLeft(d, i + 1)
    ensures w.entities == start + PlanEntities(w.currentLayer, WallDims(d, dims, i + 1))
    ensures w.layers == old(w.layers) && w.currentLayer == old(w.currentLayer)
  {
    CellLeftStep(d, i);
    xNext := xOffset + d.B[i];
    ghost var before := WallDims(d, dims, i);
    if i < |d.middleWalls| {
      var wt := d.middleWalls[i].thickness;
      ghost var c := HDim(xNext, xNext + wt, dims.totalHeight, 1000.0, wt);
      assert WallDims(d, dims, i + 1) == before + [c];
      DrawDimH(w, xNext, xNext + wt, dims.totalHeight, 1000.0, wt, 250.0, 500.0);
      PlanStep(w.currentLayer, before, c, start, w.entities);
      xNext := xNext + wt;
    } else {
      assert WallDims(d, dims, i + 1) == before;
    }
  }

  /** The thickness of every middle wall, above the top slab. */
  method DrawWallDims(w: DxfWriter, d: SectionData, dims: Dims)
    requires Drawable(d)
    modifies w
    ensures w.entities == old(w.entities) + PlanEntities(w.currentLayer, WallDims(d, dims, CellCount(d)))
    ensures w.layers == old(w.layers) && w.currentLayer == old(w.currentLayer)
  {
    ghost var start, layer := w.entities, w.currentLayer;
    var xOffset := d.WL;
    var i := 0;
    while i < d.culvertCount
      invariant 0 <= i <= CellCount(d)
      invariant xOffset == CellLeft(d, i)
      invariant w.entities == start + PlanEntities(layer, WallDims(d, dims, i))
      invariant w.layers == old(w.layers) && w.currentLayer == layer
    {
      xOffset := DrawWallDimAfterCell(w, d, dims, i, xOffset, start);
      i := i + 1;
    }
  }

  /** Slab dimensions, both only when the left extension is positive. */
  method DrawAntiFloatDims(w: DxfWriter, d: SectionData)
    modifies w
    ensures w.entities == old(w.entities) + PlanEntities(w.currentLayer, AntiFloatDimCalls(d, NestedInWidth))
    ensures w.layers == old(w.layers) && w.currentLayer == old(w.currentLayer)
  {
    ghost var start, layer := w.entities, w.currentLayer;
    if AntiFloatOn(d) {
      var afT := Or(d.antiFloat.value.thickness, 0.0);
      var afLeftExt := Or(d.antiFloat.value.leftExtension, 0.0);
      if afLeftExt > 0.0 {
        ghost var cs := AntiFloatDimCalls(d, NestedInWidth);
        DrawDimH(w, -afLeftExt, 0.0, 0.0, -1000.0, afLeftExt, 250.0, 500.0);
        PlanFirst(layer, cs[0], start, w.entities);
        DrawDimV(w, -afLeftExt, 0.0, afT, -1000.0, afT, 250.0, 500.0);
        PlanStep(layer, [cs[0]], cs[1], start, w.entities);
        assert [cs[0]] + [cs[1]] == cs;
        return;
      }
    }
    assert AntiFloatDimCalls(d, NestedInWidth) == [];
    assert PlanEntities(layer, []) == [];
  }

  /** Earth cover on the outer tier and, when also positive, the groundwater depth. */
  method DrawGroundDims(w: DxfWriter, d: SectionData, dims: Dims, g: GroundInfo)
    modifies w
    ensures w.entities == old(w.entities) + PlanEntities(w.currentLayer, GroundDimCalls(d, dims, g))
    ensures w.layers == old(w.layers) && w.currentLayer == old(w.currentLayer)
  {
    ghost var start, layer := w.entities, w.currentLayer;
    var rightX := DimOrigins(d, dims).1;
    var earthCover := g.earthCoverDepth;
    var waterLevel := g.groundwaterLevel;
    ghost var cs := GroundDimCalls(d, dims, g);
    if earthCover > 0.0 {
      var groundY := dims.totalHeight + earthCover;
      DrawDimV(w, rightX, dims.totalHeight, groundY, 1500.0, earthCover, 250.0, 500.0 + 500.0);
      PlanFirst(layer, cs[0], start, w.entities);
      if waterLevel > 0.0 {
        var waterY := groundY - waterLevel;
        DrawDimV(w, rightX, waterY, groundY, 1000.0, waterLevel, 250.0, 500.0);
        PlanStep(layer, [cs[0]], cs[1], start, w.entities);
        assert [cs[0]] + [cs[1]] == cs;
      } else {
        assert [cs[0]] == cs;
      }
    } else {
      assert PlanEntities(layer, []) == [];
    }
  }

  /** A plan drawn in two parts, one after the other, is the whole plan drawn. */
  lemma PlanParts(layer: string, start: seq<Entity>, a: seq<DimCall>, b: seq<DimCall>, es: seq<Entity>)
    requires es == start + PlanEntities(layer, a) + PlanEntities(layer, b)
    ensures es == start + PlanEntities(layer, a + b)
  {
    PlanEntitiesAppend(layer, a, b);
  }

  /** The dimension section of `exportDXF`, in the plan's order. */
  method DrawDimensions(w: DxfWriter, d: SectionData, dims: Dims, g: GroundInfo)
    requires Drawable(d) && dims == CalculateDimensions(d)
    modifies w
    ensures w.entities == old(w.entities) + PlanEntities(w.currentLayer, DimensionPlan(d, g, NestedInWidth))
    ensures w.layers == old(w.layers) && w.currentLayer == old(w.currentLayer)
  {
    ghost var start, layer := w.entities, w.currentLayer;
    ghost var p1 := LeadDimCalls(d, dims);
    ghost var p2 := CellWidthDims(d, dims, CellCount(d));
    ghost var p3 := SlabWallDimCalls(d, dims);
    ghost var p4: seq<DimCall> := if |d.middleWalls| > 0 then WallDims(d, dims, CellCount(d)) else [];
    ghost var p5 := AntiFloatDimCalls(d, NestedInWidth);
    ghost var p6 := GroundDimCalls(d, dims, g);
    DrawLeadDims(w, d, dims);
    DrawCellWidthDims(w, d, dims);
    PlanParts(layer, start, p1, p2, w.entities);
    DrawSlabWallDims(w, d, dims);
    PlanParts(layer, start, p1 + p2, p3, w.entities);
    if |d.middleWalls| > 0 {
      DrawWallDims(w, d, dims);
    } else {
      assert PlanEntities(layer, p4) == [];
    }
    PlanParts(layer, start, p1 + p2 + p3, p4, w.entities);
    DrawAntiFloatDims(w, d);
    PlanParts(layer, start, p1 + p2 + p3 + p4, p5, w.entities);
    DrawGroundDims(w, d, dims, g);
    PlanParts(layer, start, p1 + p2 + p3 + p4 + p5, p6, w.entities);
  }
  /** `exportDXF`: rejects a section without a positive clear height or without cells; otherwise the file of the drawing. */
  method ExportDxf(d: SectionData, g: GroundInfo) returns (ok: bool, file: seq<Group>)
    requires ValidForExport(d) ==> Drawable(d)
    ensures ok == ValidForExport(d)
    ensures !ok ==> file == []
    ensures ok ==> file == Serialize(ExportLayers, ExportEntities(d, g))
  {
    if !(d.H > 0.0 && |d.B| > 0) {
      return false, [];
    }
    var dims := CalculateDimensions(d);
    var w := new DxfWriter();
    w.AddLayer(OUTER, 7);
    w.AddLayer(INNER, 3);
    w.AddLayer(DIMENSION, 1);
    w.AddLayer(GROUND, 3);
    w.AddLayer(WATER, 4);
    assert w.layers == ExportLayers;

    w.SetLayer(OUTER);
    DrawOutline(w, d, dims);
    ghost var drawn := OutlineEntities(d, dims);
    assert w.entities == drawn;
    w.SetLayer(INNER);
    DrawCompartments(w, d);
    drawn := drawn + SegLines(INNER, InnerEdges(d, BundleCorners, CellCount(d)));
    DrawCompartmentDiagonals(w, d);
    drawn := drawn + SegLines(INNER, Diagonals(d, BundleCorners, CellCount(d)));
    w.SetLayer(OUTER);
    DrawSlab(w, d, dims);
    drawn := drawn + SlabEntities(d, dims);
    DrawGround(w, d, dims, g);
    drawn := drawn + GroundEntities(d, dims, g);
    DrawWater(w, d, dims, g);
    drawn := drawn + WaterEntities(d, dims, g);
    w.SetLayer(DIMENSION);
    DrawDimensions(w, d, dims, g);
    drawn := drawn + PlanEntities(DIMENSION, DimensionPlan(d, g, NestedInWidth));
    assert w.entities == drawn;
    assert drawn == ExportEntities(d, g);

    file := w.ToDxfString();
    ok := true;
  }
  // ----- properties of the export -----

  function LineSeg(e: Entity): Seg
    requires e.LineEntity?
  {
    Seg(Pt(e.x1, e.y1), Pt(e.x2, e.y2))
  }

  /**
   * Each CAD dimension draws the same extension lines and dimension line as
   * the view's dimension helpers for the same call; its label shows the
   * measured value 150 beyond the dimension line, away from the object, and
   * is turned by 90 degrees exactly for a vertical dimension.
   */
  lemma DimensionMatchesView(layer: string, v: SvgView.Variant, c: DimCall)
    ensures var es := DimCallEntities(layer, c);
      var view := SvgView.DimElements(v, c);
      && |es| == 4
      && (forall k :: 0 <= k < 3 ==> es[k].LineEntity? && view[k].Line? && LineSeg(es[k]) == view[k].s)
      && es[3].TextEntity? && es[3].text == c.value && es[3].height == 250.0
      && es[3].rotation == (if c.VDim? then 90.0 else 0.0)
      && (c.HDim? ==> es[3].x == (c.x1 + c.x2) / 2.0 && es[3].y == c.y + c.offset + SvgView.Sign(c.offset) * 150.0)
      && (c.VDim? ==> es[3].x == c.x + c.offset + SvgView.Sign(c.offset) * 150.0 && es[3].y == (c.y1 + c.y2) / 2.0)
  {
  }

  /**
   * The export draws the view's dimension plan exactly when the slab is off or
   * its left extension and thickness are both positive or both not; otherwise
   * it adds or drops the thickness dimension.
   */
  lemma ExportPlanMatchesView(d: SectionData, g: GroundInfo)
    requires Drawable(d)
    ensures DimensionPlan(d, g, NestedInWidth) == DimensionPlan(d, g, Independent)
            <==> !AntiFloatOn(d) || (d.antiFloat.value.leftExtension > 0.0 <==> d.antiFloat.value.thickness > 0.0)
  {
    AntiFloatRulesAgree(d);
    var dims := CalculateDimensions(d);
    var head := LeadDimCalls(d, dims) + CellWidthDims(d, dims, CellCount(d)) + SlabWallDimCalls(d, dims)
                + (if |d.middleWalls| > 0 then WallDims(d, dims, CellCount(d)) else []);
    var tail := GroundDimCalls(d, dims, g);
    assert DimensionPlan(d, g, NestedInWidth) == head + AntiFloatDimCalls(d, NestedInWidth) + tail;
    assert DimensionPlan(d, g, Independent) == head + AntiFloatDimCalls(d, Independent) + tail;
  }

  /** The slab outlines are the view's, point for point, and stay open. */
  lemma SlabMatchesView(d: SectionData, dims: Dims)
    ensures |SlabEntities(d, dims)| == |SvgView.AntiFloatSlab(d, dims)|
    ensures forall k :: 0 <= k < |SlabEntities(d, dims)| ==>
      && SlabEntities(d, dims)[k] == PolylineEntity(OUTER, SvgView.AntiFloatSlab(d, dims)[k].pts, false)
      && SvgView.AntiFloatSlab(d, dims)[k].Polyline?
  {
  }

  /** The outline has the view's points; the CAD file closes the plain rectangle with its closed flag as well. */
  lemma OutlineMatchesView(d: SectionData, dims: Dims)
    ensures |OutlineEntities(d, dims)| == |SvgView.OuterProfile(d, dims)|
    ensures OutlineEntities(d, dims)[0].PolylineEntity? && SvgView.OuterProfile(d, dims)[0].Polyline?
    ensures OutlineEntities(d, dims)[0].points == SvgView.OuterProfile(d, dims)[0].pts
    ensures OutlineEntities(d, dims)[0].closed <==> |OutlineEntities(d, dims)| == 1
    ensures |OutlineEntities(d, dims)| == 2 ==>
      OutlineEntities(d, dims)[1].LineEntity? && SvgView.OuterProfile(d, dims)[1].Line?
      && LineSeg(OutlineEntities(d, dims)[1]) == SvgView.OuterProfile(d, dims)[1].s
  {
  }

  /** The ground line and hatch are the view's, segment for segment. */
  lemma GroundMatchesView(d: SectionData, dims: Dims, g: GroundInfo)
    ensures |GroundEntities(d, dims, g)| == |SvgView.GroundLevel(d, dims, g)|
    ensures forall k :: 0 <= k < |GroundEntities(d, dims, g)| ==>
      GroundEntities(d, dims, g)[k].LineEntity? && SvgView.GroundLevel(d, dims, g)[k].Line?
      && LineSeg(GroundEntities(d, dims, g)[k]) == SvgView.GroundLevel(d, dims, g)[k].s
  {
    if g.earthCoverDepth > 0.0 {
      var groundY := dims.totalHeight + g.earthCoverDepth;
      var (lineLeft, lineRight) := GroundExtent(d, dims);
      var marks := Hatch(lineLeft, lineRight, groundY);
      forall k | 0 <= k < |GroundEntities(d, dims, g)|
        ensures GroundEntities(d, dims, g)[k].LineEntity? && SvgView.GroundLevel(d, dims, g)[k].Line?
                && LineSeg(GroundEntities(d, dims, g)[k]) == SvgView.GroundLevel(d, dims, g)[k].s
      {
        if k > 0 {
          assert GroundEntities(d, dims, g)[k] == SegLines(GROUND, marks)[k - 1];
          assert SvgView.GroundLevel(d, dims, g)[k] == SvgView.Lines(marks, SvgView.GroundHatch)[k - 1];
        }
      }
    }
  }

  /**
   * The CAD export draws the groundwater symbols (eight lines) only when both
   * the level and the earth cover are positive; the view needs only a positive
   * level.
   */
  lemma WaterNeedsEarthCover(d: SectionData, dims: Dims, g: GroundInfo)
    ensures |WaterEntities(d, dims, g)| == if g.groundwaterLevel > 0.0 && g.earthCoverDepth > 0.0 then 8 else 0
    ensures |SvgView.GroundwaterLevel(d, dims, g)| == if g.groundwaterLevel > 0.0 then 4 else 0
    ensures g.groundwaterLevel > 0.0 && g.earthCoverDepth > 0.0 ==>
      WaterEntities(d, dims, g)[0] == LineEntity(WATER, dims.totalWidth, dims.totalHeight + g.earthCoverDepth - g.groundwaterLevel,
                                                 dims.totalWidth + 800.0, dims.totalHeight + g.earthCoverDepth - g.groundwaterLevel)
  {
  }

  predicate OnLayer(es: seq<Entity>, name: string)
  {
    forall e :: e in es ==> e.layer == name
  }

  lemma {:induction false} PlanOnLayer(layer: string, cs: seq<DimCall>)
    ensures OnLayer(PlanEntities(layer, cs), layer)
    decreases |cs|
  {
    if |cs| > 0 {
      var pre, c := cs[..|cs| - 1], cs[|cs| - 1];
      assert PlanEntities(layer, cs) == PlanEntities(layer, pre) + DimCallEntities(layer, c) by {
        assert cs == pre + [c];
        PlanEntitiesAppend(layer, pre, [c]);
        PlanEntitiesSingle(layer, c);
      }
      PlanOnLayer(layer, pre);
      DimCallOnLayer(layer, c);
      OnLayerAppend(PlanEntities(layer, pre), DimCallEntities(layer, c), layer);
    } else {
      assert PlanEntities(layer, cs) == [];
    }
  }

  lemma DeclaredParts(p0: seq<Entity>, p1: seq<Entity>, p2: seq<Entity>, p3: seq<Entity>, p4: seq<Entity>,
                      p5: seq<Entity>, p6: seq<Entity>, es: seq<Entity>)
    requires OnLayer(p0, OUTER) && OnLayer(p1, INNER) && OnLayer(p2, INNER) && OnLayer(p3, OUTER)
    requires OnLayer(p4, GROUND) && OnLayer(p5, WATER) && OnLayer(p6, DIMENSION)
    requires es == p0 + p1 + p2 + p3 + p4 + p5 + p6
    ensures forall e :: e in es ==> exists l :: l in ExportLayers && l.name == e.layer
  {
    forall e | e in es
      ensures exists l :: l in ExportLayers && l.name == e.layer
    {
      assert ExportLayers[0] in ExportLayers && ExportLayers[1] in ExportLayers && ExportLayers[2] in ExportLayers;
      assert ExportLayers[3] in ExportLayers && ExportLayers[4] in ExportLayers;
    }
  }

  lemma OnLayerAppend(a: seq<Entity>, b: seq<Entity>, name: string)
    requires OnLayer(a, name) && OnLayer(b, name)
    ensures OnLayer(a + b, name)
  {
  }

  lemma DimCallOnLayer(layer: string, c: DimCall)
    ensures OnLayer(DimCallEntities(layer, c), layer)
  {
  }

  lemma OutlineOnLayer(d: SectionData, dims: Dims)
    ensures OnLayer(OutlineEntities(d, dims), OUTER)
  {
  }

  lemma SlabOnLayer(d: SectionData, dims: Dims)
    ensures OnLayer(SlabEntities(d, dims), OUTER)
  {
  }

  lemma GroundOnLayer(d: SectionData, dims: Dims, g: GroundInfo)
    ensures OnLayer(GroundEntities(d, dims, g), GROUND)
  {
  }

  lemma WaterOnLayer(d: SectionData, dims: Dims, g: GroundInfo)
    ensures OnLayer(WaterEntities(d, dims, g), WATER)
  {
  }

  lemma OutlinePartsOnLayers(d: SectionData, dims: Dims, g: GroundInfo)
    ensures OnLayer(OutlineEntities(d, dims), OUTER) && OnLayer(SlabEntities(d, dims), OUTER)
    ensures OnLayer(GroundEntities(d, dims, g), GROUND) && OnLayer(WaterEntities(d, dims, g), WATER)
  {
    OutlineOnLayer(d, dims);
    SlabOnLayer(d, dims);
    GroundOnLayer(d, dims, g);
    WaterOnLayer(d, dims, g);
  }

  /** Every exported entity lies on one of the layers declared in the LAYER table. */
  lemma EntitiesOnDeclaredLayers(d: SectionData, g: GroundInfo)
    requires Drawable(d)
    ensures forall e :: e in ExportEntities(d, g) ==> exists l :: l in ExportLayers && l.name == e.layer
  {
    var dims := CalculateDimensions(d);
    var p1 := SegLines(INNER, InnerEdges(d, BundleCorners, CellCount(d)));
    var p2 := SegLines(INNER, Diagonals(d, BundleCorners, CellCount(d)));
    assert OnLayer(p1, INNER);
    assert OnLayer(p2, INNER);
    OutlinePartsOnLayers(d, dims, g);
    PlanOnLayer(DIMENSION, DimensionPlan(d, g, NestedInWidth));
    DeclaredParts(OutlineEntities(d, dims), p1, p2, SlabEntities(d, dims), GroundEntities(d, dims, g), WaterEntities(d, dims, g),
                  PlanEntities(DIMENSION, DimensionPlan(d, g, NestedInWidth)), ExportEntities(d, g));
  }
}

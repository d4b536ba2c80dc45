/**
 * The bundled app's `DxfWriter`: an AutoCAD R12 drawing assembled from
 * layers and entities, then serialised as group-code/value pairs. A
 * serialised file is modelled as its sequence of pairs; turning a number
 * into its decimal text is not part of this model.
 */
module Dxf {
  import opened Layout

  /**
   * The fixed words the writer emits. `ACADVER` and `INSUNITS` stand for the
   * header variables `$ACADVER` and `$INSUNITS`, `SolidLine` for the line-type
   * description `Solid line`, `Txt` for the font file `txt` and `Blank` for
   * the empty big-font name.
   */
  datatype Keyword =
    | SECTION | ENDSEC | HEADER | TABLES | ENTITIES | EOF
    | TABLE | ENDTAB | LTYPE | LAYER | STYLE
    | ACADVER | AC1009 | INSUNITS | CONTINUOUS | SolidLine | STANDARD | Txt | Blank
    | LINE | POLYLINE | VERTEX | SEQEND | TEXT
    | AC1015 | LWPOLYLINE

  datatype Value = Key(k: Keyword) | Str(s: string) | Int(i: int) | Num(r: real)

  /** One `code\nvalue\n` pair of the file. */
  datatype Group = Group(code: int, value: Value)

  datatype LayerDef = LayerDef(name: string, color: int)

  /** An entity on the layer that was current when it was drawn; a text shows a number. */
  datatype Entity =
    | LineEntity(layer: string, x1: real, y1: real, x2: real, y2: real)
    | PolylineEntity(layer: string, points: seq<Point>, closed: bool)
    | TextEntity(layer: string, x: real, y: real, height: real, rotation: real, text: real)

  function K(code: int, k: Keyword): Group
  {
    Group(code, Key(k))
  }

  function W(code: int, s: string): Group
  {
    Group(code, Str(s))
  }

  function I(code: int, n: int): Group
  {
    Group(code, Int(n))
  }

  function N(code: int, r: real): Group
  {
    Group(code, Num(r))
  }

  // ----- the fixed parts of the file -----

  function Header(): seq<Group>
  {
    [K(0, SECTION), K(2, HEADER), K(9, ACADVER), K(1, AC1009), K(9, INSUNITS), I(70, 4), K(0, ENDSEC)]
  }

  function LineTypeTable(): seq<Group>
  {
    [ K(0, TABLE), K(2, LTYPE), I(70, 1),
      K(0, LTYPE), K(2, CONTINUOUS), I(70, 0), K(3, SolidLine), I(72, 65), I(73, 0), N(40, 0.0),
      K(0, ENDTAB) ]
  }

  function StyleTable(): seq<Group>
  {
    [ K(0, TABLE), K(2, STYLE), I(70, 1),
      K(0, STYLE), K(2, STANDARD), I(70, 0), N(40, 0.0), N(41, 1.0), N(50, 0.0), I(71, 0), N(42, 250.0),
      K(3, Txt), K(4, Blank),
      K(0, ENDTAB) ]
  }

  function LayerRecord(l: LayerDef): seq<Group>
  {
    [K(0, LAYER), W(2, l.name), I(70, 0), I(62, l.color), K(6, CONTINUOUS)]
  }

  function LayerRecords(ls: seq<LayerDef>): seq<Group>
  {
    if |ls| == 0 then [] else LayerRecords(ls[..|ls| - 1]) + LayerRecord(ls[|ls| - 1])
  }

  /** The LAYER table: its declared count, the default layer `0` (white) and every added layer. */
  function LayerTable(ls: seq<LayerDef>): seq<Group>
  {
    [K(0, TABLE), K(2, LAYER), I(70, |ls| + 1)] + LayerRecord(LayerDef("0", 7)) + LayerRecords(ls) + [K(0, ENDTAB)]
  }

  function Tables(ls: seq<LayerDef>): seq<Group>
  {
    [K(0, SECTION), K(2, TABLES)] + LineTypeTable() + LayerTable(ls) + StyleTable() + [K(0, ENDSEC)]
  }

  // ----- entities -----

  function Vertex(layer: string, p: Point): seq<Group>
  {
    [K(0, VERTEX), W(8, layer), N(10, p.x), N(20, p.y), I(30, 0)]
  }

  function Vertices(layer: string, ps: seq<Point>): seq<Group>
  {
    if |ps| == 0 then [] else Vertices(layer, ps[..|ps| - 1]) + Vertex(layer, ps[|ps| - 1])
  }

  function LineGroups(layer: string, x1: real, y1: real, x2: real, y2: real): seq<Group>
  {
    [K(0, LINE), W(8, layer), N(10, x1), N(20, y1), I(30, 0), N(11, x2), N(21, y2), I(31, 0)]
  }

  function PolylineGroups(layer: string, points: seq<Point>, closed: bool): seq<Group>
  {
    [K(0, POLYLINE), W(8, layer), I(66, 1), I(70, if closed then 1 else 0)]
    + Vertices(layer, points)
    + [K(0, SEQEND), W(8, layer)]
  }

  /** A text is centred on its point (alignment codes 72 and 73); code 50 appears only for a rotated text. */
  function TextGroups(layer: string, x: real, y: real, height: real, rotation: real, text: real): seq<Group>
  {
    [K(0, TEXT), W(8, layer), N(10, x), N(20, y), I(30, 0), N(40, height), N(1, text)]
    + (if rotation != 0.0 then [N(50, rotation)] else [])
    + [I(72, 1), N(11, x), N(21, y), I(31, 0), I(73, 2)]
  }

  function EntityGroups(e: Entity): seq<Group>
  {
    match e
    case LineEntity(layer, x1, y1, x2, y2) => LineGroups(layer, x1, y1, x2, y2)
    case PolylineEntity(layer, points, closed) => PolylineGroups(layer, points, closed)
    case TextEntity(layer, x, y, height, rotation, text) => TextGroups(layer, x, y, height, rotation, text)
  }

  /** Concatenation of pieces, in order. */
  function Flatten<T>(ss: seq<seq<T>>): seq<T>
  {
    if |ss| == 0 then [] else Flatten(ss[..|ss| - 1]) + ss[|ss| - 1]
  }

  function EntitiesGroups(es: seq<Entity>): seq<Group>
  {
    Flatten(seq(|es|, i requires 0 <= i < |es| => EntityGroups(es[i])))
  }

  /** Everything before the first entity. */
  function Preamble(ls: seq<LayerDef>): seq<Group>
  {
    Header() + Tables(ls) + [K(0, SECTION), K(2, ENTITIES)]
  }

  const Trailer: seq<Group> := [K(0, ENDSEC), K(0, EOF)]

  /** `toDxfString`: header, tables, the entities in the order they were drawn, end of file. */
  function Serialize(ls: seq<LayerDef>, es: seq<Entity>): seq<Group>
  {
    Preamble(ls) + EntitiesGroups(es) + Trailer
  }

  // ----- the writer -----

  class DxfWriter {
    var entities: seq<Entity>
    var layers: seq<LayerDef>
    var currentLayer: string

    constructor()
      ensures entities == [] && layers == [] && currentLayer == "0"
    {
      entities := [];
      layers := [];
      currentLayer := "0";
    }

    method AddLayer(name: string, color: int)
      modifies this
      ensures layers == old(layers) + [LayerDef(name, color)]
      ensures entities == old(entities) && currentLayer == old(currentLayer)
    {
      layers := layers + [LayerDef(name, color)];
    }

    method SetLayer(name: string)
      modifies this
      ensures currentLayer == name
      ensures entities == old(entities) && layers == old(layers)
    {
      currentLayer := name;
    }

    method DrawLine(x1: real, y1: real, x2: real, y2: real)
      modifies this
      ensures entities == old(entities) + [LineEntity(currentLayer, x1, y1, x2, y2)]
      ensures layers == old(layers) && currentLayer == old(currentLayer)
    {
      entities := entities + [LineEntity(currentLayer, x1, y1, x2, y2)];
    }

    method DrawPolyline(points: seq<Point>, closed: bool)
      modifies this
      ensures entities == old(entities) + [PolylineEntity(currentLayer, points, closed)]
      ensures layers == old(layers) && currentLayer == old(currentLayer)
    {
      entities := entities + [PolylineEntity(currentLayer, points, closed)];
    }

    method DrawText(x: real, y: real, height: real, rotation: real, text: real)
      modifies this
      ensures entities == old(entities) + [TextEntity(currentLayer, x, y, height, rotation, text)]
      ensures layers == old(layers) && currentLayer == old(currentLayer)
    {
      entities := entities + [TextEntity(currentLayer, x, y, height, rotation, text)];
    }

    /** `toDxfString`: the layer loop and the entity loop append in order. */
    method ToDxfString() returns (out: seq<Group>)
      ensures out == Serialize(layers, entities)
    {
      var layerTable := LayerTableGroups(layers);
      out := Header() + [K(0, SECTION), K(2, TABLES)] + LineTypeTable() + layerTable + StyleTable() + [K(0, ENDSEC)];
      out := out + [K(0, SECTION), K(2, ENTITIES)];
      var body := EntitiesToGroups(entities);
      out := out + body + [K(0, ENDSEC), K(0, EOF)];
    }
  }

  /** The LAYER table part of `toDxfString`, with its loop over the added layers. */
  method LayerTableGroups(ls: seq<LayerDef>) returns (out: seq<Group>)
    ensures out == LayerTable(ls)
  {
    var records: seq<Group> := [];
    var i := 0;
    while i < |ls|
      invariant 0 <= i <= |ls|
      invariant records == LayerRecords(ls[..i])
    {
      assert ls[..i + 1][..i] == ls[..i];
      records := records + LayerRecord(ls[i]);
      i := i + 1;
    }
    assert ls[..i] == ls;
    out := [K(0, TABLE), K(2, LAYER), I(70, |ls| + 1)] + LayerRecord(LayerDef("0", 7)) + records + [K(0, ENDTAB)];
  }

  /** The entity loop of `toDxfString`. */
  method EntitiesToGroups(es: seq<Entity>) returns (out: seq<Group>)
    ensures out == EntitiesGroups(es)
  {
    out := [];
    var j := 0;
    while j < |es|
      invariant 0 <= j <= |es|
      invariant out == EntitiesGroups(es[..j])
    {
      assert es[..j + 1] == es[..j] + [es[j]];
      EntitiesGroupsAppend(es[..j], [es[j]]);
      EntitiesGroupsSingle(es[j]);
      var g := EntityToGroups(es[j]);
      out := out + g;
      j := j + 1;
    }
    assert es[..j] == es;
  }

  /** The body of the entity loop of `toDxfString`, with its vertex loop. */
  method EntityToGroups(e: Entity) returns (out: seq<Group>)
    ensures out == EntityGroups(e)
  {
    match e
    case LineEntity(layer, x1, y1, x2, y2) =>
      out := [K(0, LINE), W(8, layer), N(10, x1), N(20, y1), I(30, 0), N(11, x2), N(21, y2), I(31, 0)];
    case PolylineEntity(layer, points, closed) =>
      out := [K(0, POLYLINE), W(8, layer), I(66, 1), I(70, if closed then 1 else 0)];
      ghost var head := out;
      var k := 0;
      while k < |points|
        invariant 0 <= k <= |points|
        invariant out == head + Vertices(layer, points[..k])
      {
        assert points[..k + 1][..k] == points[..k];
        out := out + Vertex(layer, points[k]);
        k := k + 1;
      }
      assert points[..k] == points;
      out := out + [K(0, SEQEND), W(8, layer)];
    case TextEntity(layer, x, y, height, rotation, text) =>
      out := [K(0, TEXT), W(8, layer), N(10, x), N(20, y), I(30, 0), N(40, height), N(1, text)];
      if rotation != 0.0 {
        out := out + [N(50, rotation)];
      }
      out := out + [I(72, 1), N(11, x), N(21, y), I(31, 0), I(73, 2)];
  }

  // ----- properties of the file -----

  lemma {:induction false} LayerRecordsCount(ls: seq<LayerDef>)
    ensures multiset(LayerRecords(ls))[K(0, LAYER)] == |ls|
  {
    if |ls| > 0 {
      LayerRecordsCount(ls[..|ls| - 1]);
      LayerRecordCount(ls[|ls| - 1]);
    }
  }

  lemma LayerRecordCount(l: LayerDef)
    ensures multiset(LayerRecord(l))[K(0, LAYER)] == 1
  {
    var r := LayerRecord(l);
    assert r == [K(0, LAYER)] + r[1..];
    assert K(0, LAYER) !in r[1..];
  }

  /** The LAYER table declares one entry more than the added layers and holds exactly that many records. */
  lemma LayerTableCount(ls: seq<LayerDef>)
    ensures LayerTable(ls)[2] == I(70, |ls| + 1)
    ensures multiset(LayerTable(ls))[K(0, LAYER)] == |ls| + 1
  {
    LayerTableDeclares(ls);
    LayerTableRecords(ls);
  }

  lemma LayerTableDeclares(ls: seq<LayerDef>)
    ensures LayerTable(ls)[2] == I(70, |ls| + 1)
  {
    var head := [K(0, TABLE), K(2, LAYER), I(70, |ls| + 1)];
    var rest := LayerRecord(LayerDef("0", 7)) + LayerRecords(ls) + [K(0, ENDTAB)];
    assert LayerTable(ls) == head + rest;
    assert (head + rest)[2] == head[2];
  }

  lemma LayerTableRecords(ls: seq<LayerDef>)
    ensures multiset(LayerTable(ls))[K(0, LAYER)] == |ls| + 1
  {
    var head, tail := [K(0, TABLE), K(2, LAYER), I(70, |ls| + 1)], [K(0, ENDTAB)];
    var dflt, recs := LayerRecord(LayerDef("0", 7)), LayerRecords(ls);
    assert LayerTable(ls) == head + dflt + recs + tail;
    LayerRecordsCount(ls);
    LayerRecordCount(LayerDef("0", 7));
    assert K(0, LAYER) !in head && K(0, LAYER) !in tail;
    CountFour(head, dflt, recs, tail, K(0, LAYER));
  }

  lemma CountFour<T>(a: seq<T>, b: seq<T>, c: seq<T>, d: seq<T>, x: T)
    ensures multiset(a + b + c + d)[x] == multiset(a)[x] + multiset(b)[x] + multiset(c)[x] + multiset(d)[x]
  {
    calc {
      multiset(a + b + c + d);
      multiset(a + b + c) + multiset(d);
      multiset(a + b) + multiset(c) + multiset(d);
      multiset(a) + multiset(b) + multiset(c) + multiset(d);
    }
  }

  /** A text carries a rotation group (code 50) exactly when its rotation is not zero. */
  lemma TextRotationGroup(layer: string, x: real, y: real, height: real, rotation: real, text: real)
    ensures var gs := TextGroups(layer, x, y, height, rotation, text);
      (exists k :: 0 <= k < |gs| && gs[k].code == 50) <==> rotation != 0.0
  {
    var gs := TextGroups(layer, x, y, height, rotation, text);
    if rotation != 0.0 {
      assert gs[7].code == 50;
    }
  }

  lemma {:induction false} VerticesCount(layer: string, ps: seq<Point>)
    ensures |Vertices(layer, ps)| == 5 * |ps|
    ensures multiset(Vertices(layer, ps))[K(0, VERTEX)] == |ps|
  {
    if |ps| > 0 {
      VerticesCount(layer, ps[..|ps| - 1]);
    }
  }

  /** A polyline writes one VERTEX per point, and its closed flag as group 70. */
  lemma PolylineShape(layer: string, points: seq<Point>, closed: bool)
    ensures var gs := PolylineGroups(layer, points, closed);
      && multiset(gs)[K(0, VERTEX)] == |points|
      && gs[3] == I(70, if closed then 1 else 0)
      && gs[|gs| - 2] == K(0, SEQEND)
  {
    VerticesCount(layer, points);
    var head := [K(0, POLYLINE), W(8, layer), I(66, 1), I(70, if closed then 1 else 0)];
    var body, tail := Vertices(layer, points), [K(0, SEQEND), W(8, layer)];
    assert PolylineGroups(layer, points, closed) == head + body + tail;
    assert K(0, VERTEX) !in head && K(0, VERTEX) !in tail;
    CountFour(head, body, tail, [], K(0, VERTEX));
    assert head + body + tail + [] == head + body + tail;
  }

  lemma EntitiesGroupsSingle(e: Entity)
    ensures EntitiesGroups([e]) == EntityGroups(e)
  {
    var es := [e];
    var p := seq(|es|, i requires 0 <= i < |es| => EntityGroups(es[i]));
    assert p[..0] == [];
    assert Flatten(p) == Flatten(p[..0]) + p[0];
  }

  lemma {:induction false} FlattenAppend<T>(a: seq<seq<T>>, b: seq<seq<T>>)
    ensures Flatten(a + b) == Flatten(a) + Flatten(b)
    decreases |b|
  {
    if |b| == 0 {
      assert a + b == a;
    } else {
      assert (a + b)[..|a + b| - 1] == a + b[..|b| - 1];
      FlattenAppend(a, b[..|b| - 1]);
    }
  }

  lemma EntitiesGroupsAppend(a: seq<Entity>, b: seq<Entity>)
    ensures EntitiesGroups(a + b) == EntitiesGroups(a) + EntitiesGroups(b)
  {
    var pa := seq(|a|, i requires 0 <= i < |a| => EntityGroups(a[i]));
    var pb := seq(|b|, i requires 0 <= i < |b| => EntityGroups(b[i]));
    assert seq(|a + b|, i requires 0 <= i < |a + b| => EntityGroups((a + b)[i])) == pa + pb;
    FlattenAppend(pa, pb);
  }

  /** The file opens the HEADER section and closes with `ENDSEC`, `EOF`, whatever was drawn. */
  lemma FileFrame(ls: seq<LayerDef>, es: seq<Entity>)
    ensures |Serialize(ls, es)| >= 4
    ensures Serialize(ls, es)[..2] == [K(0, SECTION), K(2, HEADER)]
    ensures Serialize(ls, es)[|Serialize(ls, es)| - 2..] == Trailer
  {
    var pre := Preamble(ls);
    assert pre[..2] == [K(0, SECTION), K(2, HEADER)];
    var f := pre + EntitiesGroups(es) + Trailer;
    assert f[..2] == pre[..2];
    assert f[|f| - 2..] == Trailer;
  }

  /** An entity drawn later is written after every entity drawn before it. */
  lemma DrawingOrder(ls: seq<LayerDef>, es: seq<Entity>, e: Entity)
    ensures Serialize(ls, es + [e]) == Preamble(ls) + EntitiesGroups(es) + EntityGroups(e) + Trailer
  {
    EntitiesGroupsAppend(es, [e]);
    EntitiesGroupsSingle(e);
  }
}

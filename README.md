# Box-culvert section engine in Dafny

This project models the core of a parametric engine for multi-cell box-culvert
cross-sections. A section has a clear height `H`, an optional height `H4`, one clear
width `B[i]` per cell, top and bottom slab thicknesses `UT` and `LT`, outer wall
thicknesses `WL` and `WR`, and one middle wall (continuous wall `연속벽` or column
`기둥`, with a thickness) between each two cells. It also has haunch corners on every
wall, column girders and an optional anti-float slab. From such a section the engine
does five things:

- it keeps the section in a state store that the input forms edit;
- it draws the section as an SVG view with its dimensions;
- it exports the section as an AutoCAD DXF file;
- it cuts the section into numbered rectangles and triangles for a buoyancy (uplift)
  check, prints that check as a report and draws the numbered shapes;
- it lets the user zoom and pan the view.

The repository carries the engine three times:

- the ES-module web front end (`esc_culvert_web/js/...`);
- a bundled copy of the same front end (`esc_culvert_web/js/app.bundle.js`);
- a Python/PyQt desktop prototype (`utils.py`, `buoyancy_check.py`,
  `esc_culvert_table_widget.py`).

The copies do not always agree, and the model follows each file's own code.

- The bundle's state store, buoyancy report and numbered drawing differ from
  `state.js`, `buoyancyCheck.js` and `svgRenderer.js` only in formatting. They are
  modelled once, citing the ES-module file.
- The bundle's section view reads haunch corners through `safeCorner`, which turns a
  zero leg into 150. The ES-module view keeps zeros. Both variants are modelled, and
  `Geometry.ZeroHaunchDiffersBetweenRenderers` shows where they part.
- JavaScript's `x || d` replaces both zero and a missing value with `d`. Python's
  `.get(k, d)` replaces only a missing key. `Section` carries both readings.
- The Python outer profile stops the walls at `LT` when an anti-float slab with an
  extension is in use. `PyDxf.SlabProfileStopsAtLT` and
  `PyDxf.ProfileMatchesBundleOnlyAtLT` state this.

Modules, file by file:

- `section.dfy` (`Section`): the section record and the cell scan.
- `geometry.dfy` (`Geometry`): overall dimensions, validation and the haunch corner of
  each cell, in the three variants.
- `layout.dfy` (`Layout`): geometry shared by all renderers. This covers inner edges,
  haunch diagonals, girders, ground hatch and the dimension plan.
- `svgview.dfy` (`SvgView`): the section view as a sequence of abstract elements. Its
  drawing passes are loops proved against the `Drawing` function.
- `dxfwriter.dfy` (`Dxf`): the bundle's `DxfWriter` class and its group-code
  serialisation.
- `dxfexport.dfy` (`DxfExport`): the bundle's `exportDXF`.
- `dxfmodule.dfy` (`DxfModule`): the ES-module `generateDXF`.
- `pydxf.dfy` (`PyDxf`): the prototype's `create_culvert_dxf`, cross-checked against
  the view.
- `report.dfy` (`Report`): the buoyancy report, both JavaScript and Python.
- `buoyshapes.dfy` and `buoydraw.dfy` (`BuoyShapes`, `BuoyDraw`): the numbered
  buoyancy drawings in SVG and DXF.
- `buoyfindings.dfy` (`BuoyFindings`): where the report and the drawing disagree, and
  the corrected report.
- `store.dfy` (`Store`): the state store with its listener registry and its
  reference sharing.
- `sectionform.dfy` (`SectionForm`): the web input forms.
- `sectiontable.dfy` (`SectionTable`): the column arithmetic of the one-row section
  table.
- `tablewidget.dfy` (`TableWidget`): the Qt input widget. The section list and the
  shared menu table are kept apart, since their lengths can differ.
- `viewport.dfy` (`Viewport`): the zoom-and-pan controller.

All lengths are millimetres and are modelled as exact `real` numbers. Weights are
kN per metre.

## Model

| member | source | states |
|---|---|---|
| Section.Thicknesses | esc_culvert_web/js/viewer/svgRenderer.js:115-117 | the list of middle-wall thicknesses has one entry per middle wall, in order |
| Section.CellLeftStep | esc_culvert_web/js/viewer/svgRenderer.js:225-228 | the running offset of a cell scan moves past cell `i` and, when it exists, past middle wall `i`, landing on the left edge of cell `i + 1` |
| Geometry.ReduceIsSum | esc_culvert_web/js/viewer/svgRenderer.js:114-117 | `reduce` with a running total from `acc` is `acc` plus the sum of the list |
| Geometry.CalculateDimensions | esc_culvert_web/js/viewer/svgRenderer.js:113-132 | total width is left wall + all cells + all middle walls + right wall; total height is bottom slab + clear height + top slab; the inner-width and wall-thickness totals are the sums |
| Geometry.CellsTileTotalWidth | esc_culvert_web/js/state.js:152-187 | with the array lengths `setCulvertCount` maintains, the right face of the last cell plus the right wall is exactly the total width |
| Geometry.CellLeftMonotone | esc_culvert_web/js/viewer/svgRenderer.js:209-231 | with non-negative widths and thicknesses the cells' left edges never decrease from left to right |
| Geometry.ExportAcceptsMoreThanView | esc_culvert_web/js/utils/dxfExport.js:23-28 | every section the view's `validateData` accepts is accepted by the exporter's check, and a section with a zero left wall is accepted only by the exporter |
| Geometry.NeighboursShareWallHaunch | esc_culvert_web/js/viewer/svgRenderer.js:189-207 | the right corners of cell `i` are the left corners of cell `i + 1`: both come from middle wall `i` |
| Geometry.MissingMiddleHaunchIsZero | esc_culvert_web/js/viewer/svgRenderer.js:193-206 | a middle wall with no haunch entry gives zero corners on both cells next to it |
| Geometry.SafeCorner | esc_culvert_web/js/app.bundle.js:1538-1541 | a missing corner, or a zero leg, becomes 150; a non-zero leg is kept |
| Geometry.HaunchData | esc_culvert_web/js/app.bundle.js:1543-1560 | the normalised haunch record has both outer walls and exactly `(culvert_count or 1) - 1` middle walls, each corner passed through `safeCorner` |
| Geometry.HaunchDataHasNoZeroLeg | esc_culvert_web/js/app.bundle.js:1538-1560 | no corner of the normalised haunch record has a zero leg |
| Geometry.BundleCornersAreSafeCorners | esc_culvert_web/js/app.bundle.js:491-502 | for every drawn cell the bundle's corners are the ES-module corners passed through `safeCorner` |
| Geometry.ZeroHaunchDiffersBetweenRenderers | esc_culvert_web/js/app.bundle.js:1538-1541 | a zero haunch leg stays zero in the ES-module renderer and is drawn as 150 by the bundle |
| Geometry.PyCornersMatchModuleCorners | utils.py:375-396 | the Python prototype picks the same four corners for every cell as the ES-module renderer |
| Layout.InnerEdgeAt | esc_culvert_web/js/viewer/svgRenderer.js:209-231 | the compartment pass draws exactly four edges per drawn cell, and edge `k` of cell `i` is the `4i + k`-th line |
| Layout.InnerEdgesLength | esc_culvert_web/js/viewer/svgRenderer.js:209-231 | the first `n` cells give `4n` inner edges |
| Layout.DiagonalsCount | esc_culvert_web/js/viewer/svgRenderer.js:233-259 | the haunch pass adds, per cell, one diagonal for each corner whose legs are both positive, so at most four per cell |
| Layout.EdgesFollowOutline | esc_culvert_web/js/viewer/svgRenderer.js:219-222 | the four inner edges of a cell join consecutive pairs of the eight corners of its haunched outline |
| Layout.DiagonalsCloseOutline | esc_culvert_web/js/viewer/svgRenderer.js:244-251 | at each corner of a cell either a drawn diagonal closes the gap the inner edges leave, or (no haunch) there is no gap; no other diagonal is drawn |
| Layout.WallGirdersShape | esc_culvert_web/js/viewer/svgRenderer.js:277-310 | per column wall: three lines per girder whose additional height is positive, then the two X-bracing lines, corner to corner, exactly when the column top is above its bottom |
| Layout.NoColumnsNoGirders | esc_culvert_web/js/viewer/svgRenderer.js:273-313 | continuous walls never get girders: with no column wall the girder pass draws nothing |
| Layout.NoAddedHeightNoGirders | esc_culvert_web/js/viewer/svgRenderer.js:265-267 | with both additional heights zero or negative the girder pass draws nothing |
| Layout.HatchBound | esc_culvert_web/js/viewer/svgRenderer.js:418-420 | hatch mark `k` (at `lineLeft + 200 + 400k`) is drawn exactly when it has not passed the right end of the ground line |
| Layout.Hatch | esc_culvert_web/js/viewer/svgRenderer.js:416-421 | the number of hatch marks is the number of steps of 400 from `lineLeft + 200` that stay at or before `lineRight` |
| Layout.CellWidthDimAt | esc_culvert_web/js/viewer/svgRenderer.js:496-507 | one width dimension per drawn cell, the `i`-th spanning exactly cell `i`, 1000 above the top |
| Layout.AntiFloatRulesAgree | esc_culvert_web/js/app.bundle.js:2059-2065 | the bundle draws the slab-thickness dimension only with a positive left extension, the ES-module view whenever the thickness is positive; the two agree except when exactly one of the two is positive |
| Layout.WaterDimNeedsEarthCover | esc_culvert_web/js/viewer/svgRenderer.js:564-585 | the groundwater-depth dimension is drawn only inside the earth-cover branch; the earth-cover dimension uses the far offset |
| SvgView.DimensionShape | esc_culvert_web/js/viewer/svgRenderer.js:590-642 | every dimension is two extension lines that end on the dimension line, the dimension line, an arrow with its tip at each end and a label showing the measured value, turned for a vertical dimension |
| SvgView.ExtensionGap | esc_culvert_web/js/viewer/svgRenderer.js:590-642 | extension lines start 500 from the measured object, on the dimension line's side |
| SvgView.VariantsDifferOnlyInLabel | esc_culvert_web/js/app.bundle.js:781-803 | the module and bundle renderers draw the same lines and arrows for every dimension; only the label sits 150 further from its line in the bundle |
| SvgView.AntiFloatSlabOutlines | esc_culvert_web/js/viewer/svgRenderer.js:362-385 | one slab outline per positive extension, and none when the slab is not in use |
| SvgView.DrawInnerCompartments | esc_culvert_web/js/viewer/svgRenderer.js:209-231 | the compartment loop draws the four inner edges of every cell, in cell order |
| SvgView.CompartmentPass | esc_culvert_web/js/viewer/svgRenderer.js:211-229 | one pass of the compartment loop appends the edges of cell `i` and moves the offset to the left edge of cell `i + 1` |
| SvgView.DrawCellHaunches | esc_culvert_web/js/viewer/svgRenderer.js:244-251 | the diagonals of one cell: upper-left, upper-right, lower-left, lower-right, each only when both legs are positive |
| SvgView.DrawHaunches | esc_culvert_web/js/viewer/svgRenderer.js:233-259 | the haunch loop draws exactly the haunch diagonals of every cell, in cell order |
| SvgView.HaunchPass | esc_culvert_web/js/viewer/svgRenderer.js:235-257 | one pass of the haunch loop appends the diagonals of cell `i` and moves the offset to the left edge of cell `i + 1` |
| SvgView.DrawWallGirders | esc_culvert_web/js/viewer/svgRenderer.js:277-310 | the wall after cell `i` gets its girder lines exactly when it is a column wall |
| SvgView.DrawGirdersAfterCell | esc_culvert_web/js/viewer/svgRenderer.js:273-313 | one pass of the girder loop appends the girders of wall `i` and moves the offset to the left edge of cell `i + 1` |
| SvgView.DrawGirderWalls | esc_culvert_web/js/viewer/svgRenderer.js:273-313 | the girder loop draws the girders of every column wall, in wall order |
| SvgView.DrawColumnGirders | esc_culvert_web/js/viewer/svgRenderer.js:261-314 | girder boxes and bracing on every column wall; nothing without middle walls, without girder data or with no positive added height |
| SvgView.LeaderAtShape | esc_culvert_web/js/viewer/svgRenderer.js:330-356 | a column wall gets one whole leader (a level line 800 long, a tick of 60, the CTC text, the width text) and any other wall gets nothing |
| SvgView.LeadersWhole | esc_culvert_web/js/viewer/svgRenderer.js:328-358 | the leader loop draws nothing but whole leaders, each showing the girder's CTC and width |
| SvgView.LeadersCount | esc_culvert_web/js/viewer/svgRenderer.js:328-358 | the leader loop draws four elements per column wall |
| SvgView.NoColumnsNoLeaders | esc_culvert_web/js/viewer/svgRenderer.js:333 | with only continuous walls no leader is drawn |
| SvgView.LeaderPass | esc_culvert_web/js/viewer/svgRenderer.js:329-357 | one pass of the leader loop appends the leader of wall `i` and moves the offset to the left edge of cell `i + 1` |
| SvgView.DrawColumnLeaders | esc_culvert_web/js/viewer/svgRenderer.js:316-360 | the leader pass draws exactly the leaders of all column walls; nothing without middle walls or girder data |
| SvgView.DrawGroundLevel | esc_culvert_web/js/viewer/svgRenderer.js:396-424 | the ground line and its hatch marks, stepping by 400 while the mark stays on the line, and nothing without earth cover |
| SvgView.DrawCellWidths | esc_culvert_web/js/viewer/svgRenderer.js:496-507 | one width dimension per cell, measured above the top slab |
| SvgView.DrawWallThicknesses | esc_culvert_web/js/viewer/svgRenderer.js:537-548 | one thickness dimension per middle wall, measured above the top slab |
| SvgView.DrawDimensions | esc_culvert_web/js/viewer/svgRenderer.js:469-588 | every dimension of the plan, in drawing order |
| SvgView.Render | esc_culvert_web/js/viewer/svgRenderer.js:33-85 | an invalid section gives the placeholder alone; a valid one gives outline, inner edges, haunches, girders, leaders, anti-float slab, ground, groundwater and dimensions, in that order; the bundled renderer (app.bundle.js:369-392) draws the anti-float slab straight after the outline instead |
| Dxf.DxfWriter.constructor | esc_culvert_web/js/app.bundle.js:1765-1769 | a new writer has no entities, no added layers and draws on layer "0" |
| Dxf.DxfWriter.AddLayer | esc_culvert_web/js/app.bundle.js:1771-1773 | appends the layer to the added layers and changes nothing else |
| Dxf.DxfWriter.SetLayer | esc_culvert_web/js/app.bundle.js:1775-1777 | makes the named layer current and changes nothing else |
| Dxf.DxfWriter.DrawLine | esc_culvert_web/js/app.bundle.js:1779-1781 | appends one line on the current layer and changes nothing else |
| Dxf.DxfWriter.DrawPolyline | esc_culvert_web/js/app.bundle.js:1783-1785 | appends one polyline with its points and closed flag on the current layer and changes nothing else |
| Dxf.DxfWriter.DrawText | esc_culvert_web/js/app.bundle.js:1787-1789 | appends one text with its height and rotation on the current layer and changes nothing else |
| Dxf.DxfWriter.ToDxfString | esc_culvert_web/js/app.bundle.js:1791-1848 | the file is the header, the line-type, layer and style tables, then every entity in drawing order, then the trailer |
| Dxf.LayerTableGroups | esc_culvert_web/js/app.bundle.js:1808-1815 | the layer loop writes the table head and one record per added layer, in order |
| Dxf.EntitiesToGroups | esc_culvert_web/js/app.bundle.js:1826-1845 | the entity loop writes the groups of every entity, in order |
| Dxf.EntityToGroups | esc_culvert_web/js/app.bundle.js:1827-1844 | one entity's groups: a line with its two ends, a polyline with one VERTEX per point, a text with its height, rotation and value |
| Dxf.LayerTableCount | esc_culvert_web/js/app.bundle.js:1808-1815 | the LAYER table declares one entry more than the added layers and holds exactly that many records |
| Dxf.LayerTableDeclares | esc_culvert_web/js/app.bundle.js:1809 | the count the LAYER table declares is the number of added layers plus one |
| Dxf.LayerTableRecords | esc_culvert_web/js/app.bundle.js:1809-1815 | the LAYER table holds one record for layer 0 and one per added layer |
| Dxf.TextRotationGroup | esc_culvert_web/js/app.bundle.js:1837-1844 | a text carries a rotation group (code 50) exactly when its rotation is not zero |
| Dxf.PolylineShape | esc_culvert_web/js/app.bundle.js:1831-1836 | a polyline writes one VERTEX per point and its closed flag as group 70 |
| Dxf.FileFrame | esc_culvert_web/js/app.bundle.js:1791-1848 | the file opens the HEADER section and ends with ENDSEC and EOF, whatever was drawn |
| Dxf.DrawingOrder | esc_culvert_web/js/app.bundle.js:1826-1845 | an entity drawn later is written after every entity drawn before it |
| DxfExport.DrawOutline | esc_culvert_web/js/app.bundle.js:1891-1906 | the outline on the OUTER layer: with the slab in use the slab outline and the bottom line, otherwise the closed rectangle |
| DxfExport.DrawSlab | esc_culvert_web/js/app.bundle.js:1947-1962 | one slab outline for each positive extension, none when the slab is not in use |
| DxfExport.DrawCellEdges | esc_culvert_web/js/app.bundle.js:1917-1920 | the four inner edges of one cell, shortened by its haunch legs |
| DxfExport.DrawCompartments | esc_culvert_web/js/app.bundle.js:1908-1924 | the first cell loop draws the inner edges of every cell with the bundle's normalised haunch corners |
| DxfExport.DrawCellEdgesPass | esc_culvert_web/js/app.bundle.js:1911-1924 | one pass of the first cell loop appends the edges of cell `i` and moves the offset to cell `i + 1` |
| DxfExport.DrawDiagonal | esc_culvert_web/js/app.bundle.js:1934-1941 | the diagonal of one haunch corner is drawn only when both of its legs are positive |
| DxfExport.DrawCellDiagonals | esc_culvert_web/js/app.bundle.js:1934-1941 | the diagonals of one cell: upper-left, upper-right, lower-left, lower-right |
| DxfExport.DrawCompartmentDiagonals | esc_culvert_web/js/app.bundle.js:1926-1945 | the second cell loop draws the haunch diagonals of every cell |
| DxfExport.DrawCellDiagonalsPass | esc_culvert_web/js/app.bundle.js:1928-1945 | one pass of the second cell loop appends the diagonals of cell `i` and moves the offset to cell `i + 1` |
| DxfExport.DrawGround | esc_culvert_web/js/app.bundle.js:1964-1978 | with earth cover, the ground line and its hatch on the GROUND layer; otherwise nothing, and the layer is unchanged |
| DxfExport.DrawWaterMark | esc_culvert_web/js/app.bundle.js:1989-1994 | one water symbol: the level line and the three sides of the triangle |
| DxfExport.DrawWater | esc_culvert_web/js/app.bundle.js:1980-2002 | with a positive water level and a positive earth cover, the two water symbols on the WATER layer; otherwise nothing |
| DxfExport.DrawDimH | esc_culvert_web/js/app.bundle.js:2104-2117 | a horizontal dimension: two extension lines, the dimension line and an unrotated label |
| DxfExport.DrawDimV | esc_culvert_web/js/app.bundle.js:2120-2133 | a vertical dimension: two extension lines, the dimension line and a label rotated by 90 |
| DxfExport.DrawLeadDims | esc_culvert_web/js/app.bundle.js:2014-2021 | total width, total height on the outer tier, clear height |
| DxfExport.DrawSlabWallDims | esc_culvert_web/js/app.bundle.js:2034-2044 | top slab, bottom slab, left wall, right wall |
| DxfExport.DrawCellWidthDims | esc_culvert_web/js/app.bundle.js:2023-2032 | the width of every cell, above the top slab |
| DxfExport.DrawCellWidthDim | esc_culvert_web/js/app.bundle.js:2025-2032 | one pass of the cell-width loop appends the width dimension of cell `i` and moves the offset to cell `i + 1` |
| DxfExport.DrawWallDimAfterCell | esc_culvert_web/js/app.bundle.js:2049-2056 | one pass of the wall loop moves past cell `i` and appends the thickness dimension of wall `i` when it exists |
| DxfExport.DrawWallDims | esc_culvert_web/js/app.bundle.js:2046-2057 | the thickness of every middle wall, above the top slab |
| DxfExport.DrawAntiFloatDims | esc_culvert_web/js/app.bundle.js:2059-2065 | the extension and slab-thickness dimensions, both only when the left extension is positive |
| DxfExport.DrawGroundDims | esc_culvert_web/js/app.bundle.js:2067-2077 | the earth cover on the outer tier and, when it is also positive, the groundwater depth |
| DxfExport.DrawDimensions | esc_culvert_web/js/app.bundle.js:2004-2077 | every dimension of the export's plan, in drawing order, on the DIMENSION layer |
| DxfExport.ExportDxf | esc_culvert_web/js/app.bundle.js:1865-2091 | a section without a positive clear height or without cells is rejected and nothing is written; otherwise the file of the whole drawing |
| DxfExport.DimensionMatchesView | esc_culvert_web/js/app.bundle.js:2104-2133 | each CAD dimension draws the same extension lines and dimension line as the view's dimension helpers; its label is 150 beyond the dimension line and turned for a vertical dimension |
| DxfExport.ExportPlanMatchesView | esc_culvert_web/js/app.bundle.js:2059-2065 | the export draws the view's dimension plan exactly when the slab is off or its left extension and thickness are both positive or both not |
| DxfExport.SlabMatchesView | esc_culvert_web/js/app.bundle.js:1947-1962 | the slab outlines are the view's, point for point, and stay open |
| DxfExport.OutlineMatchesView | esc_culvert_web/js/app.bundle.js:1891-1906 | the outline has the view's points; the plain rectangle is also closed by its flag |
| DxfExport.GroundMatchesView | esc_culvert_web/js/app.bundle.js:1964-1978 | the ground line and hatch are the view's, segment for segment |
| DxfExport.WaterNeedsEarthCover | esc_culvert_web/js/app.bundle.js:1980-2002 | the export draws the eight water lines only when both the level and the earth cover are positive; the view needs only a positive level |
| DxfExport.EntitiesOnDeclaredLayers | esc_culvert_web/js/app.bundle.js:1884-1889 | every exported entity lies on one of the layers declared in the LAYER table |
| DxfModule.GenerateDxf | esc_culvert_web/js/utils/dxfExport.js:31-141 | the file is the fixed header and three-layer table, the outline, one rectangle per cell at the running offset, the overall dimensions, one width dimension per cell, the slab and wall dimensions, then the trailer |
| DxfModule.AppendCellRects | esc_culvert_web/js/utils/dxfExport.js:89-105 | the first scan appends one INNER rectangle per cell, in cell order |
| DxfModule.AppendWidthDimsUpTo | esc_culvert_web/js/utils/dxfExport.js:115-124 | the second scan appends one width dimension per cell above the outline, in cell order |
| DxfModule.ExportModuleDxf | esc_culvert_web/js/utils/dxfExport.js:6-28 | a section `validateData` rejects (no positive clear height or no cells) produces no file; any other produces the file of `generateDXF` |
| DxfModule.LwPolylineShape | esc_culvert_web/js/utils/dxfExport.js:163-175 | a light-weight polyline declares as many vertices as it lists and lists every point in order |
| DxfModule.DimensionShape | esc_culvert_web/js/utils/dxfExport.js:178-203 | a dimension is a LINE followed by a TEXT, and the text carries the rotation group exactly when it is vertical |
| DxfModule.ModuleLayerCount | esc_culvert_web/js/utils/dxfExport.js:47-73 | the LAYER table holds exactly three LAYER records |
| DxfModule.ModuleLayerNames | esc_culvert_web/js/utils/dxfExport.js:49-71 | the table declares a count of 3 and its records name OUTER, INNER and DIMENSION, in that order |
| DxfModule.ModuleFileFrame | esc_culvert_web/js/utils/dxfExport.js:36-41 | the file opens with the HEADER section naming AutoCAD 2000 and closes with ENDSEC and EOF |
| DxfModule.CellRectsFollowScan | esc_culvert_web/js/utils/dxfExport.js:91-105 | each cell rectangle is closed by repeating its first point, spans the clear height above the bottom slab, and the next starts past this cell and its wall |
| DxfModule.RectangleMatchesViewEdges | esc_culvert_web/js/utils/dxfExport.js:93-100 | for a cell without haunches the rectangle's four sides are the section view's four inner edges, in the same order and direction; with haunches each view edge lies on the matching side |
| PyDxf.Trunc | utils.py:591-607 | Python's `int()` of a float truncates toward zero: the result is within one of the value, on the side of zero |
| PyDxf.GirderEntities | utils.py:544-565 | girder box lines are dashed and the X-bracing lines are not, one entity per girder line in order |
| PyDxf.LeadersMatchView | utils.py:569-609 | the prototype draws one leader per column wall, wall by wall, starting at the same point, reaching the same `x` and carrying the same (truncated) numbers as the web view's leaders |
| PyDxf.PyLeadersMatchView | utils.py:569-572 | the prototype and the web view draw leaders under the same conditions: girder data and at least one middle wall |
| PyDxf.CreateCulvertDxf | utils.py:398-812 | no section data leaves the model space empty; otherwise the passes append outline, inner edges, diagonals, girders, leaders, slab, ground, water and dimensions, in that order |
| PyDxf.AddStructure | utils.py:458-622 | the structure passes: outline, inner edges, diagonals, girders, leaders, slab |
| PyDxf.AddSurroundings | utils.py:624-810 | the ground, water and dimension passes, a missing ground record counting as zero cover and level |
| PyDxf.AddOutline | utils.py:458-473 | with the slab in use and extended, the wall profile stopping at the slab top plus a bottom line; otherwise the closed rectangle |
| PyDxf.AddCellEdges | utils.py:487-490 | the four inner edges of one cell: bottom, right, top, left, each shortened by the adjacent haunch legs |
| PyDxf.AddInnerEdges | utils.py:475-494 | the first cell scan appends the four inner edges of every cell |
| PyDxf.EdgesPass | utils.py:477-494 | one pass of the first scan appends the edges of cell `i` and moves the offset to cell `i + 1` |
| PyDxf.AddCellDiagonals | utils.py:507-514 | the diagonals of one cell, each only when both legs of its corner are positive |
| PyDxf.AddDiagonals | utils.py:496-518 | the second cell scan appends the haunch diagonals of every cell |
| PyDxf.DiagonalsPass | utils.py:498-518 | one pass of the second scan appends the diagonals of cell `i` and moves the offset to cell `i + 1` |
| PyDxf.AddWallGirders | utils.py:536-565 | one column wall's girders: an upper box, a lower box, and the X-bracing when the column top is above its bottom |
| PyDxf.AddCellGirders | utils.py:533-567 | after cell `i` the scan appends the girders of wall `i` exactly when it is a column wall |
| PyDxf.AddGirdersUpTo | utils.py:532-567 | the girder scan over all cells once the added heights are known |
| PyDxf.GirderScanStep | utils.py:533-567 | one turn of the girder scan moves past cell `i`, appends its wall's girders and moves past that wall |
| PyDxf.AddGirders | utils.py:520-567 | girders only with girder data, a middle wall and a positive additional height |
| PyDxf.AddLeader | utils.py:584-608 | one leader: the line 800 long from the wall face, the tick, the CTC and width texts with their numbers truncated |
| PyDxf.AddLeaders | utils.py:569-609 | the leader scan appends one leader per column wall |
| PyDxf.LeaderPass | utils.py:576-609 | one pass of the leader scan moves past cell `i` and appends the leader of its wall when that is a column wall |
| PyDxf.AddSlabs | utils.py:611-622 | one slab outline per positive extension, only with the slab in use |
| PyDxf.AddHatch | utils.py:634-640 | the hatch loop starts 200 right of the line's left end and steps by 400 while it stays at or before the right end |
| PyDxf.AddGround | utils.py:624-640 | with earth cover, the ground line widened by 500 each side, and its hatch; otherwise nothing |
| PyDxf.AddWater | utils.py:642-669 | with a positive groundwater level and earth cover, the level line and triangle on each side; otherwise nothing |
| PyDxf.AddDims | utils.py:671-810 | the dimension pass with its two cell scans, in the source's order |
| PyDxf.AddCellDims | utils.py:707-719 | one width dimension per cell above the top |
| PyDxf.CellDimPass | utils.py:709-719 | one pass of the width scan appends the width of cell `i` and moves the offset to cell `i + 1` |
| PyDxf.AddWallDims | utils.py:755-768 | one thickness dimension per middle wall above the top, only when middle walls exist |
| PyDxf.WallDimPass | utils.py:758-768 | one pass of the wall scan moves past cell `i` and appends the thickness of its wall when it has one |
| PyDxf.SlabProfileStopsAtLT | utils.py:458-466 | with the slab used and extended the wall profile stops at `LT` and every slab outline point lies between the bottom and `LT`, whatever thickness the slab records |
| PyDxf.ProfileMatchesBundleOnlyAtLT | utils.py:458-466 | the Python and bundled exporters draw the same wall profile exactly when the recorded slab thickness equals `LT` |
| PyDxf.PyInnerEdgeAt | utils.py:475-494 | four inner lines per drawn cell; line `4i + k` is edge `k` of cell `i`, shortened by the Python corner haunches |
| PyDxf.PyGirdersNeedColumns | utils.py:520-524 | girder lines need girder data, a middle wall and a positive additional height; continuous walls get none |
| PyDxf.PyWaterNeedsBoth | utils.py:642-644 | water lines appear only with both a positive groundwater level and a positive earth cover: eight of them |
| PyDxf.PyWaterMatchesBundle | utils.py:651-669 | the Python water symbols are line for line the bundled export's |
| PyDxf.PyHatchCount | utils.py:634-640 | with the line at least 200 long there are `floor((lineRight - lineLeft - 200) / 400) + 1` hatch marks, each 200 down-left of its start, the last starting at most at the right end |
| PyDxf.CellDimAt | utils.py:707-719 | the width scan gives one dimension per cell, the `i`-th for cell `i` |
| PyDxf.PyCellDimsMatchView | utils.py:707-719 | each Python cell-width dimension measures the same span and value as the section view's |
| PyDxf.PyDrawingStartsWithOutline | utils.py:427-473 | no section data gives no entities; with data the outline always comes first |
| Report.WallsWith | esc_culvert_web/js/forms/buoyancyCheck.js:185-193 | one report wall per middle wall, each with its own haunch or the default one |
| Report.Weight | esc_culvert_web/js/forms/buoyancyCheck.js:126-131 | a shape of area `A` mm² weighs `24.5 · A / 10^6` kN/m |
| Report.Entries | esc_culvert_web/js/forms/buoyancyCheck.js:123-131 | one report line per shape; the k-th shape is `No.k` and carries its own weight |
| Report.AddPiece | esc_culvert_web/js/forms/buoyancyCheck.js:127-131 | `shapeNo++; totalWeight += weight`: one more numbered line and the total grows by its weight |
| Report.AddRect | esc_culvert_web/js/forms/buoyancyCheck.js:126-136 | a rectangle is numbered and weighed by its full area |
| Report.AddTriangle | esc_culvert_web/js/forms/buoyancyCheck.js:153-163 | a triangle with a leg that is not positive adds nothing; otherwise it is numbered and weighed by half the leg product |
| Report.AddTwinTriangle | esc_culvert_web/js/forms/buoyancyCheck.js:165-175 | both haunch triangles of a middle wall under one number, weighed by the full leg product |
| Report.AddWall | esc_culvert_web/js/forms/buoyancyCheck.js:194-234 | a continuous wall is one rectangle; a column wall gives the upper and lower girder and, with a positive clear height and spacing, the column body weighed per metre by `colWidth / ctc` |
| Report.ColumnWallPieces | esc_culvert_web/js/forms/buoyancyCheck.js:229-233 | a column wall has three pieces exactly when its clear height and the spacing are positive, otherwise only the two girders |
| Report.AddWalls | esc_culvert_web/js/forms/buoyancyCheck.js:184-235 | the middle-wall loop numbers and weighs every middle wall's pieces, in wall order |
| Report.WallLoopStep | esc_culvert_web/js/forms/buoyancyCheck.js:185-235 | one turn of the middle-wall loop adds the pieces of wall `i` |
| Report.AddMiddleHaunches | esc_culvert_web/js/forms/buoyancyCheck.js:252-265 | the middle-wall haunch loop adds the upper then the lower twin triangle of each wall |
| Report.HaunchLoopStep | esc_culvert_web/js/forms/buoyancyCheck.js:253-265 | one turn of the haunch loop adds the twin triangles of wall `i` |
| Report.AddOuterHaunches | esc_culvert_web/js/forms/buoyancyCheck.js:244-250 | an outer wall's upper and lower haunch triangles, each only when both legs are positive |
| Report.WeighWalls | esc_culvert_web/js/forms/buoyancyCheck.js:177-238 | section 3 up to and including the right wall |
| Report.WeighHead | esc_culvert_web/js/forms/buoyancyCheck.js:177-182 | the top slab, the bottom slab and the left wall are the first three lines |
| Report.WeighHaunches | esc_culvert_web/js/forms/buoyancyCheck.js:240-273 | the haunch triangles after the walls: left wall, middle walls, right wall |
| Report.AddSlab | esc_culvert_web/js/forms/buoyancyCheck.js:275-284 | the anti-float slab last, only when it is in use |
| Report.WeighShapes | esc_culvert_web/js/forms/buoyancyCheck.js:117-291 | section 3: every shape numbered and weighed, and the total self-weight Wc |
| Report.Verdict | esc_culvert_web/js/forms/buoyancyCheck.js:294-370 | soil weight, uplift head and force, resistance `Wc + soil`, a safety factor only with uplift, and O.K. when there is no uplift or the factor reaches 1.20 |
| Report.FactorMeetsRequirement | esc_culvert_web/js/forms/buoyancyCheck.js:346-356 | for a positive uplift, comparing the ratio with 1.20 is comparing the resistance with 1.20 times the uplift |
| Report.GenerateBuoyancyReport | esc_culvert_web/js/forms/buoyancyCheck.js:26-370 | the numbered shapes, the total self-weight and the sections 4 to 6 figures of the report |
| Report.EntriesNumbered | esc_culvert_web/js/forms/buoyancyCheck.js:123-131 | line `k` of the report is shape `k`, numbered `k + 1` with that shape's weight |
| Report.ReportNumbering | esc_culvert_web/js/forms/buoyancyCheck.js:117-291 | the shapes are numbered 1, 2, 3, … in decomposition order, each weighed as `24.5 · area / 10^6`, and Wc is the sum of those weights |
| Report.WallPiecesMeasured | esc_culvert_web/js/forms/buoyancyCheck.js:194-234 | every middle-wall piece is sized as its rectangle, girder or per-metre column body |
| Report.MiddleHaunchPiecesMeasured | esc_culvert_web/js/forms/buoyancyCheck.js:252-265 | every middle-wall haunch piece has the full leg product as area |
| Report.ReportPiecesMeasured | esc_culvert_web/js/forms/buoyancyCheck.js:117-284 | every numbered shape of the report is sized and weighed as its kind says |
| Report.UpliftFacts | esc_culvert_web/js/forms/buoyancyCheck.js:305-332 | a water table at or below the underside gives no head and no uplift; one above it, under a positive bottom width, always gives uplift |
| Report.VerdictMeaning | esc_culvert_web/js/forms/buoyancyCheck.js:334-370 | a safety factor exists exactly when there is uplift, and then the check is O.K. exactly when it reaches 1.20; without uplift the check is O.K. |
| Report.VerdictOf | esc_culvert_web/js/forms/buoyancyCheck.js:346-365 | the factor and verdict as computed from a resistance and an uplift mean what the report prints |
| Report.ReportOutlineMatchesSection | buoyancy_check.py:81-86 | the Python report always uses the section's own total width and height; the JavaScript report does when no wall or slab is zero |
| Report.JsAndPythonReportsAgree | buoyancy_check.py:41-79 | the JavaScript and Python reports agree whenever no value is zero; a zero earth cover is reported as 2000 by JavaScript and kept as 0 by Python |
| BuoyShapes.Marks | esc_culvert_web/js/viewer/svgRenderer.js:770-779 | one mark per figure: a labelled figure takes the next number, an unlabelled triangle keeps the current one, an outline none |
| BuoyShapes.MarkAt | esc_culvert_web/js/viewer/svgRenderer.js:746-779 | the k-th figure carries the number of labelled figures up to and including it |
| BuoyShapes.NumbersConsecutive | esc_culvert_web/js/viewer/svgRenderer.js:746-779 | whatever is drawn, the numbers written on the labelled figures are 1, 2, 3, … in order |
| BuoyShapes.LabelledSizes | esc_culvert_web/js/viewer/svgRenderer.js:746-779 | one size per numbered figure, in order |
| BuoyShapes.HeadSizes | esc_culvert_web/js/viewer/svgRenderer.js:792-794 | the top slab, bottom slab and left wall figures have the sizes of the report's first three shapes |
| BuoyShapes.OutlinesUnnumbered | esc_culvert_web/js/viewer/svgRenderer.js:781-789 | the overall outline and the cell outlines carry no number |
| BuoyShapes.ColumnSizes | esc_culvert_web/js/viewer/svgRenderer.js:805-811 | a column wall's girder boxes and column box have the sizes of the report's girders and column body when the report has a body |
| BuoyShapes.WallSizes | esc_culvert_web/js/viewer/svgRenderer.js:797-814 | every middle wall's figures have the sizes of that wall's report shapes |
| BuoyShapes.MiddleWallSizes | esc_culvert_web/js/viewer/svgRenderer.js:797-814 | the middle-wall figures of all drawn cells have the sizes of all the report's middle-wall shapes, in order |
| BuoyShapes.BodySizes | esc_culvert_web/js/viewer/svgRenderer.js:792-816 | slab, wall and column figures have the sizes of the report's body shapes, in order |
| BuoyShapes.CornerSizes | esc_culvert_web/js/viewer/svgRenderer.js:820-822 | a numbered haunch triangle has the legs of the report's triangle for that corner |
| BuoyShapes.OuterSizes | esc_culvert_web/js/viewer/svgRenderer.js:818-822 | an outer wall's haunch triangles, each drawn only with both legs positive, match the report's |
| BuoyShapes.PairSizes | esc_culvert_web/js/viewer/svgRenderer.js:830-844 | one numbered triangle per middle-wall haunch pair; the mirrored twin adds no size of its own |
| BuoyShapes.MiddleHaunchSizes | esc_culvert_web/js/viewer/svgRenderer.js:825-848 | the middle-wall haunch pairs of all drawn cells have the sizes of the report's twin triangles, in order |
| BuoyShapes.HaunchSizes | esc_culvert_web/js/viewer/svgRenderer.js:818-853 | all haunch figures (left, middle, right) have the sizes of the report's haunch shapes, in order |
| BuoyShapes.SlabSizes | esc_culvert_web/js/viewer/svgRenderer.js:855 | the anti-float slab figure has the size of the report's slab shape |
| BuoyShapes.DrawingMatchesReport | esc_culvert_web/js/viewer/svgRenderer.js:791-855 | the numbered figures of the drawing are the report's shapes, in order, with their sizes, when every middle wall lies in a drawn cell, column walls have a spacing and a slab in use has a thickness |
| BuoyShapes.DrawingLabelsReportEntries | esc_culvert_web/js/viewer/svgRenderer.js:791-855 | the k-th number written in the drawing is the number of the report's k-th line, on a figure of that line's sizes |
| BuoyShapes.PairMirrors | esc_culvert_web/js/viewer/svgRenderer.js:830-844 | in each haunch pair the mirror follows its numbered twin with the same legs |
| BuoyShapes.FiguresMirrorsPaired | esc_culvert_web/js/viewer/svgRenderer.js:781-855 | every unlabelled triangle of the drawing directly follows its numbered twin |
| BuoyShapes.MirrorNumbers | esc_culvert_web/js/viewer/svgRenderer.js:832-835 | a mirror written after its twin shows the twin's number |
| BuoyShapes.DrawingMirrors | esc_culvert_web/js/viewer/svgRenderer.js:825-848 | in the drawing, the right-hand triangle of every middle-wall haunch pair follows its numbered left twin, has the same legs and shows the same number (`curNo`) |
| BuoyDraw.AddOutline | esc_culvert_web/js/viewer/svgRenderer.js:781-789 | an outline is drawn without a number and leaves the count unchanged |
| BuoyDraw.AddRect | esc_culvert_web/js/viewer/svgRenderer.js:746-757 | a solid rectangle takes the next number |
| BuoyDraw.AddRectDashed | esc_culvert_web/js/viewer/svgRenderer.js:759-768 | a dashed rectangle (a column body) takes the next number |
| BuoyDraw.AddTri | esc_culvert_web/js/viewer/svgRenderer.js:770-779 | a labelled triangle takes the next number; an unlabelled one shows the current number |
| BuoyDraw.DrawOutlines | esc_culvert_web/js/viewer/svgRenderer.js:781-789 | the outer outline, then one outline per drawn cell, the offset advancing by the cell width and the wall thickness (a missing thickness read as 0) |
| BuoyDraw.DrawWall | esc_culvert_web/js/viewer/svgRenderer.js:800-813 | one middle wall: a wall rectangle, or two girders and, when the column top is above its bottom, a dashed column body |
| BuoyDraw.DrawWallCell | esc_culvert_web/js/viewer/svgRenderer.js:797-814 | one drawn cell of the wall pass: the wall after it, and the offset past the cell and its wall |
| BuoyDraw.DrawMiddleWalls | esc_culvert_web/js/viewer/svgRenderer.js:796-815 | the middle walls, cell by cell, in order |
| BuoyDraw.DrawBody | esc_culvert_web/js/viewer/svgRenderer.js:791-816 | slabs, left wall, middle walls, right wall, in the report's order |
| BuoyDraw.DrawOuterHaunch | esc_culvert_web/js/viewer/svgRenderer.js:818-822 | an outer wall's haunch triangles, each drawn and numbered only when both legs are positive |
| BuoyDraw.DrawPair | esc_culvert_web/js/viewer/svgRenderer.js:827-846 | a middle wall's upper then lower haunch pair: a numbered triangle on the left face, then its mirror on the right face under the same number |
| BuoyDraw.DrawUpperPair | esc_culvert_web/js/viewer/svgRenderer.js:830-836 | the upper haunch pair of a middle wall, when both legs are positive |
| BuoyDraw.DrawLowerPair | esc_culvert_web/js/viewer/svgRenderer.js:838-844 | the lower haunch pair of a middle wall, when both legs are positive |
| BuoyDraw.DrawPairCell | esc_culvert_web/js/viewer/svgRenderer.js:825-848 | one drawn cell of the haunch-pair pass |
| BuoyDraw.DrawMiddleHaunches | esc_culvert_web/js/viewer/svgRenderer.js:824-849 | the haunch pairs of every middle wall in a drawn cell, in order |
| BuoyDraw.DrawHaunches | esc_culvert_web/js/viewer/svgRenderer.js:818-853 | left wall haunches, middle wall haunch pairs, right wall haunches pointing left from `totalWidth - WR` |
| BuoyDraw.DrawSlab | esc_culvert_web/js/viewer/svgRenderer.js:855 | the anti-float slab, drawn only when in use with a positive thickness |
| BuoyDraw.DrawShapes | esc_culvert_web/js/viewer/svgRenderer.js:781-855 | the whole numbered drawing: the outlines, then the shapes in the report's order, each figure carrying the number of labelled figures drawn up to it |
| BuoyDraw.DrawingsAgree | buoyancy_check.py:453-716 | the web and DXF drawings are the same figures with the same numbers whenever no middle wall has a zero thickness and the cell count is not zero |
| BuoyDraw.DrawingsDifferOnZeroThickness | buoyancy_check.py:600-633 | a zero middle-wall thickness is drawn 600 wide by the web viewer and 0 wide by the prototype |
| BuoyDraw.RenderBuoyancyShapes | esc_culvert_web/js/viewer/svgRenderer.js:706-855 | a section that fails `validateData` gets the placeholder and no numbered figure; otherwise the numbered drawing of `culvert_count` cells, or as many as there are widths when the count is missing or zero |
| BuoyDraw.CreateBuoyancyShapesDxf | buoyancy_check.py:453-818 | no section gives an empty drawing and no dimension; any section is drawn as given, without validation, numbered 1, 2, ... and then dimensioned |
| BuoyDraw.AddShapeDims | buoyancy_check.py:720-816 | the dimensions after the shapes: total width, total height right of the slab, `H`, `UT` and `LT` left of it, each cell width, `WL`, `WR`, each middle wall when there are any, the slab's left extension and thickness when positive |
| BuoyDraw.ShapeCellDimsSpanFrames | buoyancy_check.py:763-774 | the width dimension of cell `i` spans exactly that cell's outline and measures `B[i]` |
| BuoyDraw.ShapeWallDimsCount | buoyancy_check.py:790-802 | one wall dimension for each drawn cell that has a middle wall after it |
| BuoyDraw.ShapeDimsCount | buoyancy_check.py:720-816 | seven dimensions always, plus one per drawn cell, one per middle wall in a drawn cell and one per positive slab extension or thickness |
| BuoyFindings.JsGirdersTallerInReport | esc_culvert_web/js/forms/buoyancyCheck.js:45-46 | as written: with no additional heights given, each column wall's girders are 200 higher in the report than the girders drawn under the same numbers |
| BuoyFindings.JsDefaultColumnGirder | esc_culvert_web/js/forms/buoyancyCheck.js:45-46 | on the default section with a column wall, girder No.4 is 350 high in the report and drawn 150 high |
| BuoyFindings.JsSlabNumberedNotDrawn | esc_culvert_web/js/forms/buoyancyCheck.js:55 | as written: a slab in use with zero thickness is numbered 300 thick in the report and not drawn |
| BuoyFindings.JsFixedReportIsDrawn | esc_culvert_web/js/viewer/svgRenderer.js:727-739 | the corrected report, reading missing heights and thickness as the drawing does, cuts exactly the drawn section |
| BuoyFindings.JsFixedReportNumbersDrawing | esc_culvert_web/js/viewer/svgRenderer.js:791-855 | the web drawing labels exactly the corrected report's lines |
| BuoyFindings.PyTableGirdersTallerInReport | buoyancy_check.py:61-62 | as written: the table widget never records girder data, so the Python report numbers each column wall's girders 200 higher than the DXF drawing draws them |
| BuoyFindings.PyFixedReportIsDrawn | buoyancy_check.py:482-483 | the corrected Python report, reading a missing girder record as zero heights, cuts exactly the drawn section |
| BuoyFindings.PyFixedReportNumbersDrawing | buoyancy_check.py:587-716 | the DXF drawing labels exactly the corrected report's lines |
| BuoyFindings.PyFixedReportKeepsGivenGirder | buoyancy_check.py:58-62 | the corrected report differs from the written one only where no girder record is given |
| Store.Calls | esc_culvert_web/js/state.js:211-215 | one call per registered callback, in registration order, each carrying the event and its payload |
| Store.RemoveSpec | esc_culvert_web/js/state.js:204-208 | filtering out a callback removes every registration of it and keeps every other callback with its multiplicity; an unregistered callback leaves the list as it was |
| Store.ResizedSpec | esc_culvert_web/js/state.js:157-177 | cutting or padding an array to length n keeps the common prefix, fills the tail with the pad value, is idempotent and is the identity on an array already n long |
| Store.Resize | esc_culvert_web/js/state.js:157-161 | the push-while-short loop followed by the length truncation yields exactly the resized array |
| Store.Clamp | esc_culvert_web/js/state.js:154 | the count lies in 1..10, equals the request when it already does, and is 1 below and 10 above |
| Store.CulvertCountSpec | esc_culvert_web/js/state.js:152-186 | the section is shaped (count widths, count-1 walls and count-1 middle-wall haunches), the old prefixes are kept, padding is 4000, a 600 continuous wall and 150 x 150 corners, no other field changes and a repeat changes nothing |
| Store.DefaultSectionShaped | esc_culvert_web/js/state.js:4-61 | the default section has three cells and is already the shape a count of three gives |
| Store.Unsupplied | esc_culvert_web/js/state.js:226 | a group stays the defaults' own object exactly when the loaded data does not supply it |
| Store.AssignChangesOnlyKey | esc_culvert_web/js/state.js:137-138 | writing one key of the section changes the value read at that key and no other |
| Store.MergeOverrides | esc_culvert_web/js/state.js:143 | after a shallow merge each key reads the supplied value when the data has it and the old value otherwise |
| Store.MergeEmpty | esc_culvert_web/js/state.js:143 | merging an object with no keys leaves the section as it was |
| Store.StateStore.constructor | esc_culvert_web/js/state.js:64-71 | the state starts as a copy of the defaults, every known event has an empty listener list and nothing has been notified |
| Store.StateStore.On | esc_culvert_web/js/state.js:197-201 | an unknown event name is ignored; a known one gets the callback appended; nothing else changes |
| Store.StateStore.Off | esc_culvert_web/js/state.js:204-208 | the listener list of a known event loses every registration of the callback; nothing else changes |
| Store.StateStore.Emit | esc_culvert_web/js/state.js:211-215 | the call log grows by exactly one call per registered callback of the event, in order; the state is unchanged |
| Store.StateStore.SetCurrentMenu | esc_culvert_web/js/state.js:87-90 | only the current menu changes, then the menu listeners are called with it |
| Store.StateStore.Set | esc_culvert_web/js/state.js:81-84 | the state becomes the top-level spread of the patch over it, supplied groups stop sharing with the defaults, and the state listeners are called |
| Store.StateStore.UpdateGroundInfo | esc_culvert_web/js/state.js:127-130 | one ground key is written; while the ground group is still the defaults' object, the defaults change with it |
| Store.StateStore.UpdateSectionData | esc_culvert_web/js/state.js:137-140 | one section key is written and nothing else in the state; the write reaches the defaults while the record is theirs; the section listeners see the new record |
| Store.StateStore.SetSectionData | esc_culvert_web/js/state.js:142-145 | the section becomes the shallow merge of the data over it, the record stops being shared, the haunch record stays shared unless the data replaces it |
| Store.StateStore.SetCulvertCount | esc_culvert_web/js/state.js:152-186 | the section becomes the resized section for the clamped count, which is shaped; the in-place writes reach the defaults while the record is shared; the section listeners are called once |
| Store.StateStore.WriteCounted | esc_culvert_web/js/state.js:178-183 | the count, the widths, the walls and the middle-wall haunches are written into the record, and into the defaults where they are shared |
| Store.StateStore.Reset | esc_culvert_web/js/state.js:189-194 | the state becomes a fresh copy of the current defaults with nothing shared, then the state, section and menu listeners are called in that order |
| Store.StateStore.NotifyAll | esc_culvert_web/js/state.js:191-193 | the log grows by the state, section and menu notifications, in that order, and nothing else changes |
| Store.StateStore.FromJson | esc_culvert_web/js/state.js:223-235 | as written: a parse failure answers false and changes nothing; success answers true, spreads the data over the defaults and leaves every group the data lacks shared with the defaults |
| Store.StateStore.FromJsonCopy | esc_culvert_web/js/state.js:223-235 | corrected: the same answers and state, spread over a copy of the defaults, so that nothing is shared |
| Store.ResetAfterLoadKeepsEdit | esc_culvert_web/js/state.js:223-226 | as written: loading data without a section, editing the clear height to 5000 and resetting leaves 5000 rather than the default 4200 |
| Store.ResetAfterCopyingLoadRestores | esc_culvert_web/js/state.js:189-194 | with the copying load, the same steps end with the default height 4200 |
| SectionForm.CountFromInput | esc_culvert_web/js/forms/sectionProperties.js:27 | the count is in 1..10; input that does not parse, and zero, give 1; values in range pass unchanged; larger ones give 10 and negative ones 1 |
| SectionForm.InputNumber | esc_culvert_web/js/forms/sectionProperties.js:149 | input that does not parse reads as 0, anything else as its value |
| SectionForm.EditTouchesOnlyItsEntry | esc_culvert_web/js/forms/sectionProperties.js:146-196 | a width edit changes only that width; a wall edit changes only the named field of an existing wall and nothing for a missing one; the count and the array lengths never change |
| SectionForm.HandleInputChange | esc_culvert_web/js/forms/sectionProperties.js:146-196 | the store's section becomes the edited section and the listeners are kept |
| SectionForm.HandleCountChange | esc_culvert_web/js/forms/sectionProperties.js:26-29 | the store's section becomes the section resized to the parsed and clamped count, which is shaped |
| SectionForm.ShownValues | esc_culvert_web/js/forms/sectionProperties.js:40-110 | the table shows one width per cell and one wall per middle wall, whatever the stored arrays' lengths |
| SectionForm.ShownTableIsResizedSection | esc_culvert_web/js/forms/sectionProperties.js:91-103 | the shown values are the values the store's count change would give (missing widths 4000, missing walls a 600 continuous wall), and a shaped section shows its own values |
| SectionForm.EditHaunch | esc_culvert_web/js/app.bundle.js:1606-1617 | the edited wall keeps its presence and the number of middle walls is unchanged |
| SectionForm.HaunchEditSpec | esc_culvert_web/js/app.bundle.js:1606-1617 | a left-wall edit sets the same leg of both outer walls; a right or middle edit leaves the left wall alone; every other leg and wall is unchanged |
| SectionForm.HandleHaunchEdit | esc_culvert_web/js/app.bundle.js:1598-1620 | the store's haunch becomes the edited copy of the normalised haunch record |
| SectionForm.ZeroLegUndoneByNextEdit | esc_culvert_web/js/app.bundle.js:1538-1560 | a leg set to zero is stored as zero but reads back as 150 after the next edit of any other leg |
| SectionTable.TotalCols | esc_culvert_table_widget.py:307-311 | for n cells the table has 3n + 4 columns |
| SectionTable.ColumnsPartitionRow | esc_culvert_table_widget.py:719-743 | the right-wall column is the last column, every width and wall column lies inside the table, and no two fields share a column |
| SectionTable.Layout | esc_culvert_table_widget.py:384-392 | one cell per column of the table |
| SectionTable.ReadRow | esc_culvert_table_widget.py:719-745 | a read gives widths for every cell and walls for every middle wall, or nothing when a cell does not parse |
| SectionTable.ReadLayoutRoundTrip | esc_culvert_table_widget.py:719-743 | reading back a laid-out row gives the values it was laid out from |
| SectionTable.DefaultValues | esc_culvert_table_widget.py:369-382 | the defaults have a width per cell and a wall per middle wall |
| SectionTable.CreateSectionRow | esc_culvert_table_widget.py:368-392 | the row built cell by cell is the layout of the default values |
| TableWidget.PadTo | esc_culvert_table_widget.py:622-623 | padding never shortens: the old entries stay and every added entry is the pad value |
| TableWidget.KeptSpec | esc_culvert_table_widget.py:602-605 | the rows left after the deletion loop are as many as the unchecked rows, and all of them when nothing is checked |
| TableWidget.AfterDeleteSpec | esc_culvert_table_widget.py:595-613 | after a delete the list is never empty, is labelled 단면1 to 단면k without gaps, and holds the unchecked rows' heights and widths in order |
| TableWidget.CulvertTableWidget.constructor | esc_culvert_table_widget.py:11-50 | 300 x 300 outer-wall haunches and no middle-wall entry, the anti-float defaults (not used, 500, 500, 300), the default three-cell section as the cache, an empty section list and an empty table; no section widget exists yet |
| TableWidget.InitialCacheIsDefault | esc_culvert_table_widget.py:37-49 | the cache set at start-up is the section table's default section for three cells: H 4200, H4 0, three widths of 4000, slabs 600 and 800, outer walls 600, two continuous middle walls of 600 |
| TableWidget.CulvertTableWidget.SetupSectionProperties | esc_culvert_table_widget.py:190-260 | the section widgets exist, the count is 3, the table is the default three-cell row, and the middle-wall haunches are padded to two entries but never cut; the list, the table rows, the cache and the anti-float record are unchanged |
| TableWidget.CulvertTableWidget.UpdateContent | esc_culvert_table_widget.py:117-188 | the section widgets are deleted; the section menu sets them up again, and any other menu sets the table's row count (4, 3, 2, 4 or 1) and writes its column-1 texts into the section list through the item handler |
| TableWidget.MenuRowsLabels | esc_culvert_table_widget.py:153-188 | after the project-information menu the first four list entries are labelled with its four texts; after the basic-environment menu entry 1 is labelled 100년; after an unknown menu entry 0 is labelled with the title; the materials and ground menus leave the list alone |
| TableWidget.NameWritesSpec | esc_culvert_table_widget.py:153-163 | writing texts into column 1 row by row labels the first entries with them, keeps their heights and widths and leaves later entries untouched |
| TableWidget.CulvertTableWidget.CreateHaunchTab | esc_culvert_table_widget.py:427-430 | the middle-wall haunches are padded with 300 x 300 corners to at least count - 1 and never truncated |
| TableWidget.CulvertTableWidget.OnCulvertCountChanged | esc_culvert_table_widget.py:262-283 | a default table for the new count, and exactly count - 1 middle-wall haunches keeping the old prefix and padded with 300 x 300 corners |
| TableWidget.CulvertTableWidget.OnHaunchChanged | esc_culvert_table_widget.py:488-512 | the named leg of the named wall is set, a left-wall edit sets the right wall's leg too, nothing else changes |
| TableWidget.CulvertTableWidget.ReadTable | esc_culvert_table_widget.py:719-743 | the field-by-field read equals the row reader |
| TableWidget.CulvertTableWidget.GetCulvertSectionData | esc_culvert_table_widget.py:694-757 | with live widgets and a readable row, the read section, which also becomes the cache; otherwise the cached section with the live haunch and anti-float records |
| TableWidget.CulvertTableWidget.AddSectionRow | esc_culvert_table_widget.py:575-593 | the table gains one row; the list is padded up to the table's old row count and the entry there becomes the given section, or one labelled after the table row with empty height and width |
| TableWidget.Added | esc_culvert_table_widget.py:575-593 | the list reaches at least the new row and holds the section there |
| TableWidget.AddedInStep | esc_culvert_table_widget.py:589-593 | while the list and the table have the same length, adding a row appends exactly that section |
| TableWidget.CulvertTableWidget.DeleteSelectedRows | esc_culvert_table_widget.py:595-613 | the ticked table rows are removed, the list loses its entries at those rows, the remaining table rows are renumbered (padding the list up to them), and an empty table gets one new row |
| TableWidget.DeleteInStep | esc_culvert_table_widget.py:595-613 | while the list and the table have the same length, the delete leaves the unchecked rows renumbered 단면1 to 단면k, or one new row when none is left, and the two lengths still agree |
| TableWidget.KeptIgnoresBeyond | esc_culvert_table_widget.py:603-605 | only checked rows below the list's length affect the list |
| TableWidget.KeptLength | esc_culvert_table_widget.py:597-605 | the list loses exactly one entry per checked row below its length |
| TableWidget.RenumberFirstSpec | esc_culvert_table_widget.py:607-610 | renumbering the first n rows of a list at least n long relabels row i as 단면{i+1} for i below n and changes nothing else |
| TableWidget.RenumberTable | esc_culvert_table_widget.py:607-610 | the renumbering loop gives the renumbered list |
| TableWidget.ItemWrite | esc_culvert_table_widget.py:616-624 | a write in columns 1 to 3 leaves the list as long as the row needs; any other column leaves it unchanged |
| TableWidget.CulvertTableWidget.OnItemChanged | esc_culvert_table_widget.py:616-624 | for columns 1 to 3 the list is padded up to the row and only that row's label, height or width is written; other columns change nothing |
| TableWidget.DeleteChecked | esc_culvert_table_widget.py:602-605 | deleting the checked rows from last to first leaves exactly the unchecked rows in order |
| TableWidget.PadRows | esc_culvert_table_widget.py:622-623 | the padding loop gives the padded list |
| TableWidget.KeptPrefix | esc_culvert_table_widget.py:602-605 | the survivors of a prefix are a prefix of the survivors of the whole list |
| TableWidget.DeleteStep | esc_culvert_table_widget.py:602-605 | each deletion step extends the processed part by that row exactly when it is unchecked |
| TableWidget.PythonZeroLegSurvives | esc_culvert_table_widget.py:496-503 | the Qt cards keep a zero leg through an edit of a different leg |
| TableWidget.ReadAfterCountChange | esc_culvert_table_widget.py:262-283 | right after a count change the table reads back the default section for that count, which is shaped for the renderers |
| Viewport.Clamp | esc_culvert_web/js/viewer/zoomPan.js:96 | the scale lies within the bounds and is the value itself when it already does |
| Viewport.ZoomAboutCenter | esc_culvert_web/js/viewer/zoomPan.js:174-219 | the centre of the view is fixed and width times scale and height times scale are kept |
| Viewport.WheelZoomKeepsCursorPoint | esc_culvert_web/js/viewer/zoomPan.js:79-131 | the drawing point under the cursor stays under the cursor, and width times scale and height times scale are kept |
| Viewport.ZoomInOutRoundTrip | esc_culvert_web/js/viewer/zoomPan.js:174-219 | zooming in then out returns to the same view and scale when neither step was clamped |
| Viewport.ZoomPan.constructor | esc_culvert_web/js/viewer/zoomPan.js:5-47 | scale 1, not panning, and the attribute adopted as the current and saved view |
| Viewport.ZoomPan.SetAttribute | esc_culvert_web/js/viewer/svgRenderer.js:147 | a new rendering changes the view attribute and none of the controller's fields |
| Viewport.ZoomPan.SaveOriginalViewBox | esc_culvert_web/js/viewer/zoomPan.js:50-62 | a set attribute becomes both the current and the saved view; an unset one changes nothing |
| Viewport.ZoomPan.HandleWheel | esc_culvert_web/js/viewer/zoomPan.js:79-119 | the scale stays within 0.1..10; scrolling down zooms out and up zooms in; an unchanged clamped scale changes nothing further; otherwise the view zooms about the cursor |
| Viewport.ZoomPan.HandleMouseDown | esc_culvert_web/js/viewer/zoomPan.js:134-141 | only the left button starts a pan, recording the cursor and the view origin |
| Viewport.ZoomPan.HandleMouseMove | esc_culvert_web/js/viewer/zoomPan.js:144-159 | no change unless panning; otherwise the origin moves against the drag scaled from screen to drawing units and the size is kept |
| Viewport.ZoomPan.HandleMouseUp | esc_culvert_web/js/viewer/zoomPan.js:162-171 | panning ends and nothing else changes |
| Viewport.ZoomPan.ZoomIn | esc_culvert_web/js/viewer/zoomPan.js:174-195 | the scale grows by the factor up to 10 and the view zooms about its centre |
| Viewport.ZoomPan.ZoomOut | esc_culvert_web/js/viewer/zoomPan.js:198-219 | the scale shrinks by the factor down to 0.1 and the view zooms about its centre |
| Viewport.ZoomPan.FitToView | esc_culvert_web/js/viewer/zoomPan.js:222-229 | the last saved view at scale 1, or no change when none was saved |
| Viewport.ZoomPan.Reset | esc_culvert_web/js/viewer/zoomPan.js:232-236 | scale 1 and the rendered view saved as current and original |
| Viewport.FitUndoesOnlyLastZoom | esc_culvert_web/js/viewer/zoomPan.js:174-229 | after two zoom-ins on a fresh rendering, fit returns to the view between the zooms, not the rendered one |

## Left out

- DOM and SVG element creation, attributes, CSS classes, colours, stroke widths and font sizes are not modelled. Neither are the text-size heuristic `textH` and the tests of whether a label fits. Drawings are sequences of abstract lines, polylines, texts and dimensions.
- Number formatting (`toLocaleString`, the `fmt*` and `_fmt*` helpers) and the wording of the buoyancy report are not modelled. The report is modelled as its numbered entries, totals, uplift, safety factor and verdict.
- The serialisation of numbers as decimal text in the DXF writers is not modelled. A file is its sequence of group-code/value pairs.
- The ezdxf library is not modelled: document creation, dimension styles, line-type registration and the rendering of `add_linear_dim`. Each call is one appended entity, and a dimension keeps its three defining points.
- The trigonometric and floating-point helpers of `utils.py` are not modelled (`find_intersection`, `polar`, `calculate_angle`, `calculate_distance`, `draw_arc`, `draw_dimension`, `draw_text*`), and neither is `dxf_color_to_qt`.
- Floating-point rounding is not modelled. All arithmetic is exact over `real`.
- The renderers and exporters require `Layout.Drawable`: at least as many widths as the cell count. With fewer, the source computes with `undefined` and NaN, which is not modelled.
- JSON parsing is not modelled. `Store.StateStore.FromJson` receives the parse result as an `Option`, and `None` stands for text that does not parse. `toJSON` is not modelled.
- Text-to-number parsing (`parseInt`, `parseFloat`, Python `float`) is not modelled. Parsed input arrives as an `Option`.
- The listener callbacks themselves are not modelled. Emitting records the calls in a log, and the callbacks' own effects are outside the model.
- Qt widgets are not modelled: tabs, cards, spin-box ranges, colours and column widths. Neither is the widget's `culvert_data_changed` signal.
- The desktop prototype's other windows and dialogs are not part of this model.
- The anti-float tab of the Qt widget (`create_anti_float_tab`, `_on_anti_float_use_changed`, `_on_anti_float_value_changed`) is not modelled. These handlers write one field of the anti-float record without any logic. The record is carried as a field of the widget.
- `updateProjectInfo`, `updateDesignConditions` and `updateMaterials` of the state store are not modelled. They have the same one-key in-place shape as `updateGroundInfo`, which is modelled. The getters and `getCurrentMenu` only return a field.
- Persistence and downloads are not modelled: local storage, file readers, the DXF download and the auto-save timer.
- Application wiring is not modelled (page start-up, menu tree, plain form bindings). The one fact from the ground form that matters (its fallbacks to 2000 and 3000 keep a zero depth from being stored) is reflected in the report's input defaults.
- `getBoundingClientRect`, event objects and the zoom-level indicator are not modelled. The container size, the cursor position, the wheel delta and the mouse button are method parameters.
- `Viewport.ZoomPan.SetAttribute` stands for the renderer writing the `viewBox` attribute. The renderer's computation of that box is not modelled.
- `initZoomPan`, `destroy` and the event-listener registration of the zoom controller are not modelled.
- TableWidget.CulvertTableWidget.UpdateContent: `deleteLater` is modelled as an immediate deletion. The header label, the column headers, the buttons, and the combo and spin boxes of the other menus are not modelled. Neither are their handlers (`update_material_property`, `update_ground_info`) or the `concrete_strength`, `rebar_yield_strength` and `ground_info` fields they write.
- TableWidget.CulvertTableWidget.DeleteSelectedRows: a remaining table row without a column-1 item (a row laid out by the materials or ground-information menu) makes the source's renumbering raise `AttributeError`. The model renumbers that row like any other. The ticked check boxes are a parameter; a row without a check box is never in it.
- Qt's signals are modelled as follows: writing an item (`setItem`, `setText`) reaches `on_item_changed`, while `insertRow`, `removeRow`, `clear` and cell widgets do not. Qt drops writes to columns past the table's column count. This does not change the section list, because `add_section_row` overwrites its entry afterwards.
- TableWidget.CulvertTableWidget.constructor: `initUI` is not modelled. `count` holds 3 before the spin box exists; nothing reads it until the section menu creates the spin box with that value.
- SectionForm.EditTouchesOnlyItsEntry: requires the edited width index to lie within the stored widths. An index past them would make the JavaScript array grow with holes, which is not modelled. The table only offers indices below the cell count, and the stored widths have that length after every count change.
- Viewport.ZoomPan.HandleWheel: requires a container with positive width and height, because `screenToSvg` divides by them. Neither is zero for a container that is shown.

## Findings

| source | as written | input that shows it | evidently intended | confidence | as-written member | corrected member |
|---|---|---|---|---|---|---|
| esc_culvert_web/js/forms/buoyancyCheck.js:45-46 | the logical-or fallback to 200 turns zero or missing column-girder additional heights into 200, while the numbered drawing uses the heights as given | the default three-cell section with its first middle wall a column and both additional heights 0: the upper girder No.4 is 350 high in the report and drawn 150 high | the report cuts the section the drawing shows, so that "No.k" of the drawing is line k of the report (svgRenderer.js:791) | not executed | BuoyFindings.JsGirdersTallerInReport, BuoyFindings.JsDefaultColumnGirder | BuoyFindings.JsFixedReportIsDrawn, BuoyFindings.JsFixedReportNumbersDrawing |
| esc_culvert_web/js/forms/buoyancyCheck.js:55 | the logical-or fallback to 300 turns a zero anti-float thickness into 300, so the report numbers and weighs a slab the drawing does not draw | anti-float slab in use with thickness 0 | a slab of zero thickness is neither numbered nor drawn | not executed | BuoyFindings.JsSlabNumberedNotDrawn | BuoyFindings.JsFixedReportIsDrawn |
| buoyancy_check.py:61-62 | a missing `columnGirder` record defaults to 200 and 200, and the Qt table widget never writes that record, while the shapes drawing reads the missing record as zero heights | any section from the Qt widget with a column wall | the report and the numbered DXF drawing cut the same shapes (buoyancy_check.py:453-456) | not executed | BuoyFindings.PyTableGirdersTallerInReport | BuoyFindings.PyFixedReportIsDrawn, BuoyFindings.PyFixedReportNumbersDrawing |
| esc_culvert_web/js/state.js:226 | `{ ...defaultState, ...data }` shares the defaults' section record whenever the loaded data has no `sectionData`, so a later `updateSectionData` writes into the defaults and `reset` no longer restores them | `fromJSON('{}')`, then `updateSectionData('H', 5000)`, then `reset()`: H stays 5000 instead of 4200 | `reset` always restores the pristine defaults (state.js:189-190 deep-copies them for that purpose) | not executed | Store.ResetAfterLoadKeepsEdit | Store.StateStore.FromJsonCopy, Store.ResetAfterCopyingLoadRestores |

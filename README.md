# skirmishbunker layout engine, modelled in Dafny

skirmishbunker builds printable tabletop terrain with CadQuery. It makes bunkers, flat and detailed roofs, free-standing
roofs and catwalks. The geometry kernel does the solid modelling. What this project models is the logic around it:

- how many copies of a panel, window, door, ladder, floor cut or hatch fit along each wall;
- where those copies stand, and which of them survive the skip and keep lists;
- which solids each object makes and in what order `build` combines them;
- which settings the bunker hands to its roof.

Solids are opaque tokens (`Common.Solid`) that record how each one was asked for: a box of a given size, moved by a
vector, chamfered, and so on. Lengths are exact `real`s. Python's `math.floor` is `.Floor`.

Layout:

- `Series` is the perimeter series shared by everything. A row of copies is a sequence of `Bay` records (side, index
  on the side, unit, x, y, z). The four rows are concatenated in the order +y, +x, −y, −x, which gives every bay a
  global index. The skip-or-keep mask is a filter on that index.
- `SeriesHelpers` is the stand-alone series helper object. `Lifecycle` is the make-before-build base class.
- `FlatRoofs` covers the flat roof. `RoofWalls` holds the wall slots and details shared by both roof kinds.
  `DetailedRoofs` covers the detailed roof. `Roofs` covers the free-standing roof and `Catwalks` the catwalk.
- `BunkerState` is the bunker object the mixin modules work on: every setting with its default, and every memoized
  solid. It also holds the bunker's `make_series`.
- `BunkerBody`, `BunkerPanels`, `BunkerWindows`, `BunkerDoors`, `BunkerLadders`, `BunkerFloor`, `BunkerPips` and
  `BunkerRoof` follow the mixin files one by one. Each `Make…` method updates only the field its Python function
  assigns.
- `BunkerLayout` proves how the features share the wall bays, and works through a 140 by 110 example bunker.

Where the prose description of the system and the code disagree, the model follows the code:

- The detailed roof counts its hatch bays over its own interior. It never reads the bunker's interior, even though
  the bunker hands it over. A bunker whose length is 120 therefore has 2 ladder bays along that length, while its
  roof has 3 hatch bays (`BunkerRoof.HatchCountsFollowRoofInterior`). The hatches line up with the ladders only
  when the two counts agree.
- The roof's pip holes are not centred on the pips. Each is offset outwards by the roof overflow less the roof inset,
  plus the pip radius times (1 − hole modifier). With every default the offset is 4 on each axis
  (`BunkerRoof.RoofHolesOffsetFromPips`).
- An empty `door_panels` list is not "no doors". The keep filter is then skipped, so every bay gets a door
  (`BunkerDoors.DoorsOnDoorPanels`).
- The roof object is built in place and is not moved up onto the body. The host places it, and the host is not part
  of this model.
- `Roof.build` does not refuse before `make`: it calls its parent's `make`, which only marks the roof made. The
  first union then receives a roof that was never made and fails (`Roofs.Roof.Build`, `Error.MissingSolid`).

How Python's behaviour is modelled:

- Exceptions become an `Error` value returned by the method. Such a method changes nothing after the point where
  Python would raise.
- A division that Python would fail with `ZeroDivisionError` (a series pitch of 0) is a precondition. So is
  arithmetic that would fail with `TypeError` on an interior length or width that is still `None`.
- A union or cut handed a solid that was never made (`None`) fails in the kernel; it is `Error.MissingSolid`.
- "Workplane is set" truthiness is `Some?`.
- Python's `x if x else y` on an optional number is `Common.OrElse`.
- `DetailedRoof` extends `FlatRoof`. The model holds the flat roof as a `const flat` field and runs its make and
  build first, where Python calls `super()`.
- Values the model cannot compute are parameters:
  - the roof angle, which cqterrain's `roof.angle(inset, height)` computes; it is a foreign function, and nothing in the model reads the angle;
  - the stock ladder from cqterrain, whose width the ladder placement uses.
- A custom cut or detail factory is modelled as the unit it returns.
- `cadqueryhelper.series` is taken to lay out `n` copies, spaced by the unit's length plus `length_offset` and
  centred on the origin (`Series.Offset`). A negative floor count gives no copies.

## Model

| member | source | states |
|---|---|---|
| Common.Lower | src/skirmishbunker/FlatRoof.py:121-137 | the lower-cased name has the same length, maps each A–Z to a–z and leaves every other character alone |
| Series.CountFits | src/skirmishbunker/SeriesHelper.py:56-57 | `floor(span/pitch)` copies are the most that fit: count·pitch ≤ span < (count+1)·pitch |
| Series.Row | src/skirmishbunker/SeriesHelper.py:59-68 | a series of n copies has exactly n members |
| Series.Perimeter | src/skirmishbunker/SeriesHelper.py:90-93 | the unfiltered composite has 2·x + 2·y members |
| Series.PerimeterOrder | src/skirmishbunker/SeriesHelper.py:70-93 | bay i of the composite carries global index i, and its index on its side is below that side's count, in the order +y, +x, −y, −x |
| Series.OppositeSidesReflect | src/skirmishbunker/SeriesHelper.py:70-88 | the −y and −x rows are point reflections of the +y and +x rows, copy for copy, at the same z; the +y row stands at y_translate and the +x row at x_translate |
| Series.SamePositions | src/skirmishbunker/SeriesHelper.py:59-88 | two units with the same pitch and translates occupy identical bay positions |
| Series.RowSpacing | src/skirmishbunker/SeriesHelper.py:59-87 | neighbouring copies of a row, on any side, are one spacing (unit length plus length_offset) apart along the side and share the coordinate across it; the clockwise turns make the +y-translated row advance in +x, the +x row in −y, the −y row in −x and the −x row in +y |
| Series.Masked | src/skirmishbunker/SeriesHelper.py:95-108 | filtering never adds members |
| Series.RetainedExactly | src/skirmishbunker/SeriesHelper.py:95-108 | the surviving indices are in range, strictly increasing, and index i survives iff the skip list (when non-empty) lacks it, or else the keep list (when non-empty) holds it |
| Series.MaskedIsSelection | src/skirmishbunker/SeriesHelper.py:95-108 | the filtered scene is exactly the composite's members at the surviving indices, in their original order |
| Series.SkipWins | src/skirmishbunker/SeriesHelper.py:95-102 | with a non-empty skip list the keep list is ignored |
| Series.NoListsKeepAll | src/skirmishbunker/SeriesHelper.py:95-108 | with both lists empty the scene is the whole composite |
| Series.KeepListAsSet | src/skirmishbunker/SeriesHelper.py:102-108 | keep lists that name the same in-range indices give the same scene; repeats and out-of-range entries add nothing |
| Series.MaskedMembers | src/skirmishbunker/SeriesHelper.py:95-108 | every member of the filtered scene is a member of the composite |
| Series.MaskedLengthIsRetainedCount | src/skirmishbunker/SeriesHelper.py:95-108 | the filtered scene has one member per surviving index |
| Series.LayoutIndices | src/skirmishbunker/SeriesHelper.py:90-108 | the global indices of the filtered layout are exactly the surviving indices |
| Series.SameMaskSameBays | src/skirmishbunker/SeriesHelper.py:95-108 | two series with the same lists occupy the same bays whatever their units |
| Series.ApplyMask | src/skirmishbunker/SeriesHelper.py:95-108 | the enumerate-and-append loop yields the filtered scene |
| Series.CountExample | src/skirmishbunker/Roof.py:71-72 | a 120 span with 28 + 4 pitch holds 3 copies |
| Series.KeepExample | src/skirmishbunker/SeriesHelper.py:102-108 | keeping [0, 3] of eight members leaves members 0 and 3 |
| Series.SkipOverKeepExample | src/skirmishbunker/SeriesHelper.py:95-101 | skip [0] with keep [1, 2] drops member 0 and keeps the other seven |
| Series.SkipZeroOfEight | src/skirmishbunker/SeriesHelper.py:95-101 | skipping 0 of eight leaves indices 1 to 7 |
| SeriesHelpers.Validation | src/skirmishbunker/SeriesHelper.py:27-35 | make succeeds iff a unit is set, both spans are positive and the pitch is positive; the unit is checked first, then the spans |
| SeriesHelpers.SeriesHelper.constructor | src/skirmishbunker/SeriesHelper.py:6-25 | every setting starts at 0 or empty, with no unit and no scene |
| SeriesHelpers.SeriesHelper.Make | src/skirmishbunker/SeriesHelper.py:43-110 | a failed validation returns its error and stores nothing; otherwise the scene is the filtered perimeter layout; the settings are left as they were |
| SeriesHelpers.SeriesHelper.GetScene | src/skirmishbunker/SeriesHelper.py:37-41 | an error exactly while no scene is stored, otherwise the stored scene |
| SeriesHelpers.MadeSceneSize | src/skirmishbunker/SeriesHelper.py:56-93 | with no lists the scene has 2·floor(L/pitch) + 2·floor(W/pitch) members |
| Lifecycle.Base.constructor | src/skirmishbunker/Base.py:2-6 | a 75 cube, not yet made |
| Lifecycle.Base.Make | src/skirmishbunker/Base.py:8-9 | marks the object made and leaves its dimensions |
| Lifecycle.Base.Build | src/skirmishbunker/Base.py:11-13 | build refuses exactly when make has not been called |
| FlatRoofs.InteriorInsideOutline | src/skirmishbunker/FlatRoof.py:63-79 | the interior is the outline less a wall and a chamfer on each side, so never larger than the outline |
| FlatRoofs.SlotsFitTile | src/skirmishbunker/FlatRoof.py:87-103 | for a positive tile the short slot is shorter than the mid slot, which is shorter than the tile, and the slot radius is below the slot step |
| FlatRoofs.RoofBody | src/skirmishbunker/FlatRoof.py:105-138 | no chamfer gives the plain box; otherwise a chamfer at least the roof height is an error, and so is an operation that is neither "chamfer" nor "fillet" in any case; else the box is chamfered or filleted |
| FlatRoofs.FilletAnyCase | src/skirmishbunker/FlatRoof.py:128-134 | every spelling whose lower case is "fillet" fillets the roof and every one whose lower case is "chamfer" chamfers it (e.g. "FilLeT") |
| FlatRoofs.TilesMeetRoofTop | src/skirmishbunker/FlatRoof.py:140-209 | added tiles stand on the roof's top face and cut tiles end at it; the grid has as many rows as whole tile spaces fit in the interior length and as many columns as fit in its width |
| FlatRoofs.HatchesOnKeptBays | src/skirmishbunker/FlatRoof.py:211-239 | every hatch stands on the roof's top face, and a bay holds a hatch iff hatch_panels names it |
| FlatRoofs.HatchesOnRoofTop | src/skirmishbunker/FlatRoof.py:214-235 | every hatch copy's bottom lies on the roof's top face, whatever the counts |
| FlatRoofs.DefaultRoofRejectsHatches | src/skirmishbunker/FlatRoof.py:9-55 | the default roof's zero panel sizes make the series helper reject any hatch |
| FlatRoofs.HolesAtBottomCorners | src/skirmishbunker/FlatRoof.py:241-261 | four holes, open on the roof's bottom face and hole_depth deep, inset from the outline by their radius plus hole_inset |
| FlatRoofs.FlatSteps | src/skirmishbunker/FlatRoof.py:277-299 | build starts from the body and then cuts holes, adds hatches and cuts or adds tiles, each exactly when its gate is open and its solid exists, in that fixed order |
| FlatRoofs.FlatRoof.constructor | src/skirmishbunker/FlatRoof.py:9-55 | the default settings, nothing made |
| FlatRoofs.FlatRoof.MakeRoofBody | src/skirmishbunker/FlatRoof.py:105-138 | stores the roof body or returns its error, storing nothing |
| FlatRoofs.FlatRoof.MakeTiles | src/skirmishbunker/FlatRoof.py:140-209 | stores the tile grid at its cut or added height |
| FlatRoofs.FlatRoof.MakeHatches | src/skirmishbunker/FlatRoof.py:211-239 | the series helper's error, or the hatch layout on the interior |
| FlatRoofs.FlatRoof.MakeHoleCuts | src/skirmishbunker/FlatRoof.py:241-261 | stores the four hole cuts |
| FlatRoofs.FlatRoof.Make | src/skirmishbunker/FlatRoof.py:263-275 | marks made; builds the body, then the tiles when rendered, the hatches when any bay is named, and the holes when cut; the first error stops it and earlier results stay |
| FlatRoofs.FlatRoof.Build | src/skirmishbunker/FlatRoof.py:277-299 | refuses before make; fails when make stopped before the body existed; otherwise the gated step sequence |
| RoofWalls.CutMatchesDetails | src/skirmishbunker/DetailedRoof.py:101-180 | a wall slot is the longest multiple of 24 that fits and is exactly as long as its row of 24-long details |
| RoofWalls.DetailRows | src/skirmishbunker/DetailedRoof.py:138-180 | two rows of floor((L − 2·inset)/24) and two of floor((W − 2·inset)/24) details |
| RoofWalls.RowWithin | src/skirmishbunker/DetailedRoof.py:138-180 | every module of a 24-spaced row stands on the row's line and within n·12 − 12 of its centre |
| RoofWalls.DetailsWithinCuts | src/skirmishbunker/DetailedRoof.py:101-180 | every detail module stands on its wall slot's line, with both ends inside the slot |
| DetailedRoofs.DetailedHelpersMatchInterior | src/skirmishbunker/DetailedRoof.py:42-58 | the hatch space is the flat roof's final interior; hatches and tiles sit on the shell's inner floor |
| DetailedRoofs.HoleTranslateAgainstFlat | src/skirmishbunker/DetailedRoof.py:60-78 | with a positive inset the hole offsets agree with the flat roof's holes; otherwise they are measured from the full length, shifted by the inset |
| DetailedRoofs.DetailedSteps | src/skirmishbunker/DetailedRoof.py:189-200 | the flat roof's steps come first, then the wall cut and the wall details |
| DetailedRoofs.HolesCutTwice | src/skirmishbunker/DetailedRoof.py:189-200 | the holes are cut twice when they exist and are wanted, never otherwise |
| DetailedRoofs.DetailedRoof.constructor | src/skirmishbunker/DetailedRoof.py:22-40 | the flat roof's defaults plus the detail defaults, nothing made |
| DetailedRoofs.DetailedRoof.MakeRoofBody | src/skirmishbunker/DetailedRoof.py:80-99 | the wedge outline, shelled by the wall width only when that is positive |
| DetailedRoofs.DetailedRoof.MakeWallCuts | src/skirmishbunker/DetailedRoof.py:101-136 | stores the four wall slots |
| DetailedRoofs.DetailedRoof.MakeWallDetails | src/skirmishbunker/DetailedRoof.py:138-180 | stores the four detail rows |
| DetailedRoofs.DetailedRoof.Make | src/skirmishbunker/DetailedRoof.py:182-187 | the flat roof's make, with its body, tiles, hatches and holes as the flat roof states them; only when it succeeds, the angle, the wall slot cuts and the wall detail rows on the roof's own settings |
| DetailedRoofs.DetailedRoof.Build | src/skirmishbunker/DetailedRoof.py:189-200 | refuses before make; fails when the body, wall cuts or wall details are missing; otherwise the detailed step sequence |
| Roofs.SpanOverrideNeedsBoth | src/skirmishbunker/Roof.py:62-87 | the bunker interior replaces the roof's spans only when both are set and non-zero |
| Roofs.HatchesOverTheirCuts | src/skirmishbunker/Roof.py:181-227 | hatches and hatch cuts occupy the same bays, a bay holds a hatch iff hatch_panels names it or is empty (then every bay has one), the cut spans the floor and tiles, and the hatch stands on the floor |
| Roofs.RoofSteps | src/skirmishbunker/Roof.py:243-259 | body, wall cut, wall details, then tiles and the hatch cut and hatches, each exactly when rendered and made, in fixed order |
| Roofs.Roof.constructor | src/skirmishbunker/Roof.py:9-47 | the default settings, nothing made |
| Roofs.Roof.MakeRoof | src/skirmishbunker/Roof.py:49-60 | the wedge outline and its shell |
| Roofs.Roof.MakeSeries | src/skirmishbunker/Roof.py:62-118 | the roof's series over its spans, filtered by its lists |
| Roofs.Roof.MakeWallCuts | src/skirmishbunker/Roof.py:120-134 | stores the four wall slots |
| Roofs.Roof.MakeWallDetails | src/skirmishbunker/Roof.py:136-155 | stores the four detail rows |
| Roofs.Roof.MakeFloorTiles | src/skirmishbunker/Roof.py:157-179 | stores the interior tile grid |
| Roofs.RoofFloorTilesFit | src/skirmishbunker/Roof.py:157-179 | rows and columns are the most 23-wide tile spaces (21 plus padding 2) that fit the interior inside the walls each way, and the grid's centre sits one unit above the shell floor's top |
| Roofs.Roof.MakeCutHatches | src/skirmishbunker/Roof.py:181-204 | stores the hatch cuts over the hatch bays |
| Roofs.Roof.MakeHatches | src/skirmishbunker/Roof.py:206-227 | stores the hatches over the hatch bays |
| Roofs.Roof.Make | src/skirmishbunker/Roof.py:229-241 | the wedge outline tilted by −90, its shell of the wall width, the wall slot cuts and the wall detail rows always; tiles and hatches only when rendered |
| Roofs.Roof.Build | src/skirmishbunker/Roof.py:243-259 | marks made without checking; fails when the body, wall cuts or wall details were never made, or when rendered hatches exist without their cuts; otherwise the gated step sequence |
| Catwalks.MagnetsUnderLedge | src/skirmishbunker/Catwalk.py:54-106 | the ledge and the magnet holes open on the bottom face; the holes are 0.1 wider than the magnets and kept the magnet padding from the interior's edges |
| Catwalks.ArchCuts | src/skirmishbunker/Catwalk.py:120-132 | one arch cut per arch |
| Catwalks.ArchesStandOnWallBottom | src/skirmishbunker/Catwalk.py:120-132 | every arch cut starts at the wall's bottom and stops at least 4 below its top; the first two arches are 8 and 4 lower than the rest |
| Catwalks.CornersOnPlatformEdges | src/skirmishbunker/Catwalk.py:108-161 | the corner walls stand on the platform, each flush with its two outer edges |
| Catwalks.FloorGridCounts | src/skirmishbunker/Catwalk.py:163-213 | the floor grid has two rows more than fit, and the rows and half-step columns are the most that fit |
| Catwalks.CatwalkSteps | src/skirmishbunker/Catwalk.py:228-251 | platform first, then magnets, corner walls and floor cut, each exactly when rendered and made, in fixed order |
| Catwalks.Catwalk.constructor | src/skirmishbunker/Catwalk.py:21-52 | the default settings, nothing made |
| Catwalks.Catwalk.MakePlatform | src/skirmishbunker/Catwalk.py:54-90 | stores the platform |
| Catwalks.Catwalk.MakeMagnetCuts | src/skirmishbunker/Catwalk.py:92-106 | stores the magnet holes |
| Catwalks.Catwalk.MakeCornerWalls | src/skirmishbunker/Catwalk.py:108-161 | stores the four corner walls |
| Catwalks.Catwalk.MakeFloorTiles | src/skirmishbunker/Catwalk.py:163-213 | stores the floor tiles |
| Catwalks.Catwalk.Make | src/skirmishbunker/Catwalk.py:215-226 | platform always; magnets, corner walls and floor tiles only when rendered |
| Catwalks.Catwalk.Build | src/skirmishbunker/Catwalk.py:228-251 | refuses before make, otherwise the gated step sequence |
| BunkerState.Bunker.constructor | src/skirmishbunker/bunkerRoof.py:17-47 | every mixin's default settings, no interior and nothing made |
| BunkerState.Bunker.MakeSeries | example/ex_16b_int_floor.py:93-147 | the bunker's series counts over the interior with the panel pitch, filtered skip-over-keep |
| BunkerBody.InteriorLeavesWalls | src/skirmishbunker/bunkerBody.py:54-64 | the interior plus two walls is the top face's span, or the outline's when the inset is negative |
| BunkerBody.BodyWedge | src/skirmishbunker/bunkerBody.py:37-52 | the tilted wedge outline, chamfered iff the corner chamfer is positive |
| BunkerBody.InteriorRectangle | src/skirmishbunker/bunkerBody.py:54-71 | a centred box of the interior spans from the top of the floor to the top of the body |
| BunkerBody.BaseBlock | src/skirmishbunker/bunkerBody.py:73-85 | a block of the body's footprint, base_height tall, directly under the body |
| BunkerBody.BodyBase | src/skirmishbunker/bunkerBody.py:73-85 | the base block, chamfered iff the corner chamfer is positive |
| BunkerBody.BaseUnderBody | src/skirmishbunker/bunkerBody.py:54-85 | the base ends at the body's bottom, and the interior starts one floor thickness above it |
| BunkerBody.MakeWedge | src/skirmishbunker/bunkerBody.py:37-52 | stores the wedge |
| BunkerBody.MakeInteriorRectangle | src/skirmishbunker/bunkerBody.py:54-71 | stores the interior spans and the interior box |
| BunkerBody.MakeBase | src/skirmishbunker/bunkerBody.py:73-85 | stores the base |
| BunkerPanels.CutPanelUnit | src/skirmishbunker/bunkerPanels.py:20-37 | a panel-sized box of height less padding, standing on the body's bottom and tilted with the wall |
| BunkerPanels.DetailPanelUnit | src/skirmishbunker/bunkerPanels.py:55-72 | a panel-long unit standing on the body's bottom, tilted with the wall |
| BunkerPanels.PanelsFillEveryBay | src/skirmishbunker/bunkerPanels.py:20-37 | panels go in every bay: the layout is the whole perimeter |
| BunkerPanels.DetailPanelsInCutBays | src/skirmishbunker/bunkerPanels.py:55-72 | each detail panel sits in the cut panel's bay, the rows lie on the outline, and panels are a panel length plus two paddings apart |
| BunkerPanels.MakeCutPanels | src/skirmishbunker/bunkerPanels.py:20-37 | stores the cut panels' layout |
| BunkerPanels.MakeDetailPanels | src/skirmishbunker/bunkerPanels.py:55-72 | stores the detail panels' layout |
| BunkerWindows.ResolveWindowSkip | src/skirmishbunker/bunkerWindows.py:26-35 | starts with skip_windows, and holds exactly those plus the doors and the ladders when each is rendered |
| BunkerWindows.WindowFrameWidth | src/skirmishbunker/bunkerWindows.py:58-84 | the given window width, else a wall width plus 2 with no inset, else the inset's size |
| BunkerWindows.WindowsAvoidDoorsAndLadders | src/skirmishbunker/bunkerWindows.py:37-56 | a bay holds a window iff it is not skipped, not a rendered door bay and not a rendered ladder bay |
| BunkerWindows.FramesInTheirOpenings | src/skirmishbunker/bunkerWindows.py:37-84 | frames occupy exactly the opening bays at the same height, and with the default units and paddings also the same spacing |
| BunkerWindows.WindowCutSpansWall | src/skirmishbunker/bunkerWindows.py:37-56 | the opening runs from the interior wall to the outline, or to the inner top face when the inset is negative |
| BunkerWindows.MakeCutWindows | src/skirmishbunker/bunkerWindows.py:37-56 | stores the openings' layout |
| BunkerWindows.MakeWindows | src/skirmishbunker/bunkerWindows.py:58-84 | stores the frames' layout |
| BunkerDoors.DoorCutSpansWall | src/skirmishbunker/bunkerDoors.py:35-68 | the door cut runs from the interior wall to the outline, or to the top face when the inset is negative |
| BunkerDoors.DoorsSitOnFloor | src/skirmishbunker/bunkerDoors.py:35-105 | the default door and its opening stand on the interior floor |
| BunkerDoors.DoorsOnDoorPanels | src/skirmishbunker/bunkerDoors.py:35-105 | doors and door cuts share their bays, which are the door_panels bays, or every bay when the list is empty |
| BunkerDoors.MakeCutDoors | src/skirmishbunker/bunkerDoors.py:35-68 | stores the door cuts' layout |
| BunkerDoors.MakeDoors | src/skirmishbunker/bunkerDoors.py:70-105 | stores the doors' layout |
| BunkerLadders.ConfiguredLadder | src/skirmishbunker/bunkerLadders.py:25-36 | without a hook the ladder is ladder_length long, the stock width and the body's height |
| BunkerLadders.LadderAgainstWall | src/skirmishbunker/bunkerLadders.py:25-44 | ladders stand flush against the interior wall at panel spacing, in exactly the ladder bays, or in every bay when the ladder list is empty |
| BunkerLadders.MakeLadders | src/skirmishbunker/bunkerLadders.py:25-44 | stores the ladders' layout |
| BunkerFloor.FloorCutThroughFloor | src/skirmishbunker/bunkerFloorCuts.py:27-55 | a floor cut runs from the base's bottom to the top of the floor tiles, flush with the interior wall |
| BunkerFloor.MakeFloorCuts | src/skirmishbunker/bunkerFloorCuts.py:27-55 | stores the floor cuts' layout |
| BunkerFloor.FloorTilesFitInterior | src/skirmishbunker/bunkerFloor.py:32-55 | the tiles stand on the interior floor, and the rows and columns are the most that fit the padded interior |
| BunkerFloor.MakeInteriorFloor | src/skirmishbunker/bunkerFloor.py:32-55 | stores the floor tile grid |
| BunkerPips.PipsOnTopFace | src/skirmishbunker/bunkerPips.py:26-46 | four pips inset from the top face's corners, on the face or sunk into it for magnets |
| BunkerPips.BasePipsUnderBase | src/skirmishbunker/bunkerPips.py:48-62 | four pockets opening on the base's underside, inset from the footprint's corners |
| BunkerPips.MakePips | src/skirmishbunker/bunkerPips.py:26-46 | stores the top pips |
| BunkerPips.MakeCutPips | src/skirmishbunker/bunkerPips.py:48-62 | stores the base pockets |
| BunkerRoof.RoofFollowsBunker | src/skirmishbunker/bunkerRoof.py:49-94 | the roof hatches go on the ladder bays, holes are cut iff pips or magnets are rendered, and the roof overhangs the top face by the overflow less the roof inset |
| BunkerRoof.RoofHolesOffsetFromPips | src/skirmishbunker/bunkerRoof.py:83-90 | the holes are offset from the pips by the overhang plus the radius change; 4 with all defaults |
| BunkerRoof.HatchCountsFollowRoofInterior | src/skirmishbunker/bunkerRoof.py:49-59 | a 120-long bunker has 2 ladder bays along its length but its roof 3 hatch bays; the default bunker has 2 and 2 |
| BunkerRoof.MakeRoof | src/skirmishbunker/bunkerRoof.py:49-94 | copies the settings onto the roof object and makes it; the roof is recorded only when make succeeds, and then has its body, wall cuts, wall details and, when cut, its holes |
| BunkerLayout.FeaturesKeepPanelSpacing | src/skirmishbunker/bunkerDoors.py:35-68 | with the default cut-window, cut-door and door units, every feature series is spaced a panel length plus two paddings apart, plus twice its custom padding; a custom unit's length is arbitrary |
| BunkerLayout.WindowsClearOfDoorsAndLadders | src/skirmishbunker/bunkerWindows.py:26-35 | when the door list is non-empty, no bay holds both a window and a rendered door, and when the ladder list is non-empty, none holds both a window and a rendered ladder (an empty list gives no such separation; see the next row) |
| BunkerLayout.EmptyListsShareWindowBays | src/skirmishbunker/bunkerWindows.py:26-35 | with an empty door (ladder) list the doors (ladders) fill every bay, so every window bay also holds a door (ladder) |
| BunkerLayout.ExampleBunkerBays | src/skirmishbunker/bunkerBody.py:54-57 | a 140 by 110 bunker with inset 15 and walls 5 has a 100 by 70 interior with 3 and 2 bays per side |
| BunkerLayout.ExampleBunkerWindows | src/skirmishbunker/bunkerWindows.py:26-35 | with the default lists, windows take bays 1, 2 and 4 to 9 of 10 |
| BunkerLayout.DefaultWindowSkip | src/skirmishbunker/bunkerWindows.py:26-35 | the default windows skip [0, 0, 3, 0] |
| BunkerLayout.ExampleBunkerDoors | src/skirmishbunker/bunkerDoors.py:18-33 | with the default list, doors take bays 0 and 3 |

## Left out

- The geometry kernel is out of reach: boxes, wedges, shells, chamfers, fillets, booleans, rotations and the
  `series` and `grid` helpers. Solids are tokens, and nothing here says what shape a boolean produces.
- Face and edge selector strings are out of reach: the roof chamfer selectors and the door fillet selector. Only the
  operation they feed is recorded.
- The internal shape of a roof tile: the slots cut into each tile and the arch detail of a bunker panel
  (`arch_detail`). Their sizes are modelled as far as they feed the layout (`FlatRoofs.SlotsFitTile`), but the
  solids are `Kernel` tokens.
- The insides of the hatch, split door and blast door sub-assemblies, which are separate classes. Each is a
  `SubAssembly` token of the size the caller asks for.
- The bunker host class's own `make` and `build` are not in the library. `src/skirmishbunker/Bunker.py` is a
  placeholder that builds only the wedge, and it is not part of this model. The host's `make_series` comes from
  `example/ex_16b_int_floor.py`.
- Export to files and the example scripts.
- Whether the host calls each `Make…` at all. The flags it decides this by are stored with their defaults but not
  acted on: `render_interior`, `render_base`, `render_panel_details`, `render_windows` and `render_floor_cuts`.
  The flags the mixins themselves read are modelled: `render_doors` and `render_ladders` in the window skip list,
  `render_magnets` in the pips, and `render_pips`, `render_magnets` and `render_floor_tiles` in the roof mapping.
- `window_length_padding` is initialised and never read.
- The window frame made by cqterrain's `window.frame`, and its chamfer. The frame is a `SubAssembly` token, and only
  its placement is modelled.
- The roof angle. It is computed by cqterrain's `roof.angle(inset, height)`, a foreign function, so it is a parameter of `Make`, not tied to the inset and height. Nothing reads it afterwards.
- BunkerWindows.MakeWindows: requires a custom window whenever a custom cut window is set. Python tests the cut
  factory but calls the window factory, so without one it would fail on a missing factory.
- BunkerLadders.ConfiguredLadder: says nothing about the ladder after a custom hook, which can return any ladder.
- BunkerState.Bunker.constructor: states the defaults of every mixin but cites only the roof's initialiser. The
  other initialisers are `bunkerBody.py:17-35`, `bunkerPanels.py:4-18`, `bunkerWindows.py:4-24`,
  `bunkerDoors.py:18-33`, `bunkerLadders.py:17-23`, `bunkerFloorCuts.py:17-25`, `bunkerFloor.py:19-30` and
  `bunkerPips.py:17-24`.
- Series.CountFits: Python's `floor` of a negative span gives a negative count and an empty series. The model clamps
  the count to 0, which has the same effect.
- Roofs.HatchCutPlacement, Roofs.HatchPlacement: require the bunker's interior to be set. Python divides `None`
  and raises `TypeError`; the model does not return that error.
- Roofs.Roof.MakeCutHatches, Roofs.Roof.MakeHatches: require the interior to be set, for the same reason.
- Roofs.Roof.Make: requires the interior to be set and the pitch nonzero when hatches are rendered, for the same
  reason; its `TypeError` and `ZeroDivisionError` are not modelled.
- BunkerState.Bunker.SeriesReady: the feature methods that require it (doors, ladders, panels, windows, floor cuts)
  assume `make_body` has set the interior. Before that, Python raises `TypeError`; the model does not.
- BunkerFloor.MakeInteriorFloor: requires the interior to be set, for the same reason.
- Every mask indexes the solids of the laid-out series (`scene.solids().vals()`), not its units. The model treats
  each unit as exactly one solid; a unit made of several disjoint solids would shift every later index.
- Common.Lower: lower-cases ASCII letters only. Python's `str.lower` also folds other alphabets, but the only names
  compared are "chamfer" and "fillet".

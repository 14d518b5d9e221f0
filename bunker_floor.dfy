/**
 * The interior floor: a grid of octagon tiles on the floor slab, and the
 * optional floor cuts (hatches through base and floor) at chosen bays.
 */
module BunkerFloor {
  import opened Common
  import opened Series
  import opened BunkerState
  import opened BunkerBody

  /** Height of a floor cut: through the floor slab, the base and the floor tiles. */
  function FloorCutHeight(body: BodyParams, floor: FloorParams): real
  {
    FloorThickness(body) + body.baseHeight + floor.floorTileHeight
  }

  function FloorCutLift(body: BodyParams, floor: FloorParams): real
  {
    -1.0 * (body.height / 2.0) - body.baseHeight + FloorCutHeight(body, floor) / 2.0
  }

  function FloorCutUnit(body: BodyParams, floor: FloorParams, cut: FloorCutParams): Unit
  {
    Unit(Chamfered(Box(cut.floorCutLength, cut.floorCutWidth, FloorCutHeight(body, floor)), cut.floorCutChamfer),
         cut.floorCutLength, FloorCutLift(body, floor))
  }

  function FloorCutPlacement(body: BodyParams, panel: PanelParams, floor: FloorParams, cut: FloorCutParams,
                             intLength: real, intWidth: real): Placement
  {
    Placement(FloorCutUnit(body, floor, cut), panel.panelLength - cut.floorCutLength + panel.panelPadding * 2.0,
              intLength / 2.0 - cut.floorCutWidth / 2.0, intWidth / 2.0 - cut.floorCutWidth / 2.0,
              0.0, Mask([], cut.floorCutPanels))
  }

  /**
   * A floor cut runs from the bottom of the base plate to the top of the
   * floor tiles, and its outer side is flush with the interior wall.
   */
  lemma FloorCutThroughFloor(body: BodyParams, panel: PanelParams, floor: FloorParams, cut: FloorCutParams,
                             intLength: real, intWidth: real)
    ensures FloorCutLift(body, floor) - FloorCutHeight(body, floor) / 2.0 == ZSpan(BaseBlock(body)).value.0
    ensures FloorCutLift(body, floor) + FloorCutHeight(body, floor) / 2.0 == FloorTileLift(body, floor) + floor.floorTileHeight / 2.0
    ensures FloorCutPlacement(body, panel, floor, cut, intLength, intWidth).xTranslate + cut.floorCutWidth / 2.0 == intLength / 2.0
    ensures FloorCutPlacement(body, panel, floor, cut, intLength, intWidth).yTranslate + cut.floorCutWidth / 2.0 == intWidth / 2.0
  {
  }

  method MakeFloorCuts(b: Bunker)
    requires b.SeriesReady()
    modifies b`floorCuts
    ensures b.floorCuts == Some(HostLayout(b.panel, b.intLength.value, b.intWidth.value,
      FloorCutPlacement(b.body, b.panel, b.floor, b.floorCut, b.intLength.value, b.intWidth.value)))
  {
    var floorThickness := if Truthy(b.body.floorThickness) then b.body.floorThickness.value else b.body.wallWidth;
    var height := floorThickness + b.body.baseHeight + b.floor.floorTileHeight;
    var zTranslate := (-1.0 * (b.body.height / 2.0)) - b.body.baseHeight + height / 2.0;
    var floorCut := Unit(Chamfered(Box(b.floorCut.floorCutLength, b.floorCut.floorCutWidth, height), b.floorCut.floorCutChamfer),
                         b.floorCut.floorCutLength, zTranslate);
    var floorCuts := b.MakeSeries(Placement(floorCut,
      b.panel.panelLength - b.floorCut.floorCutLength + b.panel.panelPadding * 2.0,
      b.intLength.value / 2.0 - b.floorCut.floorCutWidth / 2.0, b.intWidth.value / 2.0 - b.floorCut.floorCutWidth / 2.0,
      0.0, Mask([], b.floorCut.floorCutPanels)));
    b.floorCuts := Some(floorCuts);
  }

  /** The pitch of the floor grid: a tile plus its padding. */
  function FloorTilePitch(floor: FloorParams): real
  {
    floor.floorTileSize + floor.floorTilePadding
  }

  /** The z that lays a floor_tile_height thick tile on the floor slab. */
  function FloorTileLift(body: BodyParams, floor: FloorParams): real
  {
    -1.0 * (body.height / 2.0 - floor.floorTileHeight / 2.0 - FloorThickness(body))
  }

  function FloorTile(floor: FloorParams): Solid
  {
    if floor.customFloorTile.Some? then floor.customFloorTile.value
    else SubAssembly("Octagon tile", floor.floorTileSize, floor.floorTileSize, floor.floorTileHeight)
  }

  /** Rows along the interior length and columns along its width, less the floor padding. */
  function InteriorFloor(body: BodyParams, floor: FloorParams, intLength: real, intWidth: real): Solid
    requires FloorTilePitch(floor) != 0.0
  {
    var pitch := FloorTilePitch(floor);
    var columns := ((intWidth - floor.floorPadding) / pitch).Floor;
    var rows := ((intLength - floor.floorPadding) / pitch).Floor;
    Moved(TileGrid(FloorTile(floor), rows, columns, pitch, pitch, 0.0, 0.0), 0.0, 0.0, FloorTileLift(body, floor))
  }

  /**
   * The tiles lie on the interior floor, and with a positive pitch the grid
   * holds as many whole tile pitches as fit the padded interior, and no more.
   */
  lemma FloorTilesFitInterior(body: BodyParams, floor: FloorParams, intLength: real, intWidth: real)
    requires FloorTilePitch(floor) > 0.0
    requires intLength - floor.floorPadding >= 0.0 && intWidth - floor.floorPadding >= 0.0
    ensures var g := InteriorFloor(body, floor, intLength, intWidth);
      && g.dz - floor.floorTileHeight / 2.0 == ZSpan(InteriorRectangle(body)).value.0
      && g.solid.rows as real * FloorTilePitch(floor) <= intLength - floor.floorPadding
      && intLength - floor.floorPadding < (g.solid.rows + 1) as real * FloorTilePitch(floor)
      && g.solid.columns as real * FloorTilePitch(floor) <= intWidth - floor.floorPadding
      && intWidth - floor.floorPadding < (g.solid.columns + 1) as real * FloorTilePitch(floor)
  {
    var pitch := FloorTilePitch(floor);
    CountFits(intLength - floor.floorPadding, pitch);
    CountFits(intWidth - floor.floorPadding, pitch);
    ScaleBound(intLength - floor.floorPadding, pitch, 0.0);
    ScaleBound(intWidth - floor.floorPadding, pitch, 0.0);
  }

  method MakeInteriorFloor(b: Bunker)
    requires b.intLength.Some? && b.intWidth.Some? && FloorTilePitch(b.floor) != 0.0
    modifies b`interiorTiles
    ensures b.interiorTiles == Some(InteriorFloor(b.body, b.floor, b.intLength.value, b.intWidth.value))
  {
    var tileSize := b.floor.floorTileSize;
    var tilePadding := b.floor.floorTilePadding;
    var intLength := b.intLength.value - b.floor.floorPadding;
    var intWidth := b.intWidth.value - b.floor.floorPadding;
    var floorThickness := if Truthy(b.body.floorThickness) then b.body.floorThickness.value else b.body.wallWidth;
    var floorTile;
    if b.floor.customFloorTile.Some? {
      floorTile := b.floor.customFloorTile.value;
    } else {
      floorTile := SubAssembly("Octagon tile", tileSize, tileSize, b.floor.floorTileHeight);
    }
    var columns := (intWidth / (tileSize + tilePadding)).Floor;
    var rows := (intLength / (tileSize + tilePadding)).Floor;
    var tileGrid := TileGrid(floorTile, rows, columns, tileSize + tilePadding, tileSize + tilePadding, 0.0, 0.0);
    var zTileTranslate := -1.0 * (b.body.height / 2.0 - b.floor.floorTileHeight / 2.0 - floorThickness);
    b.interiorTiles := Some(Moved(tileGrid, 0.0, 0.0, zTileTranslate));
  }
}

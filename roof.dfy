/**
 * The older bunker roof: a shelled wedge with wall cuts, wall details,
 * optional floor tiles inside it, and hatches with their cuts placed on
 * the perimeter series over the bunker's interior.
 */
module Roofs {
  import opened Common
  import opened Series
  import opened RoofWalls

  datatype RoofParams = RoofParams(
    length: real, width: real, height: real, inset: real,
    bunkerIntLength: Option<real>, bunkerIntWidth: Option<real>,
    wallWidth: real,
    panelPadding: real, panelLength: real, panelWidth: real,
    wallDetailsInset: real, wallDetailsDepth: real, wallArchFillet: real,
    tileHeight: real,
    hatchLength: real, hatchWidth: real, hatchHeight: real,
    hatchCutInset: real, hatchCutChamfer: real, hatchPanels: seq<int>,
    renderFloorTiles: bool, renderHatches: bool)

  function DefaultRoof(): RoofParams
  {
    RoofParams(
      120.0, 150.0, 30.0, 10.0,
      None, None,
      5.0,
      2.0, 28.0, 6.0,
      3.0, 5.0, 2.0,
      2.0,
      25.0, 25.0, 6.0,
      2.0, 2.0, [0],
      false, false)
  }

  /** The spans the series counts are taken over: the bunker's interior when both are set, else the roof's own. */
  function SeriesSpans(p: RoofParams): (real, real)
  {
    if Truthy(p.bunkerIntLength) && Truthy(p.bunkerIntWidth)
    then (p.bunkerIntLength.value, p.bunkerIntWidth.value)
    else (p.length - p.wallWidth * 2.0, p.width - p.wallWidth * 2.0)
  }

  /**
   * The bunker's interior replaces the roof's spans only as a pair: setting
   * just one of them, or setting one to zero, leaves the spans as they were.
   */
  lemma SpanOverrideNeedsBoth(p: RoofParams, x: real)
    ensures !Truthy(p.bunkerIntWidth) ==>
      SeriesSpans(p.(bunkerIntLength := Some(x))) == (p.length - p.wallWidth * 2.0, p.width - p.wallWidth * 2.0)
    ensures !Truthy(p.bunkerIntLength) ==>
      SeriesSpans(p.(bunkerIntWidth := Some(x))) == (p.length - p.wallWidth * 2.0, p.width - p.wallWidth * 2.0)
    ensures x != 0.0 && Truthy(p.bunkerIntWidth) ==>
      SeriesSpans(p.(bunkerIntLength := Some(x))) == (x, p.bunkerIntWidth.value)
  {
  }

  /** The roof's series: counts over SeriesSpans, then the skip-or-keep mask. */
  function RoofLayout(p: RoofParams, placement: Placement): seq<Bay>
    requires p.panelLength + p.panelPadding != 0.0
  {
    var spans := SeriesSpans(p);
    Layout(Count(spans.0, p.panelLength + p.panelPadding), Count(spans.1, p.panelLength + p.panelPadding), placement)
  }

  /** The tile and gap size of the roof's floor tiles. */
  const FloorTileSize: real := 21.0
  const FloorTilePadding: real := 2.0

  function InteriorTileGrid(p: RoofParams): Solid
  {
    var intLength := p.length - 2.0 * (p.inset + p.wallWidth);
    var intWidth := p.width - 2.0 * (p.inset + p.wallWidth);
    var space := FloorTileSize + FloorTilePadding;
    Moved(TileGrid(Kernel("slotted roof tile"), (intLength / space).Floor, (intWidth / space).Floor, space, space, 0.0, 0.0),
          0.0, 0.0, -1.0 * (p.height / 2.0 - p.wallWidth - 1.0))
  }

  /**
   * The floor tiles fill the interior inside the walls with as many 23-wide
   * tile spaces as fit each way, and the grid's centre sits one unit above
   * the top of the shell floor.
   */
  lemma RoofFloorTilesFit(p: RoofParams)
    ensures var g := InteriorTileGrid(p);
      && g.Moved? && g.solid.TileGrid?
      && g.solid.pitchX == FloorTileSize + FloorTilePadding == g.solid.pitchY
      && g.dz == -p.height / 2.0 + p.wallWidth + 1.0
    ensures var intLength := p.length - 2.0 * (p.inset + p.wallWidth);
      var rows := InteriorTileGrid(p).solid.rows;
      intLength >= 0.0 ==>
        rows == Count(intLength, 23.0) && rows as real * 23.0 <= intLength < (rows + 1) as real * 23.0
    ensures var intWidth := p.width - 2.0 * (p.inset + p.wallWidth);
      var columns := InteriorTileGrid(p).solid.columns;
      intWidth >= 0.0 ==>
        columns == Count(intWidth, 23.0) && columns as real * 23.0 <= intWidth < (columns + 1) as real * 23.0
  {
    var intLength := p.length - 2.0 * (p.inset + p.wallWidth);
    var intWidth := p.width - 2.0 * (p.inset + p.wallWidth);
    if intLength >= 0.0 {
      CountFits(intLength, 23.0);
    }
    if intWidth >= 0.0 {
      CountFits(intWidth, 23.0);
    }
  }

  /** The hatch opening: hatch_cut_inset smaller than the hatch, as deep as the shell floor plus a tile. */
  function HatchCutUnit(p: RoofParams): Unit
  {
    var cutLength := p.hatchLength - p.hatchCutInset;
    var cutWidth := p.hatchWidth - p.hatchCutInset;
    var cutHeight := p.wallWidth + p.tileHeight;
    Unit(Chamfered(Chamfered(Box(cutLength, cutWidth, cutHeight), p.hatchCutChamfer), 3.0),
         cutLength, -1.0 * (p.height / 2.0) + cutHeight / 2.0)
  }

  function HatchCutPlacement(p: RoofParams): Placement
    requires p.bunkerIntLength.Some? && p.bunkerIntWidth.Some?
  {
    var cutLength := p.hatchLength - p.hatchCutInset;
    var cutWidth := p.hatchWidth - p.hatchCutInset;
    Placement(HatchCutUnit(p), p.panelLength - cutLength + p.panelPadding * 2.0,
              p.bunkerIntLength.value / 2.0 - cutWidth / 2.0, p.bunkerIntWidth.value / 2.0 - cutWidth / 2.0, 0.0,
              Mask([], p.hatchPanels))
  }

  function HatchUnit(p: RoofParams): Unit
  {
    Unit(SubAssembly("Hatch", p.hatchLength, p.hatchWidth, p.hatchHeight), p.hatchLength,
         -1.0 * (p.height / 2.0) + p.hatchHeight / 2.0 + p.wallWidth)
  }

  function HatchPlacement(p: RoofParams): Placement
    requires p.bunkerIntLength.Some? && p.bunkerIntWidth.Some?
  {
    Placement(HatchUnit(p), p.panelLength - p.hatchLength + p.panelPadding * 2.0,
              p.bunkerIntLength.value / 2.0 - p.hatchWidth / 2.0, p.bunkerIntWidth.value / 2.0 - p.hatchWidth / 2.0, 0.0,
              Mask([], p.hatchPanels))
  }

  /**
   * Hatch cuts and hatches keep the same bays: those hatch_panels names, or
   * every bay when it is empty; each cut opens from the roof's bottom face through the shell floor
   * and one tile layer, and each hatch stands on the shell floor.
   */
  lemma HatchesOverTheirCuts(p: RoofParams)
    requires p.panelLength + p.panelPadding != 0.0
    requires p.bunkerIntLength.Some? && p.bunkerIntWidth.Some?
    ensures var spans := SeriesSpans(p);
      var nx := Count(spans.0, p.panelLength + p.panelPadding);
      var ny := Count(spans.1, p.panelLength + p.panelPadding);
      && Indices(RoofLayout(p, HatchCutPlacement(p)), nx, ny) == Indices(RoofLayout(p, HatchPlacement(p)), nx, ny)
      && (forall i :: 0 <= i < 2 * nx + 2 * ny ==>
            (i in Indices(RoofLayout(p, HatchPlacement(p)), nx, ny) <==> |p.hatchPanels| == 0 || i in p.hatchPanels))
    ensures HatchCutUnit(p).lift - (p.wallWidth + p.tileHeight) / 2.0 == -p.height / 2.0
    ensures HatchCutUnit(p).lift + (p.wallWidth + p.tileHeight) / 2.0 == -p.height / 2.0 + p.wallWidth + p.tileHeight
    ensures HatchUnit(p).lift - p.hatchHeight / 2.0 == -p.height / 2.0 + p.wallWidth
  {
    var spans := SeriesSpans(p);
    var nx := Count(spans.0, p.panelLength + p.panelPadding);
    var ny := Count(spans.1, p.panelLength + p.panelPadding);
    SameMaskSameBays(nx, ny, HatchCutPlacement(p), HatchPlacement(p));
    LayoutIndices(nx, ny, HatchPlacement(p));
    RetainedExactly(2 * nx + 2 * ny, Mask([], p.hatchPanels));
  }

  /** Rank of a roof build step: body, wall cut, wall details, tiles, hatch cut, hatches. */
  function RoofRank(s: Step): int
  {
    match s
    case Union(Body) => 0
    case Cut(WallCuts) => 1
    case Union(WallDetails) => 2
    case Add(Tiles) => 3
    case Cut(HatchCuts) => 4
    case _ => 5
  }

  /**
   * What build() applies: body, wall cut and details always; tiles when
   * rendered and made; the hatch cut and the hatches together, or neither.
   */
  function RoofSteps(p: RoofParams, hasTiles: bool, hasHatches: bool): (r: seq<Step>)
    ensures |r| >= 3 && r[..3] == [Union(Body), Cut(WallCuts), Union(WallDetails)]
    ensures Add(Tiles) in r <==> p.renderFloorTiles && hasTiles
    ensures Cut(HatchCuts) in r <==> p.renderHatches && hasHatches
    ensures Add(Hatches) in r <==> p.renderHatches && hasHatches
    ensures forall i, j :: 0 <= i < j < |r| ==> RoofRank(r[i]) < RoofRank(r[j])
  {
    [Union(Body), Cut(WallCuts), Union(WallDetails)]
    + Gated(p.renderFloorTiles && hasTiles, Add(Tiles))
    + (if p.renderHatches && hasHatches then [Cut(HatchCuts), Add(Hatches)] else [])
  }

  class Roof {
    var params: RoofParams
    var makeCalled: bool
    var angle: real
    var outline: Option<Solid>
    var roof: Option<Solid>
    var cutWalls: Option<seq<Solid>>
    var wallDetails: Option<seq<Bay>>
    var roofTiles: Option<Solid>
    var cutHatches: Option<seq<Bay>>
    var hatches: Option<seq<Bay>>

    constructor ()
      ensures params == DefaultRoof() && !makeCalled && angle == 0.0
      ensures outline == None && roof == None && cutWalls == None && wallDetails == None
      ensures roofTiles == None && cutHatches == None && hatches == None
    {
      params := DefaultRoof();
      makeCalled := false;
      angle := 0.0;
      outline, roof, cutWalls, wallDetails := None, None, None, None;
      roofTiles, cutHatches, hatches := None, None, None;
    }

    /** The wedge outline, shelled inwards by the wall width. */
    method MakeRoof()
      modifies this`outline, this`roof
      ensures outline == Some(Tilted(Wedge(params.length, params.height, params.width, params.inset), -90.0))
      ensures roof == Some(Shelled(outline.value, -1.0 * params.wallWidth))
    {
      outline := Some(Tilted(Wedge(params.length, params.height, params.width, params.inset), -90.0));
      roof := Some(Shelled(outline.value, -1.0 * params.wallWidth));
    }

    /** The roof's own series: the spans, the counts, the four rows, the mask. */
    method MakeSeries(placement: Placement) returns (bays: seq<Bay>)
      requires params.panelLength + params.panelPadding != 0.0
      ensures bays == RoofLayout(params, placement)
    {
      var length2 := params.length - params.wallWidth * 2.0;
      var width2 := params.width - params.wallWidth * 2.0;
      if Truthy(params.bunkerIntLength) && Truthy(params.bunkerIntWidth) {
        length2 := params.bunkerIntLength.value;
        width2 := params.bunkerIntWidth.value;
      }
      var xCount := Count(length2, params.panelLength + params.panelPadding);
      var yCount := Count(width2, params.panelLength + params.panelPadding);
      var scene := Perimeter(xCount, yCount, placement);
      bays := ApplyMask(scene, placement.mask);
    }

    method MakeWallCuts()
      modifies this`cutWalls
      ensures cutWalls == Some(SlotCuts(params.length, params.width, params.height, params.inset,
                                        params.wallDetailsDepth, params.wallDetailsInset))
    {
      cutWalls := Some(SlotCuts(params.length, params.width, params.height, params.inset,
                                params.wallDetailsDepth, params.wallDetailsInset));
    }

    method MakeWallDetails()
      modifies this`wallDetails
      ensures wallDetails == Some(DetailRows(params.length, params.width, params.inset, params.wallDetailsInset,
        WallDetailUnit(params.wallDetailsDepth, params.height, params.wallArchFillet)))
    {
      var u := WallDetailUnit(params.wallDetailsDepth, params.height, params.wallArchFillet);
      wallDetails := Some(DetailRows(params.length, params.width, params.inset, params.wallDetailsInset, u));
    }

    method MakeFloorTiles()
      modifies this`roofTiles
      ensures roofTiles == Some(InteriorTileGrid(params))
    {
      var intLength := params.length - 2.0 * (params.inset + params.wallWidth);
      var intWidth := params.width - 2.0 * (params.inset + params.wallWidth);
      var columns := (intWidth / (FloorTileSize + FloorTilePadding)).Floor;
      var rows := (intLength / (FloorTileSize + FloorTilePadding)).Floor;
      var grid := TileGrid(Kernel("slotted roof tile"), rows, columns,
                           FloorTileSize + FloorTilePadding, FloorTileSize + FloorTilePadding, 0.0, 0.0);
      roofTiles := Some(Moved(grid, 0.0, 0.0, -1.0 * (params.height / 2.0 - params.wallWidth - 1.0)));
    }

    /** The hatch cuts; their translates read the bunker's interior, which must be set. */
    method MakeCutHatches()
      modifies this`cutHatches
      requires params.panelLength + params.panelPadding != 0.0
      requires params.bunkerIntLength.Some? && params.bunkerIntWidth.Some?
      ensures cutHatches == Some(RoofLayout(params, HatchCutPlacement(params)))
    {
      var bays := MakeSeries(HatchCutPlacement(params));
      cutHatches := Some(bays);
    }

    method MakeHatches()
      modifies this`hatches
      requires params.panelLength + params.panelPadding != 0.0
      requires params.bunkerIntLength.Some? && params.bunkerIntWidth.Some?
      ensures hatches == Some(RoofLayout(params, HatchPlacement(params)))
    {
      var bays := MakeSeries(HatchPlacement(params));
      hatches := Some(bays);
    }

    /**
     * Marks the roof made, records the roof angle (computed outside this
     * model and passed in), builds body and walls, then the floor tiles and
     * the hatches with their cuts under their flags.
     */
    method Make(roofAngle: real)
      modifies this`makeCalled, this`angle, this`outline, this`roof, this`cutWalls, this`wallDetails
      modifies this`roofTiles, this`cutHatches, this`hatches
      requires params.renderHatches ==>
        params.panelLength + params.panelPadding != 0.0
        && params.bunkerIntLength.Some? && params.bunkerIntWidth.Some?
      ensures makeCalled && angle == roofAngle
      ensures outline == Some(Tilted(Wedge(params.length, params.height, params.width, params.inset), -90.0))
      ensures roof == Some(Shelled(outline.value, -1.0 * params.wallWidth))
      ensures cutWalls == Some(SlotCuts(params.length, params.width, params.height, params.inset,
                                        params.wallDetailsDepth, params.wallDetailsInset))
      ensures wallDetails == Some(DetailRows(params.length, params.width, params.inset, params.wallDetailsInset,
        WallDetailUnit(params.wallDetailsDepth, params.height, params.wallArchFillet)))
      ensures roofTiles == (if params.renderFloorTiles then Some(InteriorTileGrid(params)) else old(roofTiles))
      ensures params.renderHatches ==>
        cutHatches == Some(RoofLayout(params, HatchCutPlacement(params)))
        && hatches == Some(RoofLayout(params, HatchPlacement(params)))
      ensures !params.renderHatches ==> cutHatches == old(cutHatches) && hatches == old(hatches)
    {
      makeCalled := true;
      angle := roofAngle;
      MakeRoof();
      MakeWallCuts();
      MakeWallDetails();
      if params.renderFloorTiles {
        MakeFloorTiles();
      }
      if params.renderHatches {
        MakeCutHatches();
        MakeHatches();
      }
    }

    /**
     * Marks the roof made instead of checking that it was. Before make() the
     * body, wall cuts and wall details are missing and the first union fails,
     * as does the hatch cut when hatches exist without their cuts; otherwise
     * the gated steps.
     */
    method Build() returns (r: Result<seq<Step>, Error>)
      modifies this`makeCalled
      ensures makeCalled
      ensures (|| roof.None? || cutWalls.None? || wallDetails.None?
               || (params.renderHatches && hatches.Some? && cutHatches.None?))
        ==> r == Err(MissingSolid)
      ensures (&& roof.Some? && cutWalls.Some? && wallDetails.Some?
               && !(params.renderHatches && hatches.Some? && cutHatches.None?))
        ==> r == Ok(RoofSteps(params, roofTiles.Some?, hatches.Some?))
    {
      makeCalled := true;
      if roof.None? || cutWalls.None? || wallDetails.None? || (params.renderHatches && hatches.Some? && cutHatches.None?) {
        return Err(MissingSolid);
      }
      var steps := [Union(Body), Cut(WallCuts), Union(WallDetails)];
      steps := steps + Gated(params.renderFloorTiles && roofTiles.Some?, Add(Tiles));
      if params.renderHatches && hatches.Some? {
        steps := steps + [Cut(HatchCuts), Add(Hatches)];
      }
      assert steps == RoofSteps(params, roofTiles.Some?, hatches.Some?);
      return Ok(steps);
    }
  }
}

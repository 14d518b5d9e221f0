/**
 * The flat roof: a box body (optionally chamfered or filleted along its top
 * edges), an optional grid of slotted tiles on or sunk into its top, hatches
 * placed by the series helper on the kept bays, and four blind holes for
 * pips or magnets at its bottom corners.
 */
module FlatRoofs {
  import opened Common
  import opened Series
  import opened SeriesHelpers

  /** The settings callers assign on a flat roof before make(). */
  datatype FlatRoofParams = FlatRoofParams(
    length: real, width: real, height: real,
    inset: real, wallWidth: real,
    panelLength: real, panelPadding: real,
    roofChamfer: real, roofOperation: string,
    renderTiles: bool, tileSize: real, tilePadding: real, tileHeight: real, tileZOffset: real,
    hatchPanels: seq<int>, hatchLength: real, hatchWidth: real, hatchRadius: real, hatchHeight: real,
    hatchZTranslate: real,
    cutHoles: bool, holeInset: real, holeDepth: real, holeDiameter: real)

  /** The settings of a new flat roof. */
  function DefaultFlatRoof(): FlatRoofParams
  {
    FlatRoofParams(
      160.0, 150.0, 25.0,
      0.0, 0.0,
      0.0, 0.0,
      0.0, "chamfer",
      false, 21.0, 2.0, 1.5, -1.0,
      [], 25.0, 25.0, 10.5, 6.0,
      0.0,
      false, 1.5, 1.0, 2.0)
  }

  /** Tiles are cut into the roof instead of added on it when pushed down more than 1. */
  predicate ShouldCutTiles(p: FlatRoofParams)
  {
    p.tileZOffset < -1.0
  }

  function FinalLength(p: FlatRoofParams): real
  {
    p.length - p.inset * 2.0
  }

  function FinalWidth(p: FlatRoofParams): real
  {
    p.width - p.inset * 2.0
  }

  function FinalIntLength(p: FlatRoofParams): real
  {
    p.length - 2.0 * (p.inset + p.wallWidth) - 2.0 * p.roofChamfer
  }

  function FinalIntWidth(p: FlatRoofParams): real
  {
    p.width - 2.0 * (p.inset + p.wallWidth) - 2.0 * p.roofChamfer
  }

  function TileSpace(p: FlatRoofParams): real
  {
    p.tileSize + p.tilePadding
  }

  function SlotTranslation(p: FlatRoofParams): real
  {
    p.tileSize * 0.143
  }

  function SlotRadius(p: FlatRoofParams): real
  {
    p.tileSize * 0.095
  }

  function SlotLengthMd(p: FlatRoofParams): real
  {
    p.tileSize - p.tileSize * 0.333
  }

  function SlotLengthSm(p: FlatRoofParams): real
  {
    p.tileSize - p.tileSize * 0.666
  }

  /**
   * The interior is the final outline less a wall and a chamfer on each side,
   * so it is never larger than the outline when both are non-negative.
   */
  lemma InteriorInsideOutline(p: FlatRoofParams)
    ensures FinalIntLength(p) == FinalLength(p) - 2.0 * (p.wallWidth + p.roofChamfer)
    ensures FinalIntWidth(p) == FinalWidth(p) - 2.0 * (p.wallWidth + p.roofChamfer)
    ensures p.wallWidth + p.roofChamfer >= 0.0 ==>
      FinalIntLength(p) <= FinalLength(p) && FinalIntWidth(p) <= FinalWidth(p)
  {
  }

  /**
   * For a tile of positive size the three slot lengths are ordered short,
   * mid, full, and the slot is thinner than the step between parallel slots.
   */
  lemma SlotsFitTile(p: FlatRoofParams)
    requires p.tileSize > 0.0
    ensures 0.0 < SlotLengthSm(p) < SlotLengthMd(p) < p.tileSize
    ensures 0.0 < SlotRadius(p) < SlotTranslation(p)
    ensures SlotLengthMd(p) - SlotLengthSm(p) == p.tileSize * 0.333
  {
  }

  /**
   * The roof body. With no chamfer it is the plain box and nothing else is
   * checked; otherwise the chamfer must be lower than the roof and the
   * operation must name, in any letter case, a chamfer or a fillet.
   */
  function RoofBody(p: FlatRoofParams): (r: Result<Solid, Error>)
    ensures p.roofChamfer == 0.0 ==> r == Ok(Box(FinalLength(p), FinalWidth(p), p.height))
    ensures p.roofChamfer != 0.0 && p.roofChamfer >= p.height ==>
      r == Err(ChamferTooLarge(p.roofChamfer, p.height))
    ensures r.Ok? <==>
      p.roofChamfer == 0.0
      || (p.roofChamfer < p.height && (Lower(p.roofOperation) == "chamfer" || Lower(p.roofOperation) == "fillet"))
    ensures r.Ok? && p.roofChamfer != 0.0 ==>
      if Lower(p.roofOperation) == "chamfer"
      then r.value == Chamfered(Box(FinalLength(p), FinalWidth(p), p.height), p.roofChamfer)
      else r.value == Filleted(Box(FinalLength(p), FinalWidth(p), p.height), p.roofChamfer)
  {
    var body := Box(FinalLength(p), FinalWidth(p), p.height);
    if p.roofChamfer == 0.0 then Ok(body)
    else if p.roofChamfer >= p.height then Err(ChamferTooLarge(p.roofChamfer, p.height))
    else if Lower(p.roofOperation) == "chamfer" then Ok(Chamfered(body, p.roofChamfer))
    else if Lower(p.roofOperation) == "fillet" then Ok(Filleted(body, p.roofChamfer))
    else Err(UnrecognisedOperation(p.roofOperation))
  }

  /**
   * Any spelling whose lower case is "fillet" fillets the roof, and any whose
   * lower case is "chamfer" chamfers it; "FilLeT" is one such spelling.
   */
  lemma FilletAnyCase(p: FlatRoofParams)
    requires p.roofChamfer != 0.0 && p.roofChamfer < p.height
    ensures Lower(p.roofOperation) == "fillet" ==>
      RoofBody(p) == Ok(Filleted(Box(FinalLength(p), FinalWidth(p), p.height), p.roofChamfer))
    ensures Lower(p.roofOperation) == "chamfer" ==>
      RoofBody(p) == Ok(Chamfered(Box(FinalLength(p), FinalWidth(p), p.height), p.roofChamfer))
    ensures Lower("FilLeT") == "fillet"
  {
    assert Lower("FilLeT") == "fillet";
  }

  /** Where the tile grid's centre plane goes: on the roof, or sunk into its top. */
  function TileZ(p: FlatRoofParams): real
  {
    var baseZ := p.height / 2.0 + p.tileHeight / 2.0;
    if ShouldCutTiles(p) then p.height - baseZ else baseZ
  }

  /** The slotted tile grid, `floor(interior / tile space)` tiles each way. */
  function RoofTiles(p: FlatRoofParams): Solid
    requires TileSpace(p) != 0.0
  {
    var rows := (FinalIntLength(p) / TileSpace(p)).Floor;
    var columns := (FinalIntWidth(p) / TileSpace(p)).Floor;
    Moved(TileGrid(Kernel("slotted roof tile"), rows, columns, TileSpace(p), TileSpace(p), 0.0, 0.0),
          0.0, 0.0, TileZ(p))
  }

  /**
   * Added tiles rest on the roof's top face; cut tiles end flush with it, so
   * the cut leaves a recess one tile deep. The grid has as many rows and
   * columns as whole tile spaces fit in the interior.
   */
  lemma TilesMeetRoofTop(p: FlatRoofParams)
    requires TileSpace(p) > 0.0
    ensures !ShouldCutTiles(p) ==> TileZ(p) - p.tileHeight / 2.0 == p.height / 2.0
    ensures ShouldCutTiles(p) ==> TileZ(p) + p.tileHeight / 2.0 == p.height / 2.0
    ensures FinalIntLength(p) >= 0.0 ==>
      RoofTiles(p).solid.rows == Count(FinalIntLength(p), TileSpace(p))
      && RoofTiles(p).solid.rows as real * TileSpace(p) <= FinalIntLength(p)
      && FinalIntLength(p) < (RoofTiles(p).solid.rows + 1) as real * TileSpace(p)
    ensures FinalIntWidth(p) >= 0.0 ==>
      RoofTiles(p).solid.columns == Count(FinalIntWidth(p), TileSpace(p))
      && RoofTiles(p).solid.columns as real * TileSpace(p) <= FinalIntWidth(p)
      && FinalIntWidth(p) < (RoofTiles(p).solid.columns + 1) as real * TileSpace(p)
  {
    if FinalIntLength(p) >= 0.0 {
      CountFits(FinalIntLength(p), TileSpace(p));
    }
    if FinalIntWidth(p) >= 0.0 {
      CountFits(FinalIntWidth(p), TileSpace(p));
    }
  }

  /** The hatch the roof builds, standing for the hatch sub-assembly. */
  function HatchUnit(p: FlatRoofParams): Unit
  {
    Unit(SubAssembly("Hatch", p.hatchLength, p.hatchWidth, p.hatchHeight), p.hatchLength, 0.0)
  }

  /** The series-helper settings make_hatches uses, on the roof interior. */
  function HatchPlacement(p: FlatRoofParams): Placement
  {
    Placement(
      HatchUnit(p),
      p.panelLength - p.hatchLength + p.panelPadding * 2.0,
      FinalIntLength(p) / 2.0 - p.hatchWidth / 2.0,
      FinalIntWidth(p) / 2.0 - p.hatchWidth / 2.0,
      p.height / 2.0 + p.hatchHeight / 2.0,
      Mask([], p.hatchPanels))
  }

  /** The series helper's verdict on the hatch settings. */
  function HatchValidation(p: FlatRoofParams): Option<Error>
  {
    Validation(Some(HatchUnit(p)), FinalIntLength(p), FinalIntWidth(p), p.panelLength, p.panelPadding)
  }

  /** The hatches as the series helper lays them out on the interior. */
  function RoofHatches(p: FlatRoofParams): seq<Bay>
    requires HatchValidation(p).None?
  {
    Layout(Count(FinalIntLength(p), p.panelLength + p.panelPadding),
           Count(FinalIntWidth(p), p.panelLength + p.panelPadding),
           HatchPlacement(p))
  }

  /**
   * Hatches stand on the roof's top face, sit at exactly the bays hatch_panels
   * names, and the default roof (panel sizes 0) cannot place any: its series
   * helper rejects the component size.
   */
  lemma HatchesOnKeptBays(p: FlatRoofParams)
    requires HatchValidation(p).None?
    requires |p.hatchPanels| > 0
    ensures forall b :: b in RoofHatches(p) ==> b.z - p.hatchHeight / 2.0 == p.height / 2.0
    ensures var nx := Count(FinalIntLength(p), p.panelLength + p.panelPadding);
      var ny := Count(FinalIntWidth(p), p.panelLength + p.panelPadding);
      forall i :: 0 <= i < 2 * nx + 2 * ny ==>
        (i in Indices(RoofHatches(p), nx, ny) <==> i in p.hatchPanels)
  {
    var nx := Count(FinalIntLength(p), p.panelLength + p.panelPadding);
    var ny := Count(FinalIntWidth(p), p.panelLength + p.panelPadding);
    HatchesOnRoofTop(p, nx, ny);
    LayoutIndices(nx, ny, HatchPlacement(p));
    RetainedExactly(2 * nx + 2 * ny, Mask([], p.hatchPanels));
  }

  lemma HatchesOnRoofTop(p: FlatRoofParams, nx: nat, ny: nat)
    ensures forall b :: b in Layout(nx, ny, HatchPlacement(p)) ==> b.z - p.hatchHeight / 2.0 == p.height / 2.0
  {
    var all := Perimeter(nx, ny, HatchPlacement(p));
    PerimeterOrder(nx, ny, HatchPlacement(p));
    MaskedMembers(all, HatchPlacement(p).mask);
  }

  lemma DefaultRoofRejectsHatches()
    ensures HatchValidation(DefaultFlatRoof()) == Some(ComponentSizeUnset)
  {
  }

  /** The four blind holes at the bottom corners of the final outline. */
  function HoleCuts(p: FlatRoofParams): seq<Solid>
  {
    var radius := p.holeDiameter / 2.0;
    Corners(Cylinder(p.holeDepth, radius),
            FinalLength(p) / 2.0 - radius - p.holeInset,
            FinalWidth(p) / 2.0 - radius - p.holeInset,
            -(p.height / 2.0 - p.holeDepth / 2.0))
  }

  /**
   * Every hole opens on the roof's bottom face, is hole_depth deep, and keeps
   * hole_inset between its rim and the nearest outline edges.
   */
  lemma HolesAtBottomCorners(p: FlatRoofParams)
    ensures |HoleCuts(p)| == 4
    ensures forall h :: h in HoleCuts(p) ==>
      ZSpan(h) == Some((-p.height / 2.0, -p.height / 2.0 + p.holeDepth))
    ensures HoleCuts(p)[0].dx + p.holeDiameter / 2.0 + p.holeInset == FinalLength(p) / 2.0
    ensures HoleCuts(p)[0].dy + p.holeDiameter / 2.0 + p.holeInset == FinalWidth(p) / 2.0
  {
    var holes := HoleCuts(p);
    forall h | h in holes
      ensures ZSpan(h) == Some((-p.height / 2.0, -p.height / 2.0 + p.holeDepth))
    {
      assert h == holes[0] || h == holes[1] || h == holes[2] || h == holes[3];
    }
  }

  /** The error make() stops at: the body's, else the hatch helper's when hatches are asked for. */
  function MakeError(p: FlatRoofParams): Option<Error>
  {
    if RoofBody(p).Err? then Some(RoofBody(p).error)
    else if |p.hatchPanels| > 0 then HatchValidation(p)
    else None
  }

  /** Rank of a flat-roof build step: body, holes, hatches, tiles. */
  function FlatRank(s: Step): int
  {
    match s
    case Union(Body) => 0
    case Cut(Holes) => 1
    case Add(Hatches) => 2
    case _ => 3
  }

  /**
   * What build() applies, given which memoized solids exist: the body first,
   * then the hole cut, the hatches, and the tiles cut or added.
   */
  function FlatSteps(p: FlatRoofParams, hasHoles: bool, hasHatches: bool, hasTiles: bool): (r: seq<Step>)
    ensures |r| > 0 && r[0] == Union(Body)
    ensures Cut(Holes) in r <==> p.cutHoles && hasHoles
    ensures Add(Hatches) in r <==> hasHatches
    ensures Cut(Tiles) in r <==> p.renderTiles && hasTiles && ShouldCutTiles(p)
    ensures Add(Tiles) in r <==> p.renderTiles && hasTiles && !ShouldCutTiles(p)
    ensures forall i, j :: 0 <= i < j < |r| ==> FlatRank(r[i]) < FlatRank(r[j])
  {
    [Union(Body)]
    + Gated(p.cutHoles && hasHoles, Cut(Holes))
    + Gated(hasHatches, Add(Hatches))
    + Gated(p.renderTiles && hasTiles && ShouldCutTiles(p), Cut(Tiles))
    + Gated(p.renderTiles && hasTiles && !ShouldCutTiles(p), Add(Tiles))
  }

  class FlatRoof {
    var params: FlatRoofParams
    var makeCalled: bool
    var roofBody: Option<Solid>
    var tiles: Option<Solid>
    var hatches: Option<seq<Bay>>
    var holes: Option<seq<Solid>>

    constructor ()
      ensures params == DefaultFlatRoof() && !makeCalled
      ensures roofBody == None && tiles == None && hatches == None && holes == None
    {
      params := DefaultFlatRoof();
      makeCalled := false;
      roofBody, tiles, hatches, holes := None, None, None, None;
    }

    /** Stores the body, or reports why it cannot be made and stores nothing. */
    method MakeRoofBody() returns (err: Option<Error>)
      modifies this`roofBody
      ensures RoofBody(params).Ok? ==> err.None? && roofBody == Some(RoofBody(params).value)
      ensures RoofBody(params).Err? ==> err == Some(RoofBody(params).error) && roofBody == old(roofBody)
    {
      var body := Box(FinalLength(params), FinalWidth(params), params.height);
      if params.roofChamfer == 0.0 {
        roofBody := Some(body);
        return None;
      }
      if params.roofChamfer >= params.height {
        return Some(ChamferTooLarge(params.roofChamfer, params.height));
      }
      var operation := Lower(params.roofOperation);
      if operation == "chamfer" {
        body := Chamfered(body, params.roofChamfer);
      } else if operation == "fillet" {
        body := Filleted(body, params.roofChamfer);
      } else {
        return Some(UnrecognisedOperation(params.roofOperation));
      }
      roofBody := Some(body);
      err := None;
    }

    method MakeTiles()
      modifies this`tiles
      requires TileSpace(params) != 0.0
      ensures tiles == Some(RoofTiles(params))
    {
      var space := TileSpace(params);
      var columns := (FinalIntWidth(params) / space).Floor;
      var rows := (FinalIntLength(params) / space).Floor;
      var grid := TileGrid(Kernel("slotted roof tile"), rows, columns, space, space, 0.0, 0.0);
      var baseZ := params.height / 2.0 + params.tileHeight / 2.0;
      var z;
      if ShouldCutTiles(params) {
        z := params.height - baseZ;
      } else {
        z := baseZ;
      }
      tiles := Some(Moved(grid, 0.0, 0.0, z));
    }

    /** Hands the hatch settings to a fresh series helper; its error leaves the hatches as they were. */
    method MakeHatches() returns (err: Option<Error>)
      modifies this`hatches
      ensures err == HatchValidation(params)
      ensures err.None? ==> hatches == Some(RoofHatches(params))
      ensures err.Some? ==> hatches == old(hatches)
    {
      var p := params;
      var helper := new SeriesHelper();
      helper.shape := Some(HatchUnit(p));
      helper.outerLength := FinalIntLength(p);
      helper.outerWidth := FinalIntWidth(p);
      helper.lengthOffset := p.panelLength - p.hatchLength + p.panelPadding * 2.0;
      helper.compLength := p.panelLength;
      helper.compPadding := p.panelPadding;
      helper.xTranslate := FinalIntLength(p) / 2.0 - p.hatchWidth / 2.0;
      helper.yTranslate := FinalIntWidth(p) / 2.0 - p.hatchWidth / 2.0;
      helper.zTranslate := p.height / 2.0 + p.hatchHeight / 2.0;
      helper.keepList := p.hatchPanels;
      assert helper.Placing() == HatchPlacement(p);
      assert helper.outerLength == FinalIntLength(p) && helper.outerWidth == FinalIntWidth(p);
      assert helper.compLength + helper.compPadding == p.panelLength + p.panelPadding;
      err := helper.Make();
      if err.Some? {
        return;
      }
      assert helper.scene == Some(RoofHatches(p));
      var scene := helper.GetScene();
      hatches := Some(scene.value);
    }

    method MakeHoleCuts()
      modifies this`holes
      ensures holes == Some(HoleCuts(params))
    {
      var radius := params.holeDiameter / 2.0;
      var x := FinalLength(params) / 2.0 - radius - params.holeInset;
      var y := FinalWidth(params) / 2.0 - radius - params.holeInset;
      var z := -1.0 * (params.height / 2.0 - params.holeDepth / 2.0);
      holes := Some(Corners(Cylinder(params.holeDepth, radius), x, y, z));
    }

    /**
     * Marks the roof made, then builds the body, the tiles when rendered, the
     * hatches when any bay is named, and the holes when cut. The first error
     * stops it; what was stored before it stays.
     */
    method Make() returns (err: Option<Error>)
      modifies this`makeCalled, this`roofBody, this`tiles, this`hatches, this`holes
      requires RoofBody(params).Ok? && params.renderTiles ==> TileSpace(params) != 0.0
      ensures makeCalled
      ensures err == MakeError(params)
      ensures RoofBody(params).Ok? ==> roofBody == Some(RoofBody(params).value)
      ensures RoofBody(params).Err? ==> roofBody == old(roofBody)
      ensures tiles == (if RoofBody(params).Ok? && params.renderTiles then Some(RoofTiles(params)) else old(tiles))
      ensures hatches == (if RoofBody(params).Ok? && |params.hatchPanels| > 0 && HatchValidation(params).None?
                          then Some(RoofHatches(params)) else old(hatches))
      ensures holes == (if err.None? && params.cutHoles then Some(HoleCuts(params)) else old(holes))
    {
      makeCalled := true;
      err := MakeRoofBody();
      if err.Some? {
        return;
      }
      if params.renderTiles {
        MakeTiles();
      }
      if |params.hatchPanels| > 0 {
        err := MakeHatches();
        if err.Some? {
          return;
        }
      }
      if params.cutHoles {
        MakeHoleCuts();
      }
    }

    /**
     * Refuses before make(); fails when make() stopped before storing the
     * body, which the union then receives as nothing; otherwise the body
     * followed by the gated steps.
     */
    method Build() returns (r: Result<seq<Step>, Error>)
      ensures !makeCalled ==> r == Err(NotMade)
      ensures makeCalled && roofBody.None? ==> r == Err(MissingSolid)
      ensures makeCalled && roofBody.Some? ==> r == Ok(FlatSteps(params, holes.Some?, hatches.Some?, tiles.Some?))
    {
      if !makeCalled {
        return Err(NotMade);
      }
      if roofBody.None? {
        return Err(MissingSolid);
      }
      var result := [Union(Body)];
      result := result + Gated(params.cutHoles && holes.Some?, Cut(Holes));
      result := result + Gated(hatches.Some?, Add(Hatches));
      var tilesOn := params.renderTiles && tiles.Some?;
      result := result + Gated(tilesOn && ShouldCutTiles(params), Cut(Tiles));
      result := result + Gated(tilesOn && !ShouldCutTiles(params), Add(Tiles));
      return Ok(result);
    }
  }
}

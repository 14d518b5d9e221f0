/**
 * The bunker's roof: the bunker's settings copied onto its detailed roof
 * object, which is then made. The roof overhangs the body by the roof
 * overflow, puts its hatches over the ladder bays, and drills holes for the
 * pips or magnets when either is rendered.
 */
module BunkerRoof {
  import opened Common
  import opened Series
  import opened FlatRoofs
  import opened DetailedRoofs
  import opened BunkerState
  import opened BunkerBody
  import opened BunkerPips

  /** Length or width of the roof before its own inset: the outline less the body inset, plus the overflow, on each side. */
  function RoofSpan(outer: real, body: BodyParams, roof: RoofSettings): real
  {
    outer - 2.0 * (body.inset - roof.roofOverflow)
  }

  /** The flat-roof settings the bunker assigns; the ones it does not assign keep their previous values. */
  function RoofFlatSettings(prev: FlatRoofParams, body: BodyParams, panel: PanelParams, ladder: LadderParams,
                            floor: FloorParams, pip: PipParams, roof: RoofSettings): FlatRoofParams
  {
    prev.(height := roof.roofHeight,
          length := RoofSpan(body.length, body, roof), width := RoofSpan(body.width, body, roof),
          inset := roof.roofInset,
          roofChamfer := body.cornerChamfer, roofOperation := roof.roofChamferOperation,
          wallWidth := body.wallWidth,
          renderTiles := floor.renderFloorTiles, tileSize := roof.roofTileSize,
          tilePadding := roof.roofTilePadding, tileHeight := roof.roofTileHeight,
          hatchPanels := ladder.ladderPanels, hatchLength := roof.roofHatchLength, hatchWidth := roof.roofHatchWidth,
          hatchRadius := roof.roofHatchRadius, hatchHeight := roof.roofHatchHeight,
          panelLength := panel.panelLength, panelPadding := panel.panelPadding,
          cutHoles := pip.renderPips || pip.renderMagnets,
          holeDiameter := (pip.pipRadius * 2.0) * roof.roofPipHoleMod,
          holeDepth := pip.pipHeight * roof.roofPipHoleMod,
          holeInset := pip.pipPadding)
  }

  function RoofDetailSettings(prev: DetailParams, intLength: Option<real>, intWidth: Option<real>, roof: RoofSettings): DetailParams
  {
    prev.(bunkerIntLength := intLength, bunkerIntWidth := intWidth,
          wallDetailsInset := roof.roofWallDetailsInset, roofOverflow := roof.roofOverflow)
  }

  /**
   * What the roof takes from the bunker: its hatches go on the ladder bays,
   * it drills holes exactly when pips or magnets are rendered, and its outline
   * overhangs the body's top face by the overflow less the roof inset on every side.
   */
  lemma RoofFollowsBunker(prev: FlatRoofParams, body: BodyParams, panel: PanelParams, ladder: LadderParams,
                          floor: FloorParams, pip: PipParams, roof: RoofSettings)
    ensures var p := RoofFlatSettings(prev, body, panel, ladder, floor, pip, roof);
      && p.hatchPanels == ladder.ladderPanels
      && (p.cutHoles <==> pip.renderPips || pip.renderMagnets)
      && FinalLength(p) / 2.0 - TopSpan(body.length, body.inset) / 2.0 == roof.roofOverflow - roof.roofInset
      && FinalWidth(p) / 2.0 - TopSpan(body.width, body.inset) / 2.0 == roof.roofOverflow - roof.roofInset
      && p.tileZOffset == prev.tileZOffset && p.hatchZTranslate == prev.hatchZTranslate
  {
  }

  /**
   * Where the roof's holes fall relative to the pips they receive: offset
   * outwards by the overhang plus the change in radius. They are centred on
   * the pips exactly when the hole modifier is 1 and the overflow equals the
   * roof inset; with every default they miss by 4 on each axis.
   */
  lemma RoofHolesOffsetFromPips(prev: FlatRoofParams, body: BodyParams, panel: PanelParams, ladder: LadderParams,
                                floor: FloorParams, pip: PipParams, roof: RoofSettings)
    ensures var p := RoofFlatSettings(prev, body, panel, ladder, floor, pip, roof);
      && HoleCuts(p)[0].dx - TopPips(body, pip)[0].dx == roof.roofOverflow - roof.roofInset + pip.pipRadius * (1.0 - roof.roofPipHoleMod)
      && HoleCuts(p)[0].dy - TopPips(body, pip)[0].dy == roof.roofOverflow - roof.roofInset + pip.pipRadius * (1.0 - roof.roofPipHoleMod)
    ensures var p := RoofFlatSettings(DefaultFlatRoof(), DefaultBody(), DefaultPanels(), DefaultLadders(), DefaultFloor(),
                                      DefaultPips(), DefaultRoofSettings());
      HoleCuts(p)[0].dx - TopPips(DefaultBody(), DefaultPips())[0].dx == 4.0
  {
    var p := RoofFlatSettings(prev, body, panel, ladder, floor, pip, roof);
    var r := pip.pipRadius;
    var m := roof.roofPipHoleMod;
    assert HoleCuts(p)[0].dx == FinalLength(p) / 2.0 - p.holeDiameter / 2.0 - p.holeInset;
    assert p.holeDiameter / 2.0 == r * m;
    assert r * m == r - r * (1.0 - m);
  }

  /**
   * The roof counts its hatch bays over its own interior, not the bunker's,
   * so the two series can differ: a 120 by 100 bunker with the other
   * settings at their defaults has 2 ladder bays along its length and the
   * roof 3 hatch bays, while the 100 by 100 default has 2 and 2.
   */
  lemma HatchCountsFollowRoofInterior()
    ensures var body := DefaultBody().(length := 120.0);
      var p := RoofFlatSettings(DefaultFlatRoof(), body, DefaultPanels(), DefaultLadders(), DefaultFloor(),
                                DefaultPips(), DefaultRoofSettings());
      && Count(InteriorSpan(body.length, body.inset, body.wallWidth), Pitch(DefaultPanels())) == 2
      && Count(FinalIntLength(p), p.panelLength + p.panelPadding) == 3
    ensures var body := DefaultBody();
      var p := RoofFlatSettings(DefaultFlatRoof(), body, DefaultPanels(), DefaultLadders(), DefaultFloor(),
                                DefaultPips(), DefaultRoofSettings());
      && Count(InteriorSpan(body.length, body.inset, body.wallWidth), Pitch(DefaultPanels())) == 2
      && Count(FinalIntLength(p), p.panelLength + p.panelPadding) == 2
  {
    assert (70.0 / 32.0).Floor == 2;
    assert (90.0 / 32.0).Floor == 2;
    assert (78.0 / 32.0).Floor == 2;
    assert (98.0 / 32.0).Floor == 3;
  }

  /**
   * Copies the bunker's settings onto its roof object and makes it with the
   * roof angle given from outside. The roof is kept only when its make succeeds.
   */
  method MakeRoof(b: Bunker, roofAngle: real) returns (err: Option<Error>)
    requires var p := RoofFlatSettings(b.roofObject.flat.params, b.body, b.panel, b.ladder, b.floor, b.pip, b.roof);
      RoofBody(p).Ok? && p.renderTiles ==> TileSpace(p) != 0.0
    modifies b`roofBp, b.roofObject.flat`params, b.roofObject`detail
    modifies b.roofObject.flat`makeCalled, b.roofObject.flat`roofBody, b.roofObject.flat`tiles
    modifies b.roofObject.flat`hatches, b.roofObject.flat`holes
    modifies b.roofObject`angle, b.roofObject`cutWalls, b.roofObject`wallDetails
    ensures b.roofObject.flat.params
         == RoofFlatSettings(old(b.roofObject.flat.params), b.body, b.panel, b.ladder, b.floor, b.pip, b.roof)
    ensures b.roofObject.detail == RoofDetailSettings(old(b.roofObject.detail), b.intLength, b.intWidth, b.roof)
    ensures b.roofObject.flat.makeCalled
    ensures err == MakeError(b.roofObject.flat.params)
    ensures err.None? ==> b.roofBp == Some(b.roofObject) && b.roofObject.angle == roofAngle
    ensures err.None? ==> b.roofObject.flat.roofBody == Some(RoofBody(b.roofObject.flat.params).value)
    ensures err.None? ==> b.roofObject.cutWalls.Some? && b.roofObject.wallDetails.Some?
    ensures err.None? && b.roofObject.flat.params.cutHoles ==>
      b.roofObject.flat.holes == Some(HoleCuts(b.roofObject.flat.params))
    ensures err.Some? ==> b.roofBp == old(b.roofBp)
  {
    var bp := b.roofObject;
    var length := b.body.length - (2.0 * (b.body.inset - b.roof.roofOverflow));
    var width := b.body.width - (2.0 * (b.body.inset - b.roof.roofOverflow));
    var p := bp.flat.params;
    var d := bp.detail;
    p := p.(height := b.roof.roofHeight, length := length, width := width, inset := b.roof.roofInset);
    d := d.(bunkerIntLength := b.intLength, bunkerIntWidth := b.intWidth);
    p := p.(roofChamfer := b.body.cornerChamfer, roofOperation := b.roof.roofChamferOperation,
            wallWidth := b.body.wallWidth);
    d := d.(wallDetailsInset := b.roof.roofWallDetailsInset);
    p := p.(renderTiles := b.floor.renderFloorTiles, tileSize := b.roof.roofTileSize,
            tilePadding := b.roof.roofTilePadding, tileHeight := b.roof.roofTileHeight);
    p := p.(hatchPanels := b.ladder.ladderPanels, hatchLength := b.roof.roofHatchLength,
            hatchWidth := b.roof.roofHatchWidth, hatchRadius := b.roof.roofHatchRadius,
            hatchHeight := b.roof.roofHatchHeight);
    p := p.(panelLength := b.panel.panelLength, panelPadding := b.panel.panelPadding);
    if b.pip.renderPips || b.pip.renderMagnets {
      p := p.(cutHoles := true);
    } else {
      p := p.(cutHoles := false);
    }
    p := p.(holeDiameter := (b.pip.pipRadius * 2.0) * b.roof.roofPipHoleMod,
            holeDepth := b.pip.pipHeight * b.roof.roofPipHoleMod,
            holeInset := b.pip.pipPadding);
    d := d.(roofOverflow := b.roof.roofOverflow);
    assert p == RoofFlatSettings(bp.flat.params, b.body, b.panel, b.ladder, b.floor, b.pip, b.roof);
    assert d == RoofDetailSettings(bp.detail, b.intLength, b.intWidth, b.roof);
    bp.flat.params := p;
    bp.detail := d;
    err := bp.Make(roofAngle);
    if err.None? {
      b.roofBp := Some(bp);
    }
  }
}

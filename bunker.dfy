/**
 * The bunker's shared state. The bunker is assembled from feature modules
 * (body, panels, windows, doors, ladders, floor cuts, floor, pips, roof),
 * each of which reads the settings below and stores its solids on the one
 * bunker object. Each group of settings is the record one feature module
 * initialises; the solids are the fields its make functions write.
 */
module BunkerState {
  import opened Common
  import opened Series
  import opened DetailedRoofs

  datatype BodyParams = BodyParams(
    length: real, width: real, height: real, baseHeight: real,
    floorThickness: Option<real>, cornerChamfer: real, angle: real,
    inset: real, wallWidth: real, renderInterior: bool, renderBase: bool)

  function DefaultBody(): BodyParams
  {
    BodyParams(100.0, 100.0, 75.0, 3.0, None, 0.0, 0.0, 10.0, 5.0, true, true)
  }

  datatype PanelParams = PanelParams(
    renderPanelDetails: bool, panelLength: real, panelWidth: real, panelPadding: real)

  function DefaultPanels(): PanelParams
  {
    PanelParams(true, 28.0, 6.0, 4.0)
  }

  /** Window settings; a custom factory is modelled as the unit it returns for this bunker. */
  datatype WindowParams = WindowParams(
    renderWindows: bool, windowWidthOffset: real, windowLength: real, windowWidth: Option<real>,
    windowHeight: real, windowLengthPadding: real, windowFrameWidth: real, windowFrameChamfer: real,
    skipWindows: seq<int>,
    customCutWindow: Option<Unit>, customCutWindowPadding: real,
    customWindow: Option<Unit>, customWindowPadding: real)

  function DefaultWindows(): WindowParams
  {
    WindowParams(true, -2.0, 15.0, None, 20.0, 0.0, 2.0, 1.6, [0], None, 0.0, None, 0.0)
  }

  datatype DoorParams = DoorParams(
    renderDoors: bool, doorPanels: seq<int>,
    doorLength: real, doorWidth: real, doorHeight: real, doorFillet: real,
    customCutDoor: Option<Unit>, customCutDoorPadding: real,
    customDoor: Option<Unit>, customDoorPadding: real)

  function DefaultDoors(): DoorParams
  {
    DoorParams(true, [0, 3], 23.0, 5.0, 35.0, 4.0, None, 0.0, None, 0.0)
  }

  /** The ladder sub-assembly's size, which the ladder module sets and a custom hook may change. */
  datatype Ladder = Ladder(length: real, width: real, height: real)

  datatype LadderParams = LadderParams(
    renderLadders: bool, ladderPanels: seq<int>, ladderLength: real, ladderZTranslate: real)

  function DefaultLadders(): LadderParams
  {
    LadderParams(true, [0], 20.0, 0.0)
  }

  datatype FloorCutParams = FloorCutParams(
    renderFloorCuts: bool, floorCutLength: real, floorCutWidth: real, floorCutChamfer: real,
    floorCutPanels: seq<int>)

  function DefaultFloorCuts(): FloorCutParams
  {
    FloorCutParams(false, 28.0, 28.0, 3.0, [0])
  }

  datatype FloorParams = FloorParams(
    renderFloorTiles: bool, floorPadding: real, floorTileSize: real, floorTileHeight: real,
    floorChamferSize: real, floorMidTileSize: real, floorTilePadding: real,
    customFloorTile: Option<Solid>)

  function DefaultFloor(): FloorParams
  {
    FloorParams(true, 0.0, 11.0, 1.0, 2.4, 3.2, 1.0, None)
  }

  datatype PipParams = PipParams(
    renderPips: bool, renderMagnets: bool, pipRadius: real, pipHeight: real, pipPadding: real)

  function DefaultPips(): PipParams
  {
    PipParams(false, false, 1.55, 2.1, 1.5)
  }

  datatype RoofSettings = RoofSettings(
    renderRoof: bool, roofHeight: real, roofInset: real, roofOverflow: real, roofWallDetailsInset: real,
    roofChamferOperation: string,
    roofTileSize: real, roofTilePadding: real, roofTileHeight: real,
    roofHatchLength: real, roofHatchWidth: real, roofHatchRadius: real, roofHatchHeight: real,
    roofPipHoleMod: real)

  function DefaultRoofSettings(): RoofSettings
  {
    RoofSettings(true, 18.0, -3.0, 1.0, -0.8, "chamfer", 21.0, 2.0, 1.5, 25.0, 25.0, 11.0, 6.0, 1.0)
  }

  /** floor_thickness when set and non-zero, else the wall width. */
  function FloorThickness(body: BodyParams): real
  {
    OrElse(body.floorThickness, body.wallWidth)
  }

  /** The pitch the bunker's series counts are taken with: panel length plus padding. */
  function Pitch(panel: PanelParams): real
  {
    panel.panelLength + panel.panelPadding
  }

  /**
   * The bunker's series: floor(interior / pitch) copies per side, laid out
   * on the four sides and filtered by the placement's mask.
   */
  function HostLayout(panel: PanelParams, intLength: real, intWidth: real, p: Placement): seq<Bay>
    requires Pitch(panel) != 0.0
  {
    Layout(Count(intLength, Pitch(panel)), Count(intWidth, Pitch(panel)), p)
  }

  class Bunker {
    var body: BodyParams
    var panel: PanelParams
    var window: WindowParams
    var door: DoorParams
    var ladder: LadderParams
    var customLadder: Option<Ladder -> Ladder>
    var floorCut: FloorCutParams
    var floor: FloorParams
    var pip: PipParams
    var roof: RoofSettings

    var intLength: Option<real>
    var intWidth: Option<real>
    var wedge: Option<Solid>
    var interiorRectangle: Option<Solid>
    var base: Option<Solid>
    var cutPanels: Option<seq<Bay>>
    var panels: Option<seq<Bay>>
    var cutWindows: Option<seq<Bay>>
    var windows: Option<seq<Bay>>
    var cutDoors: Option<seq<Bay>>
    var doors: Option<seq<Bay>>
    var ladders: Option<seq<Bay>>
    var floorCuts: Option<seq<Bay>>
    var interiorTiles: Option<Solid>
    var pips: Option<seq<Solid>>
    var cutPips: Option<seq<Solid>>
    var roofObject: DetailedRoof
    var roofBp: Option<DetailedRoof>

    /** Every feature module's defaults, no solids made, and a fresh detailed roof to configure. */
    constructor ()
      ensures body == DefaultBody() && panel == DefaultPanels() && window == DefaultWindows()
      ensures door == DefaultDoors() && ladder == DefaultLadders() && customLadder.None?
      ensures floorCut == DefaultFloorCuts() && floor == DefaultFloor() && pip == DefaultPips()
      ensures roof == DefaultRoofSettings()
      ensures intLength == None && intWidth == None
      ensures wedge == None && interiorRectangle == None && base == None
      ensures cutPanels == None && panels == None && cutWindows == None && windows == None
      ensures cutDoors == None && doors == None && ladders == None && floorCuts == None
      ensures interiorTiles == None && pips == None && cutPips == None
      ensures fresh(roofObject) && fresh(roofObject.flat) && roofBp == None
    {
      body, panel, window, door := DefaultBody(), DefaultPanels(), DefaultWindows(), DefaultDoors();
      ladder, customLadder := DefaultLadders(), None;
      floorCut, floor, pip, roof := DefaultFloorCuts(), DefaultFloor(), DefaultPips(), DefaultRoofSettings();
      intLength, intWidth := None, None;
      wedge, interiorRectangle, base := None, None, None;
      cutPanels, panels, cutWindows, windows := None, None, None, None;
      cutDoors, doors, ladders, floorCuts := None, None, None, None;
      interiorTiles, pips, cutPips := None, None, None;
      roofObject := new DetailedRoof();
      roofBp := None;
    }

    /** Whether the series can run: the interior is measured and the pitch is non-zero. */
    predicate SeriesReady()
      reads this
    {
      intLength.Some? && intWidth.Some? && Pitch(panel) != 0.0
    }

    /**
     * The series every feature module places its unit with, over the
     * interior the body module measured.
     */
    method MakeSeries(p: Placement) returns (bays: seq<Bay>)
      requires SeriesReady()
      ensures bays == HostLayout(panel, intLength.value, intWidth.value, p)
    {
      var xCount := Count(intLength.value, panel.panelLength + panel.panelPadding);
      var yCount := Count(intWidth.value, panel.panelLength + panel.panelPadding);
      var scene := Perimeter(xCount, yCount, p);
      bays := ApplyMask(scene, p.mask);
    }
  }
}

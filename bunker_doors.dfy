/**
 * The doors: a filleted opening cut through the wall at each door bay and a
 * blast door standing in it, both on the interior floor.
 */
module BunkerDoors {
  import opened Common
  import opened Series
  import opened BunkerState
  import opened BunkerBody

  /** Depth of the door opening: the inset plus a wall, or the overhang plus a wall when the inset is negative. */
  function DoorCutWidth(body: BodyParams): real
  {
    if body.inset < 0.0 then -1.0 * body.inset + body.wallWidth else body.inset + body.wallWidth
  }

  /** The z lift that stands a door_height tall unit on the interior floor. */
  function DoorLift(body: BodyParams, door: DoorParams): real
  {
    -1.0 * (body.height / 2.0 - door.doorHeight / 2.0) + FloorThickness(body)
  }

  function CutDoorUnit(body: BodyParams, door: DoorParams): Unit
  {
    if door.customCutDoor.Some? then door.customCutDoor.value
    else Unit(Filleted(Box(door.doorLength, DoorCutWidth(body), door.doorHeight), door.doorFillet),
              door.doorLength, DoorLift(body, door))
  }

  function DoorUnit(body: BodyParams, door: DoorParams): Unit
  {
    if door.customDoor.Some? then door.customDoor.value
    else Unit(SubAssembly("Blast door", door.doorLength, door.doorWidth, door.doorHeight),
              door.doorLength, DoorLift(body, door))
  }

  /** How far from the centre the door rows stand: a door width past the interior, a quarter of it when the inset is not positive. */
  function DoorTranslate(intSpan: real, body: BodyParams, door: DoorParams): real
  {
    if body.inset <= 0.0 then intSpan / 2.0 + door.doorWidth / 4.0 else intSpan / 2.0 + door.doorWidth
  }

  function CutDoorPlacement(body: BodyParams, panel: PanelParams, door: DoorParams, intLength: real, intWidth: real): Placement
  {
    var dcw := DoorCutWidth(body);
    Placement(CutDoorUnit(body, door),
              panel.panelLength - door.doorLength + (panel.panelPadding + door.customCutDoorPadding) * 2.0,
              intLength / 2.0 + dcw / 2.0, intWidth / 2.0 + dcw / 2.0, 0.0, Mask([], door.doorPanels))
  }

  function DoorPlacement(body: BodyParams, panel: PanelParams, door: DoorParams, intLength: real, intWidth: real): Placement
  {
    Placement(DoorUnit(body, door),
              panel.panelLength - door.doorLength + (panel.panelPadding + door.customDoorPadding) * 2.0,
              DoorTranslate(intLength, body, door), DoorTranslate(intWidth, body, door), 0.0, Mask([], door.doorPanels))
  }

  /**
   * The opening starts at the interior wall and ends at the outer face of
   * the wedge: the footprint's edge for a non-negative inset, the
   * overhanging top's edge for a negative one.
   */
  lemma DoorCutSpansWall(body: BodyParams)
    ensures var intSpan := InteriorSpan(body.length, body.inset, body.wallWidth);
      var across := intSpan / 2.0 + DoorCutWidth(body) / 2.0;
      && across - DoorCutWidth(body) / 2.0 == intSpan / 2.0
      && across + DoorCutWidth(body) / 2.0 == (if body.inset >= 0.0 then body.length else TopSpan(body.length, body.inset)) / 2.0
  {
  }

  /** The default opening and door stand on the interior floor, the top of the floor slab. */
  lemma DoorsSitOnFloor(body: BodyParams, door: DoorParams)
    ensures DoorLift(body, door) - door.doorHeight / 2.0 == ZSpan(InteriorRectangle(body)).value.0
    ensures door.customCutDoor.None? ==> CutDoorUnit(body, door).lift == DoorLift(body, door)
    ensures door.customDoor.None? ==> DoorUnit(body, door).lift == DoorLift(body, door)
  {
  }

  /**
   * Doors occupy exactly the door bays. An empty door list keeps no bay
   * out: the keep list is then ignored and every bay of the wall gets a door.
   */
  lemma {:induction false} DoorsOnDoorPanels(nx: nat, ny: nat, body: BodyParams, panel: PanelParams, door: DoorParams,
      intLength: real, intWidth: real)
    ensures var idx := Indices(Layout(nx, ny, DoorPlacement(body, panel, door, intLength, intWidth)), nx, ny);
      forall i :: 0 <= i < 2 * nx + 2 * ny ==> (i in idx <==> (|door.doorPanels| == 0 || i in door.doorPanels))
    ensures Indices(Layout(nx, ny, DoorPlacement(body, panel, door, intLength, intWidth)), nx, ny)
         == Indices(Layout(nx, ny, CutDoorPlacement(body, panel, door, intLength, intWidth)), nx, ny)
  {
    var p := DoorPlacement(body, panel, door, intLength, intWidth);
    LayoutIndices(nx, ny, p);
    RetainedExactly(2 * nx + 2 * ny, p.mask);
    SameMaskSameBays(nx, ny, p, CutDoorPlacement(body, panel, door, intLength, intWidth));
  }

  method MakeCutDoors(b: Bunker)
    requires b.SeriesReady()
    modifies b`cutDoors
    ensures b.cutDoors == Some(HostLayout(b.panel, b.intLength.value, b.intWidth.value,
      CutDoorPlacement(b.body, b.panel, b.door, b.intLength.value, b.intWidth.value)))
  {
    var body := b.body;
    var doorCutWidth := body.inset + body.wallWidth;
    var floorThickness := if Truthy(body.floorThickness) then body.floorThickness.value else body.wallWidth;
    if body.inset < 0.0 {
      doorCutWidth := -1.0 * body.inset + body.wallWidth;
    }
    var cutDoor;
    if b.door.customCutDoor.Some? {
      cutDoor := b.door.customCutDoor.value;
    } else {
      cutDoor := Unit(Filleted(Box(b.door.doorLength, doorCutWidth, b.door.doorHeight), b.door.doorFillet),
                      b.door.doorLength, -1.0 * (body.height / 2.0 - b.door.doorHeight / 2.0) + floorThickness);
    }
    var bays := b.MakeSeries(Placement(cutDoor,
      b.panel.panelLength - b.door.doorLength + (b.panel.panelPadding + b.door.customCutDoorPadding) * 2.0,
      b.intLength.value / 2.0 + doorCutWidth / 2.0, b.intWidth.value / 2.0 + doorCutWidth / 2.0,
      0.0, Mask([], b.door.doorPanels)));
    b.cutDoors := Some(bays);
  }

  method MakeDoors(b: Bunker)
    requires b.SeriesReady()
    modifies b`doors
    ensures b.doors == Some(HostLayout(b.panel, b.intLength.value, b.intWidth.value,
      DoorPlacement(b.body, b.panel, b.door, b.intLength.value, b.intWidth.value)))
  {
    var body := b.body;
    var floorThickness := if Truthy(body.floorThickness) then body.floorThickness.value else body.wallWidth;
    var door;
    if b.door.customDoor.Some? {
      door := b.door.customDoor.value;
    } else {
      door := Unit(SubAssembly("Blast door", b.door.doorLength, b.door.doorWidth, b.door.doorHeight),
                   b.door.doorLength, -1.0 * (body.height / 2.0 - b.door.doorHeight / 2.0) + floorThickness);
    }
    var xTranslate := b.intLength.value / 2.0 + b.door.doorWidth;
    var yTranslate := b.intWidth.value / 2.0 + b.door.doorWidth;
    if body.inset <= 0.0 {
      xTranslate := b.intLength.value / 2.0 + b.door.doorWidth / 4.0;
      yTranslate := b.intWidth.value / 2.0 + b.door.doorWidth / 4.0;
    }
    var bays := b.MakeSeries(Placement(door,
      b.panel.panelLength - b.door.doorLength + (b.panel.panelPadding + b.door.customDoorPadding) * 2.0,
      xTranslate, yTranslate, 0.0, Mask([], b.door.doorPanels)));
    b.doors := Some(bays);
  }
}

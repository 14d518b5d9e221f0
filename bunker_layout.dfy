/**
 * How the bunker's series features fit together: they share the panel
 * bays, and windows never share a bay with a door or a ladder.
 */
module BunkerLayout {
  import opened Common
  import opened Series
  import opened BunkerState
  import opened BunkerBody
  import opened BunkerPanels
  import opened BunkerWindows
  import opened BunkerDoors
  import opened BunkerLadders
  import opened BunkerFloor

  /**
   * Every feature's length offset makes up its unit's length to one panel
   * plus twice the panel padding (plus any custom padding), so copy k of any
   * feature's row sits in the bay of panel k.
   */
  lemma FeaturesKeepPanelSpacing(body: BodyParams, panel: PanelParams, window: WindowParams, door: DoorParams,
      ladder: LadderParams, floor: FloorParams, cut: FloorCutParams, l: Ladder, intLength: real, intWidth: real)
    requires window.customCutWindow.None? && door.customCutDoor.None? && door.customDoor.None?
    ensures var spacing := panel.panelLength + 2.0 * panel.panelPadding;
      var panels := PanelPlacement(body, panel, CutPanelUnit(body, panel));
      var windows := CutWindowPlacement(body, panel, window, door, ladder, intLength, intWidth);
      var frames := WindowFramePlacement(body, panel, window, door, ladder, intLength, intWidth);
      var cutDoors := CutDoorPlacement(body, panel, door, intLength, intWidth);
      var doors := DoorPlacement(body, panel, door, intLength, intWidth);
      var ladders := LadderPlacement(l, panel, ladder, intLength, intWidth);
      var floorCuts := FloorCutPlacement(body, panel, floor, cut, intLength, intWidth);
      && panels.unit.extent + panels.lengthOffset == spacing
      && windows.unit.extent + windows.lengthOffset == spacing + 2.0 * window.customCutWindowPadding
      && frames.unit.extent + frames.lengthOffset == spacing + 2.0 * window.customWindowPadding
      && cutDoors.unit.extent + cutDoors.lengthOffset == spacing + 2.0 * door.customCutDoorPadding
      && doors.unit.extent + doors.lengthOffset == spacing + 2.0 * door.customDoorPadding
      && ladders.unit.extent + ladders.lengthOffset == spacing
      && floorCuts.unit.extent + floorCuts.lengthOffset == spacing
  {
  }

  /**
   * With doors rendered on a non-empty list of bays, no bay holds both a
   * door and a window; likewise for ladders.
   */
  lemma WindowsClearOfDoorsAndLadders(nx: nat, ny: nat, body: BodyParams, panel: PanelParams, window: WindowParams,
      door: DoorParams, ladder: LadderParams, l: Ladder, intLength: real, intWidth: real)
    ensures var windows := Indices(Layout(nx, ny, CutWindowPlacement(body, panel, window, door, ladder, intLength, intWidth)), nx, ny);
      var doors := Indices(Layout(nx, ny, DoorPlacement(body, panel, door, intLength, intWidth)), nx, ny);
      door.renderDoors && |door.doorPanels| > 0 ==> forall i :: i in windows ==> i !in doors
    ensures var windows := Indices(Layout(nx, ny, CutWindowPlacement(body, panel, window, door, ladder, intLength, intWidth)), nx, ny);
      var ladders := Indices(Layout(nx, ny, LadderPlacement(l, panel, ladder, intLength, intWidth)), nx, ny);
      ladder.renderLadders && |ladder.ladderPanels| > 0 ==> forall i :: i in windows ==> i !in ladders
  {
    var windows := Indices(Layout(nx, ny, CutWindowPlacement(body, panel, window, door, ladder, intLength, intWidth)), nx, ny);
    var wp := CutWindowPlacement(body, panel, window, door, ladder, intLength, intWidth);
    LayoutIndices(nx, ny, wp);
    RetainedExactly(2 * nx + 2 * ny, wp.mask);
    WindowsAvoidDoorsAndLadders(nx, ny, body, panel, window, door, ladder, intLength, intWidth);
    DoorsOnDoorPanels(nx, ny, body, panel, door, intLength, intWidth);
    LadderAgainstWall(nx, ny, l, panel, ladder, intLength, intWidth);
    var dp := DoorPlacement(body, panel, door, intLength, intWidth);
    LayoutIndices(nx, ny, dp);
    RetainedExactly(2 * nx + 2 * ny, dp.mask);
    var lp := LadderPlacement(l, panel, ladder, intLength, intWidth);
    LayoutIndices(nx, ny, lp);
    RetainedExactly(2 * nx + 2 * ny, lp.mask);
  }
  /**
   * An empty door (ladder) list keeps windows out of no bay: the doors
   * (ladders) then fill every bay, every window bay among them.
   */
  lemma EmptyListsShareWindowBays(nx: nat, ny: nat, body: BodyParams, panel: PanelParams, window: WindowParams,
      door: DoorParams, ladder: LadderParams, l: Ladder, intLength: real, intWidth: real)
    ensures var windows := Indices(Layout(nx, ny, CutWindowPlacement(body, panel, window, door, ladder, intLength, intWidth)), nx, ny);
      var doors := Indices(Layout(nx, ny, DoorPlacement(body, panel, door, intLength, intWidth)), nx, ny);
      |door.doorPanels| == 0 ==> forall i :: i in windows ==> i in doors
    ensures var windows := Indices(Layout(nx, ny, CutWindowPlacement(body, panel, window, door, ladder, intLength, intWidth)), nx, ny);
      var ladders := Indices(Layout(nx, ny, LadderPlacement(l, panel, ladder, intLength, intWidth)), nx, ny);
      |ladder.ladderPanels| == 0 ==> forall i :: i in windows ==> i in ladders
  {
    var wp := CutWindowPlacement(body, panel, window, door, ladder, intLength, intWidth);
    LayoutIndices(nx, ny, wp);
    RetainedExactly(2 * nx + 2 * ny, wp.mask);
    DoorsOnDoorPanels(nx, ny, body, panel, door, intLength, intWidth);
    var lp := LadderPlacement(l, panel, ladder, intLength, intWidth);
    LayoutIndices(nx, ny, lp);
    RetainedExactly(2 * nx + 2 * ny, lp.mask);
  }


  /**
   * A 140 by 110 bunker with inset 15 and walls 5 has a 100 by 70 interior,
   * 3 bays along its length and 2 along its width: 10 bays.
   */
  lemma ExampleBunkerBays()
    ensures var body := DefaultBody().(length := 140.0, width := 110.0, inset := 15.0, wallWidth := 5.0);
      var intLength := InteriorSpan(body.length, body.inset, body.wallWidth);
      var intWidth := InteriorSpan(body.width, body.inset, body.wallWidth);
      && intLength == 100.0 && intWidth == 70.0
      && Count(intLength, Pitch(DefaultPanels())) == 3 && Count(intWidth, Pitch(DefaultPanels())) == 2
  {
    assert (100.0 / 32.0).Floor == 3;
    assert (70.0 / 32.0).Floor == 2;
  }

  /**
   * Of those 10 bays, with the default ladder (bay 0), doors (bays 0 and 3)
   * and skipped window (bay 0), windows go in the other eight.
   */
  lemma ExampleBunkerWindows()
    ensures Retained(10, Mask(ResolveWindowSkip(DefaultWindows(), DefaultDoors(), DefaultLadders()), []))
         == [1, 2, 4, 5, 6, 7, 8, 9]
  {
    DefaultWindowSkip();
    SkipZeroAndThree();
  }

  /** The resolved skip list: the skipped window, then the door bays, then the ladder bay. */
  lemma DefaultWindowSkip()
    ensures ResolveWindowSkip(DefaultWindows(), DefaultDoors(), DefaultLadders()) == [0, 0, 3, 0]
  {
    assert DefaultWindows().skipWindows + DefaultDoors().doorPanels + DefaultLadders().ladderPanels == [0, 0, 3, 0];
  }

  lemma SkipZeroAndThree()
    ensures Retained(10, Mask([0, 0, 3, 0], [])) == [1, 2, 4, 5, 6, 7, 8, 9]
  {
    var m := Mask([0, 0, 3, 0], []);
    assert Retained(1, m) == [];
    assert Retained(2, m) == [1];
    assert Retained(3, m) == [1, 2];
    assert Retained(4, m) == [1, 2];
    assert Retained(5, m) == [1, 2, 4];
    assert Retained(6, m) == [1, 2, 4, 5];
    assert Retained(7, m) == [1, 2, 4, 5, 6];
    assert Retained(8, m) == [1, 2, 4, 5, 6, 7];
    assert Retained(9, m) == [1, 2, 4, 5, 6, 7, 8];
  }

  /** The default doors take bays 0 and 3 of the 10. */
  lemma ExampleBunkerDoors()
    ensures Retained(10, Mask([], DefaultDoors().doorPanels)) == [0, 3]
  {
    var d := Mask([], [0, 3]);
    assert DefaultDoors().doorPanels == [0, 3];
    assert Retained(1, d) == [0];
    assert Retained(2, d) == [0];
    assert Retained(3, d) == [0];
    assert Retained(4, d) == [0, 3];
    assert Retained(5, d) == [0, 3];
    assert Retained(6, d) == [0, 3];
    assert Retained(7, d) == [0, 3];
    assert Retained(8, d) == [0, 3];
    assert Retained(9, d) == [0, 3];
  }
}

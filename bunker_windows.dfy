/**
 * The windows: an opening cut through the wall in each bay that has no door
 * and no ladder (and is not skipped outright), and a frame set into it.
 */
module BunkerWindows {
  import opened Common
  import opened Series
  import opened BunkerState
  import opened BunkerBody

  /**
   * The bays windows keep out of: the explicit skip list, then the door bays
   * when doors are rendered, then the ladder bays when ladders are rendered.
   */
  function ResolveWindowSkip(window: WindowParams, door: DoorParams, ladder: LadderParams): (r: seq<int>)
    ensures |r| >= |window.skipWindows| && r[..|window.skipWindows|] == window.skipWindows
    ensures forall i :: i in r <==>
      i in window.skipWindows || (door.renderDoors && i in door.doorPanels) || (ladder.renderLadders && i in ladder.ladderPanels)
  {
    var withDoors := window.skipWindows + (if door.renderDoors then door.doorPanels else []);
    withDoors + (if ladder.renderLadders then ladder.ladderPanels else [])
  }

  /** Depth of the window opening: the inset plus a wall, or the overhang when the inset is negative. */
  function CutWindowWidth(body: BodyParams): real
  {
    if body.inset < 0.0 then -1.0 * body.inset else body.inset + body.wallWidth
  }

  /** Depth of the window frame: the inset, the overhang, or a wall plus 2 when flush; an explicit width wins. */
  function WindowFrameWidth(body: BodyParams, window: WindowParams): (r: real)
    ensures Truthy(window.windowWidth) ==> r == window.windowWidth.value
    ensures !Truthy(window.windowWidth) && body.inset == 0.0 ==> r == body.wallWidth + 2.0
    ensures !Truthy(window.windowWidth) && body.inset != 0.0 ==> r == (if body.inset < 0.0 then -body.inset else body.inset)
  {
    var byInset := if body.inset < 0.0 then -1.0 * body.inset
                   else if body.inset == 0.0 then body.wallWidth + 2.0
                   else body.inset;
    if Truthy(window.windowWidth) then window.windowWidth.value else byInset
  }

  function CutWindowUnit(body: BodyParams, window: WindowParams): Unit
  {
    if window.customCutWindow.Some? then window.customCutWindow.value
    else Unit(Box(window.windowLength, CutWindowWidth(body), window.windowHeight), window.windowLength, 0.0)
  }

  /** A custom cut window takes its frame from the custom window factory as well. */
  function WindowFrameUnit(body: BodyParams, window: WindowParams): Unit
    requires window.customCutWindow.Some? ==> window.customWindow.Some?
  {
    if window.customCutWindow.Some? then window.customWindow.value
    else Unit(Chamfered(SubAssembly("Window frame", window.windowLength, WindowFrameWidth(body, window), window.windowHeight),
                        window.windowFrameChamfer),
              window.windowLength, 0.0)
  }

  function CutWindowPlacement(b: BodyParams, panel: PanelParams, window: WindowParams, door: DoorParams,
                              ladder: LadderParams, intLength: real, intWidth: real): Placement
  {
    var cw := CutWindowWidth(b);
    Placement(CutWindowUnit(b, window),
              panel.panelLength - window.windowLength + (panel.panelPadding + window.customCutWindowPadding) * 2.0,
              intLength / 2.0 + cw / 2.0, intWidth / 2.0 + cw / 2.0, -1.0 * panel.panelPadding,
              Mask(ResolveWindowSkip(window, door, ladder), []))
  }

  function WindowFramePlacement(b: BodyParams, panel: PanelParams, window: WindowParams, door: DoorParams,
                                ladder: LadderParams, intLength: real, intWidth: real): Placement
    requires window.customCutWindow.Some? ==> window.customWindow.Some?
  {
    var fw := WindowFrameWidth(b, window);
    Placement(WindowFrameUnit(b, window),
              panel.panelLength - window.windowLength + (panel.panelPadding + window.customWindowPadding) * 2.0,
              intLength / 2.0 + fw / 2.0 + window.windowWidthOffset, intWidth / 2.0 + fw / 2.0 + window.windowWidthOffset,
              -1.0 * panel.panelPadding,
              Mask(ResolveWindowSkip(window, door, ladder), []))
  }

  /**
   * A window bay is any bay not resolved as skipped: the windows occupy
   * exactly the bays below 2nx + 2ny that are neither skipped, nor door
   * bays (when doors are rendered), nor ladder bays (when ladders are rendered).
   */
  lemma {:induction false} WindowsAvoidDoorsAndLadders(nx: nat, ny: nat, b: BodyParams, panel: PanelParams,
      window: WindowParams, door: DoorParams, ladder: LadderParams, intLength: real, intWidth: real)
    ensures var idx := Indices(Layout(nx, ny, CutWindowPlacement(b, panel, window, door, ladder, intLength, intWidth)), nx, ny);
      forall i :: 0 <= i < 2 * nx + 2 * ny ==>
        (i in idx <==> !(i in window.skipWindows || (door.renderDoors && i in door.doorPanels)
                         || (ladder.renderLadders && i in ladder.ladderPanels)))
  {
    var p := CutWindowPlacement(b, panel, window, door, ladder, intLength, intWidth);
    LayoutIndices(nx, ny, p);
    RetainedExactly(2 * nx + 2 * ny, p.mask);
  }

  /** Openings and frames share their bays, copy for copy, and with the default units their spacing. */
  lemma FramesInTheirOpenings(nx: nat, ny: nat, b: BodyParams, panel: PanelParams,
      window: WindowParams, door: DoorParams, ladder: LadderParams, intLength: real, intWidth: real)
    requires window.customCutWindow.Some? ==> window.customWindow.Some?
    ensures var cuts := CutWindowPlacement(b, panel, window, door, ladder, intLength, intWidth);
      var frames := WindowFramePlacement(b, panel, window, door, ladder, intLength, intWidth);
      && Indices(Layout(nx, ny, cuts), nx, ny) == Indices(Layout(nx, ny, frames), nx, ny)
      && cuts.zTranslate == frames.zTranslate
      && (window.customCutWindow.None? && window.customCutWindowPadding == window.customWindowPadding ==>
            cuts.unit.extent + cuts.lengthOffset == frames.unit.extent + frames.lengthOffset
                                                == panel.panelLength + 2.0 * (panel.panelPadding + window.customWindowPadding))
  {
    SameMaskSameBays(nx, ny, CutWindowPlacement(b, panel, window, door, ladder, intLength, intWidth),
                     WindowFramePlacement(b, panel, window, door, ladder, intLength, intWidth));
  }

  /**
   * The opening's inner face is the interior wall; with a non-negative inset
   * its outer face is the body's outline, so it goes right through the wall.
   */
  lemma WindowCutSpansWall(body: BodyParams)
    ensures var cw := CutWindowWidth(body);
      var across := InteriorSpan(body.length, body.inset, body.wallWidth) / 2.0 + cw / 2.0;
      && across - cw / 2.0 == InteriorSpan(body.length, body.inset, body.wallWidth) / 2.0
      && (body.inset >= 0.0 ==> across + cw / 2.0 == body.length / 2.0)
      && (body.inset < 0.0 ==> across + cw / 2.0 == TopSpan(body.length, body.inset) / 2.0 - body.wallWidth)
  {
  }

  method MakeCutWindows(b: Bunker)
    requires b.SeriesReady()
    modifies b`cutWindows
    ensures b.cutWindows == Some(HostLayout(b.panel, b.intLength.value, b.intWidth.value,
      CutWindowPlacement(b.body, b.panel, b.window, b.door, b.ladder, b.intLength.value, b.intWidth.value)))
  {
    var cutWidth := b.body.inset + b.body.wallWidth;
    if b.body.inset < 0.0 {
      cutWidth := -1.0 * b.body.inset;
    }
    var cutWindow;
    if b.window.customCutWindow.Some? {
      cutWindow := b.window.customCutWindow.value;
    } else {
      cutWindow := Unit(Box(b.window.windowLength, cutWidth, b.window.windowHeight), b.window.windowLength, 0.0);
    }
    var bays := b.MakeSeries(Placement(cutWindow,
      b.panel.panelLength - b.window.windowLength + (b.panel.panelPadding + b.window.customCutWindowPadding) * 2.0,
      b.intLength.value / 2.0 + cutWidth / 2.0, b.intWidth.value / 2.0 + cutWidth / 2.0,
      -1.0 * b.panel.panelPadding, Mask(ResolveWindowSkip(b.window, b.door, b.ladder), [])));
    b.cutWindows := Some(bays);
  }

  method MakeWindows(b: Bunker)
    requires b.SeriesReady()
    requires b.window.customCutWindow.Some? ==> b.window.customWindow.Some?
    modifies b`windows
    ensures b.windows == Some(HostLayout(b.panel, b.intLength.value, b.intWidth.value,
      WindowFramePlacement(b.body, b.panel, b.window, b.door, b.ladder, b.intLength.value, b.intWidth.value)))
  {
    var windowWidth := b.body.inset;
    if b.body.inset < 0.0 {
      windowWidth := -1.0 * b.body.inset;
    } else if b.body.inset == 0.0 {
      windowWidth := b.body.wallWidth + 2.0;
    }
    if Truthy(b.window.windowWidth) {
      windowWidth := b.window.windowWidth.value;
    }
    var frame;
    if b.window.customCutWindow.Some? {
      frame := b.window.customWindow.value;
    } else {
      frame := Unit(Chamfered(SubAssembly("Window frame", b.window.windowLength, windowWidth, b.window.windowHeight),
                              b.window.windowFrameChamfer),
                    b.window.windowLength, 0.0);
    }
    var bays := b.MakeSeries(Placement(frame,
      b.panel.panelLength - b.window.windowLength + (b.panel.panelPadding + b.window.customWindowPadding) * 2.0,
      b.intLength.value / 2.0 + windowWidth / 2.0 + b.window.windowWidthOffset,
      b.intWidth.value / 2.0 + windowWidth / 2.0 + b.window.windowWidthOffset,
      -1.0 * b.panel.panelPadding, Mask(ResolveWindowSkip(b.window, b.door, b.ladder), [])));
    b.windows := Some(bays);
  }
}

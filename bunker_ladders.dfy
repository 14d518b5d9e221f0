/**
 * The ladders: a ladder sub-assembly the height of the body, set against the
 * interior wall at each ladder bay.
 */
module BunkerLadders {
  import opened Common
  import opened Series
  import opened BunkerState

  /**
   * The ladder that is placed: the stock ladder given the configured length
   * and the body's height, then handed to the custom hook when there is one.
   */
  function ConfiguredLadder(stock: Ladder, body: BodyParams, ladder: LadderParams,
                            hook: Option<Ladder -> Ladder>): (r: Ladder)
    ensures hook.None? ==> r == Ladder(ladder.ladderLength, stock.width, body.height)
  {
    var sized := stock.(length := ladder.ladderLength, height := body.height);
    if hook.Some? then hook.value(sized) else sized
  }

  function LadderUnit(l: Ladder): Unit
  {
    Unit(SubAssembly("Ladder", l.length, l.width, l.height), l.length, 0.0)
  }

  function LadderPlacement(l: Ladder, panel: PanelParams, ladder: LadderParams, intLength: real, intWidth: real): Placement
  {
    Placement(LadderUnit(l), panel.panelLength - l.length + panel.panelPadding * 2.0,
              intLength / 2.0 - l.width / 2.0, intWidth / 2.0 - l.width / 2.0,
              ladder.ladderZTranslate, Mask([], ladder.ladderPanels))
  }

  /**
   * Each ladder's back is flush with the interior wall of its row, ladders
   * keep the panel spacing whatever their length, and exactly the listed
   * bays get one, or every bay when the ladder list is empty.
   */
  lemma {:induction false} LadderAgainstWall(nx: nat, ny: nat, l: Ladder, panel: PanelParams, ladder: LadderParams,
      intLength: real, intWidth: real)
    ensures var p := LadderPlacement(l, panel, ladder, intLength, intWidth);
      && p.yTranslate + l.width / 2.0 == intWidth / 2.0
      && p.xTranslate + l.width / 2.0 == intLength / 2.0
      && p.unit.extent + p.lengthOffset == panel.panelLength + 2.0 * panel.panelPadding
    ensures var idx := Indices(Layout(nx, ny, LadderPlacement(l, panel, ladder, intLength, intWidth)), nx, ny);
      forall i :: 0 <= i < 2 * nx + 2 * ny ==> (i in idx <==> |ladder.ladderPanels| == 0 || i in ladder.ladderPanels)
  {
    var p := LadderPlacement(l, panel, ladder, intLength, intWidth);
    LayoutIndices(nx, ny, p);
    RetainedExactly(2 * nx + 2 * ny, p.mask);
  }

  /**
   * Sizes the stock ladder, lets the hook adjust it, and places it. The
   * stock ladder (whose width the placement uses) comes from outside.
   */
  method MakeLadders(b: Bunker, stock: Ladder)
    requires b.SeriesReady()
    modifies b`ladders
    ensures b.ladders == Some(HostLayout(b.panel, b.intLength.value, b.intWidth.value,
      LadderPlacement(ConfiguredLadder(stock, b.body, b.ladder, b.customLadder), b.panel, b.ladder,
                      b.intLength.value, b.intWidth.value)))
  {
    var bp := stock;
    bp := bp.(length := b.ladder.ladderLength);
    bp := bp.(height := b.body.height);
    if b.customLadder.Some? {
      bp := b.customLadder.value(bp);
    }
    var bays := b.MakeSeries(Placement(LadderUnit(bp),
      b.panel.panelLength - bp.length + b.panel.panelPadding * 2.0,
      b.intLength.value / 2.0 - bp.width / 2.0, b.intWidth.value / 2.0 - bp.width / 2.0,
      b.ladder.ladderZTranslate, Mask([], b.ladder.ladderPanels)));
    b.ladders := Some(bays);
  }
}

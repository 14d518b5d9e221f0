/**
 * The wall panels: a cut panel recessed into every bay of the wall and a
 * detailed arch panel set back into the same bays.
 */
module BunkerPanels {
  import opened Common
  import opened Series
  import opened BunkerState

  /** Height of a panel: the body height less the panel padding. */
  function PanelHeight(body: BodyParams, panel: PanelParams): real
  {
    body.height - panel.panelPadding
  }

  /**
   * The cut panel: a panel-sized box standing on its own bottom edge behind
   * the origin, leaned back to the wall's angle and lowered to the body's bottom.
   */
  function CutPanelUnit(body: BodyParams, panel: PanelParams): (u: Unit)
    ensures u.extent == panel.panelLength && u.lift == -body.height / 2.0
    ensures u.solid.Tilted? && u.solid.angle == body.angle - 90.0
    ensures u.solid.solid.Moved? && u.solid.solid.solid == Box(panel.panelLength, panel.panelWidth, body.height - panel.panelPadding)
    ensures u.solid.solid.dz - (body.height - panel.panelPadding) / 2.0 == 0.0
  {
    var ph := PanelHeight(body, panel);
    Unit(Tilted(Moved(Box(panel.panelLength, panel.panelWidth, ph), 0.0, -panel.panelWidth / 2.0, ph / 2.0),
                body.angle - 90.0),
         panel.panelLength, -body.height / 2.0)
  }

  /** The detailed panel: the arch detail in front of the origin, turned to face out, then leaned and lowered alike. */
  function DetailPanelUnit(body: BodyParams, panel: PanelParams): (u: Unit)
    ensures u.extent == panel.panelLength && u.lift == -body.height / 2.0
    ensures u.solid.Tilted? && u.solid.angle == body.angle - 90.0
  {
    var ph := PanelHeight(body, panel);
    Unit(Tilted(Turned(Moved(Kernel("arch detail"), 0.0, panel.panelWidth / 2.0, ph / 2.0), 180),
                body.angle - 90.0),
         panel.panelLength, -body.height / 2.0)
  }

  /** Both panel series: spacing padded by twice the panel padding, rows on the outline, no mask. */
  function PanelPlacement(body: BodyParams, panel: PanelParams, u: Unit): Placement
  {
    Placement(u, panel.panelPadding * 2.0, body.length / 2.0, body.width / 2.0, 0.0, Mask([], []))
  }

  /** Panels go in every bay: neither panel series is masked, so each is the full perimeter. */
  lemma PanelsFillEveryBay(body: BodyParams, panel: PanelParams, intLength: real, intWidth: real, u: Unit)
    requires Pitch(panel) != 0.0
    ensures var nx := Count(intLength, Pitch(panel));
      var ny := Count(intWidth, Pitch(panel));
      HostLayout(panel, intLength, intWidth, PanelPlacement(body, panel, u))
        == Perimeter(nx, ny, PanelPlacement(body, panel, u))
  {
    NoListsKeepAll(Perimeter(Count(intLength, Pitch(panel)), Count(intWidth, Pitch(panel)), PanelPlacement(body, panel, u)));
  }

  /**
   * Each detail panel sits in the bay of the cut panel with the same index;
   * the rows lie on the body's outline and neighbouring panels are one panel
   * length plus twice the padding apart.
   */
  lemma {:induction false} DetailPanelsInCutBays(body: BodyParams, panel: PanelParams, nx: nat, ny: nat)
    ensures var cuts := Perimeter(nx, ny, PanelPlacement(body, panel, CutPanelUnit(body, panel)));
      var details := Perimeter(nx, ny, PanelPlacement(body, panel, DetailPanelUnit(body, panel)));
      && |cuts| == |details|
      && (forall i :: 0 <= i < |cuts| ==>
            cuts[i].x == details[i].x && cuts[i].y == details[i].y && cuts[i].z == details[i].z)
      && (forall i :: 0 <= i < nx ==> cuts[i].y == body.width / 2.0)
      && (forall i :: nx <= i < nx + ny ==> cuts[i].x == body.length / 2.0)
      && (nx >= 2 ==> cuts[1].x - cuts[0].x == panel.panelLength + 2.0 * panel.panelPadding)
  {
    var pc := PanelPlacement(body, panel, CutPanelUnit(body, panel));
    var pd := PanelPlacement(body, panel, DetailPanelUnit(body, panel));
    var cuts := Perimeter(nx, ny, pc);
    SamePositions(nx, ny, pc, pd);
    OppositeSidesReflect(nx, ny, pc);
    if nx >= 2 {
      var spacing := panel.panelLength + panel.panelPadding * 2.0;
      OffsetStep(nx, 0, spacing);
      assert cuts[1].x == Offset(nx, 1, spacing) && cuts[0].x == Offset(nx, 0, spacing);
    }
  }

  method MakeCutPanels(b: Bunker)
    requires b.SeriesReady()
    modifies b`cutPanels
    ensures b.cutPanels == Some(HostLayout(b.panel, b.intLength.value, b.intWidth.value,
                                           PanelPlacement(b.body, b.panel, CutPanelUnit(b.body, b.panel))))
  {
    var bays := b.MakeSeries(Placement(CutPanelUnit(b.body, b.panel), b.panel.panelPadding * 2.0,
                                       b.body.length / 2.0, b.body.width / 2.0, 0.0, Mask([], [])));
    b.cutPanels := Some(bays);
  }

  method MakeDetailPanels(b: Bunker)
    requires b.SeriesReady()
    modifies b`panels
    ensures b.panels == Some(HostLayout(b.panel, b.intLength.value, b.intWidth.value,
                                        PanelPlacement(b.body, b.panel, DetailPanelUnit(b.body, b.panel))))
  {
    var bays := b.MakeSeries(Placement(DetailPanelUnit(b.body, b.panel), b.panel.panelPadding * 2.0,
                                       b.body.length / 2.0, b.body.width / 2.0, 0.0, Mask([], [])));
    b.panels := Some(bays);
  }
}

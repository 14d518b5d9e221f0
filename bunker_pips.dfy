/**
 * The pips: four studs (or magnet pockets) at the corners of the body's top
 * that a roof locks onto, and four pockets cut up into the base from below.
 */
module BunkerPips {
  import opened Common
  import opened BunkerState
  import opened BunkerBody

  function Pip(pip: PipParams): Solid
  {
    Cylinder(pip.pipHeight, pip.pipRadius)
  }

  /** Pips stand on the top face; magnet pockets are sunk flush into it. */
  function TopPips(body: BodyParams, pip: PipParams): seq<Solid>
  {
    var x := body.length / 2.0 - body.inset - pip.pipRadius - pip.pipPadding;
    var y := body.width / 2.0 - body.inset - pip.pipRadius - pip.pipPadding;
    var z := if pip.renderMagnets then body.height / 2.0 - pip.pipHeight / 2.0 else body.height / 2.0 + pip.pipHeight / 2.0;
    Corners(Pip(pip), x, y, z)
  }

  /** The pockets under the base, at the footprint's corners. */
  function BasePips(body: BodyParams, pip: PipParams): seq<Solid>
  {
    Corners(Pip(pip), body.length / 2.0 - pip.pipRadius - pip.pipPadding, body.width / 2.0 - pip.pipRadius - pip.pipPadding,
            -1.0 * (body.height / 2.0 + body.baseHeight - pip.pipHeight / 2.0))
  }

  /**
   * Each top pip keeps pip_padding between its rim and the edges of the
   * wedge's top face; it rises from the top face, or with magnets its pocket
   * reaches down from it.
   */
  lemma PipsOnTopFace(body: BodyParams, pip: PipParams)
    ensures var pips := TopPips(body, pip);
      && |pips| == 4
      && pips[0].dx + pip.pipRadius + pip.pipPadding == TopSpan(body.length, body.inset) / 2.0
      && pips[0].dy + pip.pipRadius + pip.pipPadding == TopSpan(body.width, body.inset) / 2.0
      && (forall s :: s in pips ==>
            ZSpan(s) == Some(if pip.renderMagnets then (body.height / 2.0 - pip.pipHeight, body.height / 2.0)
                             else (body.height / 2.0, body.height / 2.0 + pip.pipHeight)))
  {
    var pips := TopPips(body, pip);
    forall s | s in pips
      ensures ZSpan(s) == Some(if pip.renderMagnets then (body.height / 2.0 - pip.pipHeight, body.height / 2.0)
                               else (body.height / 2.0, body.height / 2.0 + pip.pipHeight))
    {
      assert s == pips[0] || s == pips[1] || s == pips[2] || s == pips[3];
    }
  }

  /** The base pockets open on the base's underside and keep pip_padding to the footprint's edges. */
  lemma BasePipsUnderBase(body: BodyParams, pip: PipParams)
    ensures var pips := BasePips(body, pip);
      && |pips| == 4
      && pips[0].dx + pip.pipRadius + pip.pipPadding == body.length / 2.0
      && pips[0].dy + pip.pipRadius + pip.pipPadding == body.width / 2.0
      && (forall s :: s in pips ==>
            ZSpan(s) == Some((ZSpan(BaseBlock(body)).value.0, ZSpan(BaseBlock(body)).value.0 + pip.pipHeight)))
  {
    var pips := BasePips(body, pip);
    forall s | s in pips
      ensures ZSpan(s) == Some((ZSpan(BaseBlock(body)).value.0, ZSpan(BaseBlock(body)).value.0 + pip.pipHeight))
    {
      assert s == pips[0] || s == pips[1] || s == pips[2] || s == pips[3];
    }
  }

  method MakePips(b: Bunker)
    modifies b`pips
    ensures b.pips == Some(TopPips(b.body, b.pip))
  {
    var pip := Cylinder(b.pip.pipHeight, b.pip.pipRadius);
    var xTranslate := b.body.length / 2.0 - b.body.inset - b.pip.pipRadius - b.pip.pipPadding;
    var yTranslate := b.body.width / 2.0 - b.body.inset - b.pip.pipRadius - b.pip.pipPadding;
    var zTranslate := b.body.height / 2.0 + b.pip.pipHeight / 2.0;
    if b.pip.renderMagnets {
      zTranslate := b.body.height / 2.0 - b.pip.pipHeight / 2.0;
    }
    b.pips := Some([Moved(pip, xTranslate, yTranslate, zTranslate), Moved(pip, -1.0 * xTranslate, yTranslate, zTranslate),
                    Moved(pip, -1.0 * xTranslate, -1.0 * yTranslate, zTranslate), Moved(pip, xTranslate, -1.0 * yTranslate, zTranslate)]);
  }

  method MakeCutPips(b: Bunker)
    modifies b`cutPips
    ensures b.cutPips == Some(BasePips(b.body, b.pip))
  {
    var pip := Cylinder(b.pip.pipHeight, b.pip.pipRadius);
    var xTranslate := b.body.length / 2.0 - b.pip.pipRadius - b.pip.pipPadding;
    var yTranslate := b.body.width / 2.0 - b.pip.pipRadius - b.pip.pipPadding;
    var zTranslate := -1.0 * (b.body.height / 2.0 + b.body.baseHeight - b.pip.pipHeight / 2.0);
    b.cutPips := Some([Moved(pip, xTranslate, yTranslate, zTranslate), Moved(pip, -1.0 * xTranslate, yTranslate, zTranslate),
                       Moved(pip, -1.0 * xTranslate, -1.0 * yTranslate, zTranslate), Moved(pip, xTranslate, -1.0 * yTranslate, zTranslate)]);
  }
}

/**
 * The bunker body: the tapered wedge, the interior that is hollowed out of
 * it, and the base plate under it. The interior measurements made here are
 * the spans every other feature's series runs over.
 */
module BunkerBody {
  import opened Common
  import opened BunkerState

  function Min(a: real, b: real): real
  {
    if a <= b then a else b
  }

  /** Length or width of the wedge's top face: the outline pulled in by the inset on both sides. */
  function TopSpan(outer: real, inset: real): real
  {
    outer - 2.0 * inset
  }

  /**
   * Interior length or width: the outline less the inset and a wall on each
   * side, or less only the walls when the inset is negative (an overhanging top).
   */
  function InteriorSpan(outer: real, inset: real, wallWidth: real): real
  {
    if inset < 0.0 then outer - 2.0 * wallWidth else outer - 2.0 * (inset + wallWidth)
  }

  /**
   * Whichever way the walls lean, the interior leaves exactly one wall width
   * on each side of the narrower of the wedge's two faces (the top face for
   * a non-negative inset, the footprint for a negative one).
   */
  lemma InteriorLeavesWalls(outer: real, inset: real, wallWidth: real)
    ensures InteriorSpan(outer, inset, wallWidth) + 2.0 * wallWidth == Min(outer, TopSpan(outer, inset))
    ensures inset == 0.0 ==> InteriorSpan(outer, inset, wallWidth) == outer - 2.0 * wallWidth
  {
  }

  /** The wedge, laid on its back, with the vertical edges chamfered when a corner chamfer is set. */
  function BodyWedge(body: BodyParams): (r: Solid)
    ensures r.Chamfered? <==> body.cornerChamfer > 0.0
    ensures var w := if r.Chamfered? then r.solid else r;
      w == Tilted(Wedge(body.length, body.height, body.width, body.inset), -90.0)
  {
    var w := Tilted(Wedge(body.length, body.height, body.width, body.inset), -90.0);
    if body.cornerChamfer > 0.0 then Chamfered(w, body.cornerChamfer) else w
  }

  /** The hollow: interior length by width, from the floor's top up to the body's top. */
  function InteriorRectangle(body: BodyParams): (r: Solid)
    ensures ZSpan(r) == Some((-body.height / 2.0 + FloorThickness(body), body.height / 2.0))
    ensures r.Moved? && r.dx == 0.0 && r.dy == 0.0
    ensures r.solid.Box? && r.solid.length == InteriorSpan(body.length, body.inset, body.wallWidth)
    ensures r.solid.width == InteriorSpan(body.width, body.inset, body.wallWidth)
  {
    var ft := FloorThickness(body);
    Moved(Box(InteriorSpan(body.length, body.inset, body.wallWidth),
              InteriorSpan(body.width, body.inset, body.wallWidth),
              body.height - ft), 0.0, 0.0, ft / 2.0)
  }

  /** The base plate before any chamfer: the full footprint, base_height thick. */
  function BaseBlock(body: BodyParams): (r: Solid)
    ensures ZSpan(r) == Some((-body.height / 2.0 - body.baseHeight, -body.height / 2.0))
    ensures r.Moved? && r.solid == Box(body.length, body.width, body.baseHeight)
  {
    Moved(Box(body.length, body.width, body.baseHeight), 0.0, 0.0, -(body.height / 2.0 + body.baseHeight / 2.0))
  }

  /** The base plate, chamfered exactly when the corner chamfer is positive. */
  function BodyBase(body: BodyParams): (r: Solid)
    ensures r.Chamfered? <==> body.cornerChamfer > 0.0
    ensures r == BaseBlock(body) || r == Chamfered(BaseBlock(body), body.cornerChamfer)
  {
    if body.cornerChamfer > 0.0 then Chamfered(BaseBlock(body), body.cornerChamfer) else BaseBlock(body)
  }

  /** The base's top face meets the body's bottom face; the interior floor is FloorThickness above it. */
  lemma BaseUnderBody(body: BodyParams)
    ensures ZSpan(BaseBlock(body)).value.1 == -body.height / 2.0
    ensures ZSpan(InteriorRectangle(body)).value.0 - ZSpan(BaseBlock(body)).value.1 == FloorThickness(body)
  {
  }

  method MakeWedge(b: Bunker)
    modifies b`wedge
    ensures b.wedge == Some(BodyWedge(b.body))
  {
    var w := Tilted(Wedge(b.body.length, b.body.height, b.body.width, b.body.inset), -90.0);
    if b.body.cornerChamfer > 0.0 {
      w := Chamfered(w, b.body.cornerChamfer);
    }
    b.wedge := Some(w);
  }

  /** Measures the interior (the spans the series runs over) and makes the hollow. */
  method MakeInteriorRectangle(b: Bunker)
    modifies b`intLength, b`intWidth, b`interiorRectangle
    ensures b.intLength == Some(InteriorSpan(b.body.length, b.body.inset, b.body.wallWidth))
    ensures b.intWidth == Some(InteriorSpan(b.body.width, b.body.inset, b.body.wallWidth))
    ensures b.interiorRectangle == Some(InteriorRectangle(b.body))
  {
    var body := b.body;
    var intLength := body.length - 2.0 * (body.inset + body.wallWidth);
    var intWidth := body.width - 2.0 * (body.inset + body.wallWidth);
    var floorThickness := if Truthy(body.floorThickness) then body.floorThickness.value else body.wallWidth;
    if body.inset < 0.0 {
      intLength := body.length - 2.0 * body.wallWidth;
      intWidth := body.width - 2.0 * body.wallWidth;
    }
    b.intLength, b.intWidth := Some(intLength), Some(intWidth);
    b.interiorRectangle := Some(Moved(Box(intLength, intWidth, body.height - floorThickness),
                                      0.0, 0.0, floorThickness / 2.0));
  }

  method MakeBase(b: Bunker)
    modifies b`base
    ensures b.base == Some(BodyBase(b.body))
  {
    var body := b.body;
    var plate := Moved(Box(body.length, body.width, body.baseHeight),
                       0.0, 0.0, -1.0 * (body.height / 2.0 + body.baseHeight / 2.0));
    if body.cornerChamfer > 0.0 {
      plate := Chamfered(plate, body.cornerChamfer);
    }
    b.base := Some(plate);
  }
}

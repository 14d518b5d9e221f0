/**
 * Shared vocabulary of the terrain generator model: optional values, errors,
 * opaque solids and the steps of a boolean build pipeline.
 *
 * The geometry kernel is not part of this model. A solid is a token that
 * records how it was asked for (a box of given size, moved by a vector, with
 * a chamfer, ...), never what the kernel would make of it.
 */
module Common {

  datatype Option<+T> = None | Some(value: T)

  datatype Result<+T, +E> = Ok(value: T) | Err(error: E)

  /** The exceptions the generator raises. */
  datatype Error =
    | NoShape                                 // series helper without a unit
    | OuterSizeUnset                          // series helper span not positive
    | ComponentSizeUnset                      // series helper pitch not positive
    | SceneUnset                              // scene asked for before make
    | NotMade                                 // build before make
    | MissingSolid                            // a union or cut handed a solid never made
    | ChamferTooLarge(chamfer: real, height: real)
    | UnrecognisedOperation(operation: string)

  /** Python truthiness of an optional number: None and zero are false. */
  predicate Truthy(o: Option<real>)
  {
    o.Some? && o.value != 0.0
  }

  /** `o if o else fallback`, the idiom the generator uses for optional settings. */
  function OrElse(o: Option<real>, fallback: real): real
  {
    if Truthy(o) then o.value else fallback
  }

  /**
   * Solids as the model sees them. `Kernel` stands for any solid whose
   * construction is not modelled (arches, slotted tiles, door and hatch
   * sub-assemblies); `name` only tells them apart.
   */
  datatype Solid =
    | Box(length: real, width: real, height: real)
    | Cylinder(height: real, radius: real)
    | Wedge(length: real, height: real, width: real, inset: real)
    | Kernel(name: string)
    | SubAssembly(kind: string, length: real, width: real, height: real)
    | Moved(solid: Solid, dx: real, dy: real, dz: real)
    | Turned(solid: Solid, degrees: int)                // about the vertical axis
    | Tilted(solid: Solid, angle: real)                 // about the x axis
    | Chamfered(solid: Solid, distance: real)
    | Filleted(solid: Solid, radius: real)
    | Shelled(solid: Solid, thickness: real)
    | Difference(solid: Solid, tool: Solid)
    | Fused(solid: Solid, other: Solid)
    | Intersection(solid: Solid, other: Solid)
    | TileGrid(tile: Solid, rows: int, columns: int, pitchX: real, pitchY: real, pushX: real, pushY: real)
    | Group(members: seq<Solid>)                        // several solids held together

  /** Lowest and highest z of a box or cylinder, after any moves. */
  function ZSpan(s: Solid): Option<(real, real)>
  {
    match s
    case Box(_, _, h) => Some((-h / 2.0, h / 2.0))
    case Cylinder(h, _) => Some((-h / 2.0, h / 2.0))
    case Moved(inner, _, _, dz) =>
      (match ZSpan(inner)
       case Some(span) => Some((span.0 + dz, span.1 + dz))
       case None => None)
    case _ => None
  }

  /** Which memoized solid a build step uses. */
  datatype Part =
    | Body | WallCuts | WallDetails | Tiles | Holes | HatchCuts | Hatches
    | Platform | Magnets | CornerWalls | FloorTiles

  /** One boolean operation of a build: union, cut, or plain add. */
  datatype Step = Union(part: Part) | Cut(part: Part) | Add(part: Part)

  /** The step when its gate is open, nothing otherwise. */
  function Gated(open: bool, step: Step): seq<Step>
  {
    if open then [step] else []
  }

  /** The four copies the generator places at the corners (x, y), (-x, y), (-x, -y), (x, -y). */
  function Corners(s: Solid, x: real, y: real, z: real): (r: seq<Solid>)
    ensures |r| == 4
    ensures forall c :: c in r ==> c.Moved? && c.solid == s && c.dz == z
    ensures r[0].dx == x && r[0].dy == y
    ensures r[1].dx == -x && r[1].dy == y && r[2].dx == -x && r[2].dy == -y && r[3].dx == x && r[3].dy == -y
  {
    [Moved(s, x, y, z), Moved(s, -x, y, z), Moved(s, -x, -y, z), Moved(s, x, -y, z)]
  }

  /** ASCII lower-casing, enough for the operation names the roof accepts. */
  function Lower(s: string): (r: string)
    ensures |r| == |s|
    ensures forall i :: 0 <= i < |s| ==> ('A' <= s[i] <= 'Z' ==> r[i] == (s[i] as int + 32) as char)
    ensures forall i :: 0 <= i < |s| ==> (!('A' <= s[i] <= 'Z') ==> r[i] == s[i])
  {
    if s == [] then []
    else [if 'A' <= s[0] <= 'Z' then (s[0] as int + 32) as char else s[0]] + Lower(s[1..])
  }
}
